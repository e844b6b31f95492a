/*
 * Buffered Go channels written to with a non-blocking send: the item is dropped when
 * the buffer is full. No receiver runs while the sends are modelled, so once the buffer
 * is full every later send is dropped.
 */
module Channels {
  /** One non-blocking send. */
  function Offer<T>(buffer: seq<T>, x: T, capacity: nat): (r: seq<T>)
    ensures |buffer| < capacity ==> r == buffer + [x]
    ensures |buffer| >= capacity ==> r == buffer
  {
    if |buffer| < capacity then buffer + [x] else buffer
  }

  /** A run of non-blocking sends, in order. */
  function OfferAll<T>(buffer: seq<T>, xs: seq<T>, capacity: nat): seq<T>
    decreases |xs|
  {
    if xs == [] then buffer
    else OfferAll(Offer(buffer, xs[0], capacity), xs[1..], capacity)
  }

  function Min(a: int, b: int): int { if a <= b then a else b }

  /**
   * Sends keep the buffered items, accept items in order while there is room and drop
   * every later one: the result is the old buffer plus the longest prefix of `xs` that fits.
   */
  lemma {:induction false} OfferAllPrefix<T>(buffer: seq<T>, xs: seq<T>, capacity: nat)
    ensures |buffer| >= capacity ==> OfferAll(buffer, xs, capacity) == buffer
    ensures |buffer| < capacity ==>
      OfferAll(buffer, xs, capacity) == buffer + xs[..Min(|xs|, capacity - |buffer|)]
    decreases |xs|
  {
    if xs != [] {
      OfferAllPrefix(Offer(buffer, xs[0], capacity), xs[1..], capacity);
      if |buffer| < capacity {
        var n := Min(|xs|, capacity - |buffer|);
        if |buffer| + 1 < capacity {
          assert xs[..n] == [xs[0]] + xs[1..][..Min(|xs[1..]|, capacity - |buffer| - 1)];
        } else {
          assert n == 1 && xs[..n] == [xs[0]];
        }
      }
    }
  }

  /** A buffer that starts within capacity stays within capacity. */
  lemma OfferAllBounded<T>(buffer: seq<T>, xs: seq<T>, capacity: nat)
    requires |buffer| <= capacity
    ensures |OfferAll(buffer, xs, capacity)| <= capacity
  {
    OfferAllPrefix(buffer, xs, capacity);
  }

  /** Nothing is dropped when everything fits. */
  lemma OfferAllFits<T>(buffer: seq<T>, xs: seq<T>, capacity: nat)
    requires |buffer| + |xs| <= capacity
    ensures OfferAll(buffer, xs, capacity) == buffer + xs
  {
    OfferAllPrefix(buffer, xs, capacity);
    if xs == [] {
      assert OfferAll(buffer, xs, capacity) == buffer;
    } else {
      assert xs[..|xs|] == xs;
    }
  }

  /** Sending one more item extends the run by one send. */
  lemma {:induction false} OfferAllSnoc<T>(buffer: seq<T>, xs: seq<T>, x: T, capacity: nat)
    ensures OfferAll(buffer, xs + [x], capacity) == Offer(OfferAll(buffer, xs, capacity), x, capacity)
    decreases |xs|
  {
    if xs == [] {
      assert xs + [x] == [x];
    } else {
      assert (xs + [x])[1..] == xs[1..] + [x];
      OfferAllSnoc(Offer(buffer, xs[0], capacity), xs[1..], x, capacity);
    }
  }
}
