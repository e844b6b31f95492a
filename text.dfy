/*
 * Option/Result wrappers used for Go's (value, error) returns and nil pointers.
 */
module Wrappers {
  datatype Option<T> = None | Some(value: T)

  /** A Go `(value, error)` pair: `Err` carries the text of `err.Error()`. */
  datatype Result<T> = Ok(value: T) | Err(error: string)

  /** The value of an option, or the given default when there is none. */
  function ValueOr<T>(o: Option<T>, dflt: T): T {
    if o.Some? then o.value else dflt
  }
}

/*
 * The parts of Go's `strings` and `strconv` packages that the program relies on,
 * with Go's semantics: whitespace is `unicode.IsSpace`, `Split` keeps empty
 * pieces, `Atoi` accepts an optional sign and decimal digits in the int64 range.
 */
module Text {
  import opened Wrappers

  /** unicode.IsSpace */
  predicate IsSpace(c: char) {
    c == ' ' || c == '\t' || c == '\n' || c == '\r' || c == '\U{000B}' || c == '\U{000C}'
    || c == '\U{0085}' || c == '\U{00A0}' || c == '\U{1680}'
    || ('\U{2000}' <= c <= '\U{200A}')
    || c == '\U{2028}' || c == '\U{2029}' || c == '\U{202F}' || c == '\U{205F}' || c == '\U{3000}'
  }

  predicate NoSpace(s: string) {
    forall i :: 0 <= i < |s| ==> !IsSpace(s[i])
  }

  predicate IsDigit(c: char) { '0' <= c <= '9' }

  predicate HasPrefix(s: string, p: string) { |p| <= |s| && s[..|p|] == p }

  predicate HasSuffix(s: string, p: string) { |p| <= |s| && s[|s| - |p|..] == p }

  /** strings.TrimPrefix */
  function TrimPrefix(s: string, p: string): (r: string)
    ensures HasPrefix(s, p) ==> p + r == s
    ensures !HasPrefix(s, p) ==> r == s
  {
    if HasPrefix(s, p) then s[|p|..] else s
  }

  /** strings.TrimSuffix */
  function TrimSuffix(s: string, p: string): (r: string)
    ensures HasSuffix(s, p) ==> r + p == s
    ensures !HasSuffix(s, p) ==> r == s
  {
    if HasSuffix(s, p) then s[..|s| - |p|] else s
  }

  /** `sub` occurs in `s` at position `k`. */
  predicate MatchAt(s: string, sub: string, k: int) {
    0 <= k && k + |sub| <= |s| && s[k..k + |sub|] == sub
  }

  /** strings.Index from position `from`: the first occurrence at or after `from`, or -1. */
  function IndexFrom(s: string, sub: string, from: nat): (r: int)
    ensures r == -1 || (from <= r && MatchAt(s, sub, r))
    ensures forall k :: from <= k && (r == -1 || k < r) ==> !MatchAt(s, sub, k)
    decreases |s| - from
  {
    if from + |sub| > |s| then -1
    else if s[from..from + |sub|] == sub then from
    else IndexFrom(s, sub, from + 1)
  }

  /** strings.Index */
  function Index(s: string, sub: string): (r: int)
    ensures r == -1 || MatchAt(s, sub, r)
    ensures forall k :: (r == -1 || k < r) ==> !MatchAt(s, sub, k)
  {
    IndexFrom(s, sub, 0)
  }

  /** strings.Contains */
  predicate Contains(s: string, sub: string) { Index(s, sub) >= 0 }

  /** Contains holds exactly when some window of `s` equals `sub`. */
  lemma ContainsIff(s: string, sub: string)
    ensures Contains(s, sub) <==> exists k :: MatchAt(s, sub, k)
  {
    if Contains(s, sub) {
      assert MatchAt(s, sub, Index(s, sub));
    }
  }

  /** No window of `s` before position `i` matching `sub` means no window of `s[..i]` does. */
  lemma NoMatchInPrefix(s: string, sub: string, i: nat)
    requires sub != "" && i <= |s| && forall k :: k < i ==> !MatchAt(s, sub, k)
    ensures forall j :: !MatchAt(s[..i], sub, j)
  {
    forall j | 0 <= j && j + |sub| <= i
      ensures !MatchAt(s[..i], sub, j)
    {
      assert !MatchAt(s, sub, j);
      assert s[..i][j..j + |sub|] == s[j..j + |sub|];
    }
  }

  /** strings.Replace(s, old, new, 1) */
  function ReplaceFirst(s: string, pat: string, rep: string): (r: string)
    ensures HasPrefix(s, pat) ==> r == rep + s[|pat|..]
  {
    if pat == "" then rep + s
    else
      var i := Index(s, pat);
      if i < 0 then s else s[..i] + rep + s[i + |pat|..]
  }

  /** strings.ReplaceAll for a one-character pattern. */
  function ReplaceAllChar(s: string, c: char, rep: string): (r: string)
    ensures c !in rep ==> c !in r
  {
    if s == [] then []
    else (if s[0] == c then rep else [s[0]]) + ReplaceAllChar(s[1..], c, rep)
  }

  function TrimLeftSpace(s: string): (r: string)
    ensures |r| <= |s| && r == s[|s| - |r|..]
    ensures r != [] ==> !IsSpace(r[0])
    ensures forall i :: 0 <= i < |s| - |r| ==> IsSpace(s[i])
  {
    if |s| > 0 && IsSpace(s[0]) then TrimLeftSpace(s[1..]) else s
  }

  function TrimRightSpace(s: string): (r: string)
    ensures |r| <= |s| && r == s[..|r|]
    ensures r != [] ==> !IsSpace(r[|r| - 1])
    ensures forall i :: |r| <= i < |s| ==> IsSpace(s[i])
  {
    if |s| > 0 && IsSpace(s[|s| - 1]) then TrimRightSpace(s[..|s| - 1]) else s
  }

  /** strings.TrimSpace */
  function TrimSpace(s: string): (r: string)
    ensures |r| <= |s|
    ensures r != [] ==> !IsSpace(r[0]) && !IsSpace(r[|r| - 1])
  {
    TrimRightSpace(TrimLeftSpace(s))
  }

  /** The longest prefix of `s` without whitespace. */
  function Word(s: string): (w: string)
    ensures |w| <= |s| && w == s[..|w|] && NoSpace(w)
    ensures |w| < |s| ==> IsSpace(s[|w|])
  {
    if s == [] || IsSpace(s[0]) then [] else [s[0]] + Word(s[1..])
  }

  /** strings.Fields: the maximal runs of non-whitespace characters. */
  function Fields(s: string): (r: seq<string>)
    ensures forall k :: 0 <= k < |r| ==> r[k] != [] && NoSpace(r[k])
    decreases |s|
  {
    var t := TrimLeftSpace(s);
    if t == [] then []
    else
      var w := Word(t);
      [w] + Fields(t[|w|..])
  }

  /** strings.Split for a one-character separator: always at least one piece. */
  function Split(s: string, sep: char): (r: seq<string>)
    ensures |r| >= 1
    ensures forall k :: 0 <= k < |r| ==> sep !in r[k]
  {
    if s == [] then [""]
    else
      var rest := Split(s[1..], sep);
      if s[0] == sep then [""] + rest else [[s[0]] + rest[0]] + rest[1..]
  }

  /** strings.Join for a one-character separator. */
  function JoinChar(parts: seq<string>, sep: char): string {
    if parts == [] then ""
    else if |parts| == 1 then parts[0]
    else parts[0] + [sep] + JoinChar(parts[1..], sep)
  }

  /** Split never loses a character: joining the pieces restores the input. */
  lemma {:induction false} JoinSplit(s: string, sep: char)
    ensures JoinChar(Split(s, sep), sep) == s
  {
    if s != [] {
      JoinSplit(s[1..], sep);
      var rest := Split(s[1..], sep);
      if s[0] != sep && |rest| > 1 {
        assert [[s[0]] + rest[0]] + rest[1..] == [[s[0]] + rest[0]] + rest[1..];
        assert JoinChar(rest, sep) == rest[0] + [sep] + JoinChar(rest[1..], sep);
      }
    }
  }

  /** A string without the separator splits into itself alone. */
  lemma {:induction false} SplitNoSep(s: string, sep: char)
    requires sep !in s
    ensures Split(s, sep) == [s]
  {
    if s != [] {
      SplitNoSep(s[1..], sep);
      assert [s[0]] + s[1..] == s;
    }
  }

  /** The first piece of a split is the text before the first separator. */
  lemma {:induction false} SplitFirst(s: string, sep: char, i: nat)
    requires i < |s| && s[i] == sep && sep !in s[..i]
    ensures |Split(s, sep)| >= 2 && Split(s, sep)[0] == s[..i]
    ensures Split(s, sep)[1..] == Split(s[i + 1..], sep)
  {
    if i > 0 {
      SplitFirst(s[1..], sep, i - 1);
      assert s[1..][..i - 1] == s[1..i];
      assert [s[0]] + s[1..i] == s[..i];
      assert s[1..][i..] == s[i + 1..];
    }
  }

  /** Two separator-free pieces joined by one separator split back into those two pieces. */
  lemma SplitPair(a: string, b: string, sep: char)
    requires sep !in a && sep !in b
    ensures Split(a + [sep] + b, sep) == [a, b]
  {
    var s := a + [sep] + b;
    assert s[..|a|] == a;
    SplitFirst(s, sep, |a|);
    assert s[|a| + 1..] == b;
    SplitNoSep(b, sep);
    assert Split(s, sep) == [Split(s, sep)[0]] + Split(s, sep)[1..];
  }

  /** TrimSpace leaves a string alone when it neither starts nor ends with whitespace. */
  lemma TrimSpaceKeeps(s: string)
    requires s == [] || (!IsSpace(s[0]) && !IsSpace(s[|s| - 1]))
    ensures TrimSpace(s) == s
  {
  }

  /** The text after `prefix` on the LAST line that starts with it, if any. */
  function LastValue(lines: seq<string>, prefix: string): Option<string> {
    if lines == [] then None
    else if HasPrefix(lines[|lines| - 1], prefix) then Some(TrimPrefix(lines[|lines| - 1], prefix))
    else LastValue(lines[..|lines| - 1], prefix)
  }

  /** The lines of a command's output after trimming it: Split(TrimSpace(output), "\n"). */
  function OutputLines(output: string): (lines: seq<string>)
    ensures |lines| >= 1
  {
    Split(TrimSpace(output), '\n')
  }

  /** strings.Join */
  function Join(parts: seq<string>, sep: string): (r: string)
    ensures parts == [] ==> r == ""
    ensures |parts| == 1 ==> r == parts[0]
  {
    if parts == [] then ""
    else if |parts| == 1 then parts[0]
    else parts[0] + sep + Join(parts[1..], sep)
  }

  /** strings.SplitN(s, sep, 2) for a non-empty separator. */
  function SplitOnce(s: string, sep: string): (r: seq<string>)
    requires sep != ""
    ensures |r| == 1 || |r| == 2
    ensures |r| == 1 <==> !Contains(s, sep)
    ensures |r| == 1 ==> r[0] == s
    ensures |r| == 2 ==> r[0] + sep + r[1] == s && !Contains(r[0], sep)
  {
    var i := Index(s, sep);
    if i < 0 then [s]
    else
      var r := [s[..i], s[i + |sep|..]];
      assert r[0] + sep + r[1] == s by {
        assert s == s[..i] + s[i..i + |sep|] + s[i + |sep|..];
      }
      assert !Contains(r[0], sep) by {
        NoMatchInPrefix(s, sep, i);
        ContainsIff(r[0], sep);
      }
      r
  }

  /** ASCII lower-casing (strings.ToLower restricted to ASCII letters). */
  function LowerChar(c: char): char {
    if 'A' <= c <= 'Z' then (c as int + 32) as char else c
  }

  function ToLower(s: string): (r: string)
    ensures |r| == |s|
    ensures forall i :: 0 <= i < |s| ==> r[i] == LowerChar(s[i])
  {
    if s == [] then [] else [LowerChar(s[0])] + ToLower(s[1..])
  }

  function DigitValue(c: char): nat
    requires IsDigit(c)
  {
    c as int - '0' as int
  }

  predicate AllDigits(s: string) { forall i :: 0 <= i < |s| ==> IsDigit(s[i]) }

  /** The value of a run of decimal digits, most significant first. */
  function DigitsValue(s: string): nat
    requires AllDigits(s)
  {
    if s == [] then 0 else DigitsValue(s[..|s| - 1]) * 10 + DigitValue(s[|s| - 1])
  }

  const MinInt64: int := -0x8000_0000_0000_0000
  const MaxInt64: int := 0x7FFF_FFFF_FFFF_FFFF

  /** strconv.Atoi: optional '+' or '-', at least one digit, only digits, int64 range. */
  function Atoi(s: string): (r: Option<int>)
    ensures r.Some? ==> MinInt64 <= r.value <= MaxInt64
    ensures r.Some? ==> s != [] && (IsDigit(s[0]) || s[0] == '+' || s[0] == '-')
  {
    if s == [] then None
    else
      var neg := s[0] == '-';
      var digits := if s[0] == '+' || s[0] == '-' then s[1..] else s;
      if digits == [] || !AllDigits(digits) then None
      else
        var v := if neg then -(DigitsValue(digits) as int) else DigitsValue(digits) as int;
        if v < MinInt64 || v > MaxInt64 then None else Some(v)
  }

  function DigitChar(d: nat): (c: char)
    requires d < 10
    ensures IsDigit(c) && DigitValue(c) == d
  {
    ('0' as int + d) as char
  }

  /** strconv.Itoa on a natural number. */
  function NatToString(n: nat): (r: string)
    ensures r != [] && AllDigits(r) && DigitsValue(r) == n
    ensures IsDigit(r[0])
  {
    if n < 10 then [DigitChar(n)]
    else
      var r := NatToString(n / 10) + [DigitChar(n % 10)];
      assert r[..|r| - 1] == NatToString(n / 10);
      r
  }

  /** strconv.Itoa */
  function Itoa(n: int): string {
    if n < 0 then "-" + NatToString(-n) else NatToString(n)
  }

  /** Itoa and Atoi are inverse on the int64 range. */
  lemma ItoaAtoi(n: int)
    requires MinInt64 <= n <= MaxInt64
    ensures Atoi(Itoa(n)) == Some(n)
  {
    if n < 0 {
      var s := Itoa(n);
      assert s[1..] == NatToString(-n);
    }
  }

  /** filepath.Join of two elements; path cleaning is not modelled. */
  function PathJoin(dir: string, elem: string): (r: string)
    ensures dir == "" ==> r == elem
    ensures dir != "" ==> r == dir + "/" + elem
  {
    if dir == "" then elem else dir + "/" + elem
  }

  /** A lower-case hexadecimal digit. */
  function HexDigit(n: nat): (c: char)
    requires n < 16
    ensures HexValue(c) == Some(n)
  {
    if n < 10 then ('0' as int + n) as char else ('a' as int + n - 10) as char
  }

  /** The value of a lower-case hexadecimal digit. */
  function HexValue(c: char): (v: Option<nat>)
    ensures v.Some? ==> v.value < 16
  {
    if '0' <= c <= '9' then Some(c as int - '0' as int)
    else if 'a' <= c <= 'f' then Some(c as int - 'a' as int + 10)
    else None
  }

  /**
   * strconv.Quote's escape of one character: the quote and the backslash are escaped, printable
   * ASCII is kept, the seven C escapes are used, and other ASCII control characters become \xNN.
   * Characters beyond ASCII are kept as they are.
   */
  function EscapeChar(c: char): (r: string)
    ensures r != [] && '\n' !in r
  {
    if c == '"' || c == '\\' then ['\\', c]
    else if ' ' <= c <= '~' then [c]
    else if c == '\U{7}' then "\\a"
    else if c == '\U{8}' then "\\b"
    else if c == '\U{C}' then "\\f"
    else if c == '\n' then "\\n"
    else if c == '\r' then "\\r"
    else if c == '\t' then "\\t"
    else if c == '\U{B}' then "\\v"
    else if c < ' ' || c == '\U{7F}' then ['\\', 'x', HexDigit(c as int / 16), HexDigit(c as int % 16)]
    else [c]
  }

  function Escape(s: string): string {
    if s == [] then [] else EscapeChar(s[0]) + Escape(s[1..])
  }

  /** strconv.Quote, the `%q` verb on a string. */
  function Quote(s: string): (r: string)
    ensures |r| >= 2 && r[0] == '"' && r[|r| - 1] == '"'
  {
    "\"" + Escape(s) + "\""
  }

  /** The first escape of a quoted text read back: the character and the length of its escape. */
  function UnescapeHead(t: string): (r: Option<(char, nat)>)
    requires t != []
    ensures r.Some? ==> 1 <= r.value.1 <= |t|
  {
    if t[0] != '\\' then Some((t[0], 1))
    else if |t| < 2 then None
    else if t[1] == '"' || t[1] == '\\' then Some((t[1], 2))
    else if t[1] == 'a' then Some(('\U{7}', 2))
    else if t[1] == 'b' then Some(('\U{8}', 2))
    else if t[1] == 'f' then Some(('\U{C}', 2))
    else if t[1] == 'n' then Some(('\n', 2))
    else if t[1] == 'r' then Some(('\r', 2))
    else if t[1] == 't' then Some(('\t', 2))
    else if t[1] == 'v' then Some(('\U{B}', 2))
    else if t[1] == 'x' && |t| >= 4 && HexValue(t[2]).Some? && HexValue(t[3]).Some? then
      Some(((HexValue(t[2]).value * 16 + HexValue(t[3]).value) as char, 4))
    else None
  }

  /** strconv.Unquote of the text between the quotes: None when an escape is malformed. */
  function Unescape(t: string): Option<string>
    decreases |t|
  {
    if t == [] then Some([])
    else match UnescapeHead(t)
      case None => None
      case Some((c, n)) =>
        match Unescape(t[n..])
        case None => None
        case Some(rest) => Some([c] + rest)
  }

  /** Reading an escaped character back gives the character and skips exactly its escape. */
  lemma UnescapeEscapeChar(c: char, rest: string)
    ensures UnescapeHead(EscapeChar(c) + rest) == Some((c, |EscapeChar(c)|))
  {
    var e := EscapeChar(c);
    var t := e + rest;
    assert t[..|e|] == e;
    if c < ' ' || c == '\U{7F}' {
      var n := c as int;
      if e == ['\\', 'x', HexDigit(n / 16), HexDigit(n % 16)] {
        assert t[2] == HexDigit(n / 16) && t[3] == HexDigit(n % 16);
        assert (n / 16) * 16 + n % 16 == n;
      }
    }
  }

  /** Unquoting undoes quoting: the escaped text reads back as the original text. */
  lemma {:induction false} UnescapeEscape(s: string)
    ensures Unescape(Escape(s)) == Some(s)
  {
    if s != [] {
      var e := EscapeChar(s[0]);
      UnescapeEscapeChar(s[0], Escape(s[1..]));
      assert (e + Escape(s[1..]))[|e|..] == Escape(s[1..]);
      UnescapeEscape(s[1..]);
      assert [s[0]] + s[1..] == s;
    }
  }

  /** Quoted text is one line: no newline survives escaping. */
  lemma {:induction false} EscapeSingleLine(s: string)
    ensures '\n' !in Escape(s)
  {
    if s != [] {
      EscapeSingleLine(s[1..]);
    }
  }

  /** Printable ASCII text without quotes or backslashes is quoted as it is. */
  lemma {:induction false} EscapePlain(s: string)
    requires forall i :: 0 <= i < |s| ==> ' ' <= s[i] <= '~' && s[i] != '"' && s[i] != '\\'
    ensures Escape(s) == s
  {
    if s != [] {
      EscapePlain(s[1..]);
      assert [s[0]] + s[1..] == s;
    }
  }
}
