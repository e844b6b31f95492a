/*
 * The `adb track-devices` stream (internal/adb/tracking.go): each "SERIAL<TAB>STATUS"
 * line with a meaningful status becomes a device change event, sent into a channel
 * with room for ten events.
 */
module Tracking {
  import opened Wrappers
  import opened Text
  import Channels

  datatype DeviceChangeEvent = DeviceChangeEvent(serial: string, status: string)

  const EventBufferSize: nat := 10

  predicate MeaningfulStatus(status: string) {
    status == "device" || status == "offline" || status == "disconnected"
  }

  /** The event one line of the stream announces, if any. */
  function ParseTrackLine(raw: string): (r: Option<DeviceChangeEvent>)
    ensures r.Some? ==> r.value.serial != "" && MeaningfulStatus(r.value.status)
    ensures r.Some? ==> NoTab(r.value.serial) && |Split(TrimSpace(raw), '\t')| >= 2
    ensures TrimSpace(raw) == "" ==> r.None?
  {
    var line := TrimSpace(raw);
    if line == "" then None
    else
      var parts := Split(line, '\t');
      if |parts| < 2 then None
      else
        var serial := TrimSpace(parts[0]);
        var status := TrimSpace(parts[1]);
        assert '\t' !in parts[0];
        if serial != "" && MeaningfulStatus(status) then Some(DeviceChangeEvent(serial, status))
        else None
  }

  predicate NoTab(s: string) { '\t' !in s }

  /**
   * A well-formed line round-trips: a serial without whitespace and a meaningful status,
   * separated by a tab, parse back to exactly that event.
   */
  lemma ParseTrackLineWellFormed(serial: string, status: string)
    requires serial != "" && NoSpace(serial) && MeaningfulStatus(status)
    ensures ParseTrackLine(serial + "\t" + status) == Some(DeviceChangeEvent(serial, status))
  {
    var line := serial + "\t" + status;
    TrackLineTrimmed(serial, status);
    TrackLineSplit(serial, status);
    TrimSpaceKeeps(serial);
    TrimSpaceKeeps(status);
  }

  lemma TrackLineTrimmed(serial: string, status: string)
    requires serial != "" && NoSpace(serial) && MeaningfulStatus(status)
    ensures TrimSpace(serial + "\t" + status) == serial + "\t" + status
  {
    var line := serial + "\t" + status;
    assert line[0] == serial[0] && line[|line| - 1] == status[|status| - 1];
    TrimSpaceKeeps(line);
  }

  lemma TrackLineSplit(serial: string, status: string)
    requires NoSpace(serial) && MeaningfulStatus(status)
    ensures Split(serial + "\t" + status, '\t') == [serial, status]
  {
    assert NoTab(status) by {
      if status == "device" {
      } else if status == "offline" {
      } else {
      }
    }
    SplitPair(serial, status, '\t');
    assert serial + "\t" + status == serial + ['\t'] + status;
  }

  /** The events of a run of lines, in line order. */
  function EventsOf(lines: seq<string>): seq<DeviceChangeEvent> {
    if lines == [] then []
    else EventsOf(lines[..|lines| - 1]) + LineEvents(lines[|lines| - 1])
  }

  /** The event of one line, as a list of none or one. */
  function LineEvents(raw: string): seq<DeviceChangeEvent> {
    match ParseTrackLine(raw)
    case None => []
    case Some(e) => [e]
  }

  /** One more line adds that line's event, if any, at the end. */
  lemma EventsOfStep(lines: seq<string>, i: nat)
    requires i < |lines|
    ensures EventsOf(lines[..i + 1]) == EventsOf(lines[..i]) + LineEvents(lines[i])
  {
    assert lines[..i + 1][..i] == lines[..i];
  }

  /** Every event reports a non-empty serial and a meaningful status, and no line yields two events. */
  lemma {:induction false} EventsOfWellFormed(lines: seq<string>)
    ensures |EventsOf(lines)| <= |lines|
    ensures forall k :: 0 <= k < |EventsOf(lines)| ==>
      EventsOf(lines)[k].serial != "" && MeaningfulStatus(EventsOf(lines)[k].status)
  {
    if lines != [] {
      EventsOfWellFormed(lines[..|lines| - 1]);
    }
  }

  /**
   * StartDeviceTracking over the lines the subprocess prints: a pipe or start failure is
   * an error; otherwise the events go into a ten-slot channel that no one drains while
   * the lines arrive, so events beyond the tenth are dropped.
   */
  method TrackDevices(pipeErr: Option<string>, startErr: Option<string>, lines: seq<string>)
    returns (r: Result<seq<DeviceChangeEvent>>)
    ensures pipeErr.Some? ==> r == Err("failed to create stdout pipe: " + pipeErr.value)
    ensures pipeErr.None? && startErr.Some? ==> r == Err("failed to start adb track-devices: " + startErr.value)
    ensures pipeErr.None? && startErr.None? ==> r == Ok(Channels.OfferAll([], EventsOf(lines), EventBufferSize))
  {
    if pipeErr.Some? {
      return Err("failed to create stdout pipe: " + pipeErr.value);
    }
    if startErr.Some? {
      return Err("failed to start adb track-devices: " + startErr.value);
    }
    var eventChan := ForwardEvents(lines);
    return Ok(eventChan);
  }

  /** The reading goroutine: each line's event, if any, is offered to the ten-slot channel. */
  method ForwardEvents(lines: seq<string>) returns (eventChan: seq<DeviceChangeEvent>)
    ensures eventChan == Channels.OfferAll([], EventsOf(lines), EventBufferSize)
  {
    eventChan := [];
    ghost var events: seq<DeviceChangeEvent> := [];
    var i := 0;
    while i < |lines|
      invariant 0 <= i <= |lines|
      invariant events == EventsOf(lines[..i])
      invariant eventChan == Channels.OfferAll([], events, EventBufferSize)
    {
      EventsOfStep(lines, i);
      var event := ParseTrackLine(lines[i]);
      if event.Some? {
        Channels.OfferAllSnoc([], events, event.value, EventBufferSize);
        eventChan := Channels.Offer(eventChan, event.value, EventBufferSize);
        events := events + [event.value];
      } else {
        assert events + LineEvents(lines[i]) == events;
      }
      i := i + 1;
    }
    assert lines[..i] == lines;
  }

  /** The channel receives the first ten events in line order. */
  lemma TrackedEventsArePrefix(lines: seq<string>)
    ensures Channels.OfferAll([], EventsOf(lines), EventBufferSize)
         == EventsOf(lines)[..Channels.Min(|EventsOf(lines)|, EventBufferSize)]
  {
    Channels.OfferAllPrefix([], EventsOf(lines), EventBufferSize);
  }
}
