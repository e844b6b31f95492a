/*
 * internal/tui/capture: redirecting the process's standard streams into two bounded line
 * queues while a command runs. Pipes and reader goroutines are abstracted: the lines a
 * command prints arrive as a sequence, and the readers have processed all of them once
 * Stop returns (it waits for both).
 */
module Capture {
  import opened Wrappers
  import Channels

  /** The capacity of each line queue. */
  const QueueCapacity: nat := 100

  /** The lines a reader enqueues from what it scans: every non-empty one, in order. */
  function NonEmpty(lines: seq<string>): (r: seq<string>)
    ensures |r| <= |lines|
    ensures forall k :: 0 <= k < |r| ==> r[k] != ""
  {
    if lines == [] then []
    else NonEmpty(lines[..|lines| - 1]) + (if lines[|lines| - 1] != "" then [lines[|lines| - 1]] else [])
  }

  /** NonEmpty keeps exactly the non-empty lines. */
  lemma {:induction false} NonEmptyMembers(lines: seq<string>)
    ensures forall s :: s in NonEmpty(lines) <==> s in lines && s != ""
  {
    if lines != [] {
      NonEmptyMembers(lines[..|lines| - 1]);
      assert lines == lines[..|lines| - 1] + [lines[|lines| - 1]];
    }
  }

  lemma NonEmptyStep(lines: seq<string>, i: nat)
    requires i < |lines|
    ensures NonEmpty(lines[..i + 1]) == NonEmpty(lines[..i]) + (if lines[i] != "" then [lines[i]] else [])
  {
    assert lines[..i + 1][..i] == lines[..i];
  }

  /** The scan loop of readOutput: each non-empty line is offered to the queue in turn. */
  method Enqueue(queue0: seq<string>, lines: seq<string>) returns (queue: seq<string>)
    ensures queue == Channels.OfferAll(queue0, NonEmpty(lines), QueueCapacity)
  {
    queue := queue0;
    var i := 0;
    while i < |lines|
      invariant 0 <= i <= |lines|
      invariant queue == Channels.OfferAll(queue0, NonEmpty(lines[..i]), QueueCapacity)
    {
      var line := lines[i];
      NonEmptyStep(lines, i);
      if line != "" {
        Channels.OfferAllSnoc(queue0, NonEmpty(lines[..i]), line, QueueCapacity);
        queue := Channels.Offer(queue, line, QueueCapacity);
      } else {
        assert NonEmpty(lines[..i + 1]) == NonEmpty(lines[..i]);
      }
      i := i + 1;
    }
    assert lines[..i] == lines;
  }

  class OutputCapture {
    var capturing: bool
    /** Whether the process's stdout and stderr currently point into the capture pipes. */
    var redirected: bool
    /** Pipes created and not yet closed. */
    var openPipes: nat
    var outputCh: seq<string>
    var errorCh: seq<string>

    /** NewOutputCapture: idle, with two empty queues. */
    constructor ()
      ensures !capturing && !redirected && openPipes == 0 && outputCh == [] && errorCh == []
    {
      capturing, redirected, openPipes := false, false, 0;
      outputCh, errorCh := [], [];
    }

    /**
     * Start. `stdoutPipeErr` and `stderrPipeErr` are the errors of creating the two pipes.
     * Starting twice changes nothing; when the second pipe fails the first one is closed.
     */
    method Start(stdoutPipeErr: Option<string>, stderrPipeErr: Option<string>) returns (err: Option<string>)
      modifies this
      ensures old(capturing) ==> err.None? && capturing && redirected == old(redirected) && openPipes == old(openPipes)
      ensures !old(capturing) && stdoutPipeErr.Some? ==>
        err == stdoutPipeErr && !capturing && redirected == old(redirected) && openPipes == old(openPipes)
      ensures !old(capturing) && stdoutPipeErr.None? && stderrPipeErr.Some? ==>
        err == stderrPipeErr && !capturing && redirected == old(redirected) && openPipes == old(openPipes)
      ensures !old(capturing) && stdoutPipeErr.None? && stderrPipeErr.None? ==>
        err.None? && capturing && redirected && openPipes == old(openPipes) + 4
      ensures outputCh == old(outputCh) && errorCh == old(errorCh)
    {
      if capturing {
        return None;
      }
      if stdoutPipeErr.Some? {
        return stdoutPipeErr;
      }
      openPipes := openPipes + 2;
      if stderrPipeErr.Some? {
        openPipes := openPipes - 2;
        return stderrPipeErr;
      }
      openPipes := openPipes + 2;
      redirected := true;
      capturing := true;
      return None;
    }

    /** Stop: restores the streams and closes the four pipe ends; stopping when idle changes nothing. */
    method Stop() returns (err: Option<string>)
      requires capturing ==> openPipes >= 4
      modifies this
      ensures err.None?
      ensures !old(capturing) ==> capturing == old(capturing) && redirected == old(redirected) && openPipes == old(openPipes)
      ensures old(capturing) ==> !capturing && !redirected && openPipes == old(openPipes) - 4
      ensures outputCh == old(outputCh) && errorCh == old(errorCh)
    {
      if !capturing {
        return None;
      }
      redirected := false;
      openPipes := openPipes - 4;
      capturing := false;
      return None;
    }

    /**
     * readOutput for one stream: every non-empty scanned line is offered to the stream's queue
     * and dropped when the queue is full.
     */
    method ReadOutput(fromStderr: bool, lines: seq<string>)
      modifies this
      ensures !fromStderr ==> (outputCh == Channels.OfferAll(old(outputCh), NonEmpty(lines), QueueCapacity)
        && errorCh == old(errorCh))
      ensures fromStderr ==> (errorCh == Channels.OfferAll(old(errorCh), NonEmpty(lines), QueueCapacity)
        && outputCh == old(outputCh))
      ensures capturing == old(capturing) && redirected == old(redirected) && openPipes == old(openPipes)
    {
      if fromStderr {
        errorCh := Enqueue(errorCh, lines);
      } else {
        outputCh := Enqueue(outputCh, lines);
      }
    }

    /** GetAllOutput: every queued stdout line, then every queued stderr line; both queues end empty. */
    method GetAllOutput() returns (lines: seq<string>)
      modifies this
      ensures lines == old(outputCh) + old(errorCh)
      ensures outputCh == [] && errorCh == []
      ensures capturing == old(capturing) && redirected == old(redirected) && openPipes == old(openPipes)
    {
      lines := [];
      while outputCh != []
        invariant lines + outputCh == old(outputCh)
        invariant errorCh == old(errorCh)
        invariant capturing == old(capturing) && redirected == old(redirected) && openPipes == old(openPipes)
        decreases |outputCh|
      {
        lines := lines + [outputCh[0]];
        outputCh := outputCh[1..];
      }
      while errorCh != []
        invariant lines + errorCh == old(outputCh) + old(errorCh)
        invariant outputCh == []
        invariant capturing == old(capturing) && redirected == old(redirected) && openPipes == old(openPipes)
        decreases |errorCh|
      {
        lines := lines + [errorCh[0]];
        errorCh := errorCh[1..];
      }
    }
  }

  /** What a capture keeps of the lines printed to one stream: the first 100 non-empty ones. */
  function Kept(lines: seq<string>): (r: seq<string>)
    ensures |r| <= QueueCapacity
    ensures r <= NonEmpty(lines)
    ensures |NonEmpty(lines)| <= QueueCapacity ==> r == NonEmpty(lines)
  {
    var ne := NonEmpty(lines);
    ne[..Channels.Min(|ne|, QueueCapacity)]
  }

  /**
   * CaptureFunction. The function to run is abstracted by its error `fnErr` and the lines it
   * prints to each stream. When Start fails the function is not run and there is no output.
   * Stop never fails, so its error check cannot fire.
   */
  method CaptureFunction(stdoutPipeErr: Option<string>, stderrPipeErr: Option<string>,
                         fnErr: Option<string>, printedOut: seq<string>, printedErr: seq<string>)
    returns (output: Option<seq<string>>, err: Option<string>, ran: bool)
    ensures stdoutPipeErr.Some? ==> output.None? && err == stdoutPipeErr && !ran
    ensures stdoutPipeErr.None? && stderrPipeErr.Some? ==> output.None? && err == stderrPipeErr && !ran
    ensures stdoutPipeErr.None? && stderrPipeErr.None? ==>
      ran && err == fnErr && output == Some(Kept(printedOut) + Kept(printedErr))
  {
    var capture := new OutputCapture();
    var startErr := capture.Start(stdoutPipeErr, stderrPipeErr);
    if startErr.Some? {
      return None, startErr, false;
    }
    capture.ReadOutput(false, printedOut);
    capture.ReadOutput(true, printedErr);
    var _ := capture.Stop();
    var lines := capture.GetAllOutput();
    Channels.OfferAllPrefix([], NonEmpty(printedOut), QueueCapacity);
    Channels.OfferAllPrefix([], NonEmpty(printedErr), QueueCapacity);
    assert [] + Kept(printedOut) == Kept(printedOut);
    assert [] + Kept(printedErr) == Kept(printedErr);
    return Some(lines), fnErr, true;
  }
}
