/*
 * Outcomes of a run of adb calls. A command issues its calls one after another and
 * stops at the first failure among its critical calls; `outcome(i)` is the error of the
 * i-th call it issues (None when that call succeeds).
 */
module Sequencing {
  import opened Wrappers

  /** The index of the first failing call among the first `n`, or `n` when they all succeed. */
  function FirstFailure(outcome: nat -> Option<string>, n: nat): (f: nat)
    ensures f <= n
    ensures forall j :: 0 <= j < f ==> outcome(j).None?
    ensures f < n ==> outcome(f).Some?
  {
    if n == 0 then 0
    else
      var g := FirstFailure(outcome, n - 1);
      if g < n - 1 then g
      else if outcome(n - 1).Some? then n - 1
      else n
  }

  /** The first failure among more calls is the same one when it happens early enough. */
  lemma {:induction false} FirstFailureExtend(outcome: nat -> Option<string>, m: nat, n: nat)
    requires m <= n
    ensures FirstFailure(outcome, m) < m ==> FirstFailure(outcome, n) == FirstFailure(outcome, m)
    ensures FirstFailure(outcome, n) < m ==> FirstFailure(outcome, m) == FirstFailure(outcome, n)
    decreases n - m
  {
    if m < n {
      FirstFailureExtend(outcome, m, n - 1);
    }
  }
}

/* internal/commands/screenshot.go: single and day-night screenshots through adb. */
module Screenshot {
  import opened Wrappers
  import opened Text
  import opened Sequencing
  import Adb

  /** The file the device writes before it is pulled. */
  const RemotePath := "/sdcard/screenshot.png"

  function ScreenshotName(timestamp: string): string { "android-img-" + timestamp + ".png" }
  function DayName(timestamp: string): string { "android-img-" + timestamp + "-day.png" }
  function NightName(timestamp: string): string { "android-img-" + timestamp + "-night.png" }

  /** The three local names share their stem and differ in their endings. */
  lemma NamesDiffer(timestamp: string)
    ensures HasPrefix(ScreenshotName(timestamp), "android-img-" + timestamp)
    ensures HasPrefix(DayName(timestamp), "android-img-" + timestamp)
    ensures HasPrefix(NightName(timestamp), "android-img-" + timestamp)
    ensures ScreenshotName(timestamp) != DayName(timestamp)
    ensures ScreenshotName(timestamp) != NightName(timestamp)
    ensures DayName(timestamp) != NightName(timestamp)
  {
    var stem := "android-img-" + timestamp;
    assert ScreenshotName(timestamp) == stem + ".png";
    assert DayName(timestamp) == stem + "-day.png";
    assert NightName(timestamp) == stem + "-night.png";
    assert ScreenshotName(timestamp)[|stem|] == '.';
    assert DayName(timestamp)[|stem|] == '-';
    assert DayName(timestamp)[|stem| + 1] == 'd';
    assert NightName(timestamp)[|stem| + 1] == 'n';
  }

  /** setDarkMode: "cmd uimode night yes" to enable dark mode, "no" to disable it. */
  function DarkModeArgs(serial: string, enabled: bool): (argv: seq<string>)
    ensures |argv| == 7 && argv[..6] == ["-s", serial, "shell", "cmd", "uimode", "night"]
    ensures argv[6] == "yes" <==> enabled
    ensures argv[6] == "no" <==> !enabled
  {
    Adb.DeviceArgs(serial, ["shell", "cmd", "uimode", "night", if enabled then "yes" else "no"])
  }

  function ScreencapArgs(serial: string): seq<string> {
    Adb.DeviceArgs(serial, ["shell", "screencap", RemotePath])
  }

  function PullArgs(serial: string, localPath: string): seq<string> {
    Adb.DeviceArgs(serial, ["pull", RemotePath, localPath])
  }

  function RemoveArgs(serial: string): seq<string> {
    Adb.DeviceArgs(serial, ["shell", "rm", RemotePath])
  }

  /** Every call TakeScreenshot may issue, in order: screencap, pull, remove. */
  function ScreenshotScript(serial: string, localPath: string): seq<seq<string>> {
    [ScreencapArgs(serial), PullArgs(serial, localPath), RemoveArgs(serial)]
  }

  /** The wrapping for a failure of each critical call of TakeScreenshot. */
  const ScreenshotErrors: seq<string> := ["failed to take screenshot: ", "failed to pull screenshot: "]

  /**
   * TakeScreenshot: screencap, pull, then remove the device copy. The first failure among
   * the first two calls ends the run with its own message; the removal's result is ignored.
   * Only a completed run prints, and it prints where the file went.
   */
  method TakeScreenshot(mediaPath: string, serial: string, timestamp: string, outcome: nat -> Option<string>)
    returns (err: Option<string>, calls: seq<seq<string>>, printed: seq<string>)
    ensures var f := FirstFailure(outcome, 2);
      calls == ScreenshotScript(serial, PathJoin(mediaPath, ScreenshotName(timestamp)))[..if f < 2 then f + 1 else 3]
      && (err.None? <==> f == 2)
      && (f < 2 ==> err == Some(ScreenshotErrors[f] + outcome(f).value))
    ensures printed == if err.None? then ["Screenshot saved to: " + PathJoin(mediaPath, ScreenshotName(timestamp))] else []
  {
    var localPath := PathJoin(mediaPath, ScreenshotName(timestamp));
    ghost var script := ScreenshotScript(serial, localPath);
    printed := [];
    calls := [ScreencapArgs(serial)];
    if outcome(0).Some? {
      assert calls == script[..1];
      return Some("failed to take screenshot: " + outcome(0).value), calls, printed;
    }
    calls := calls + [PullArgs(serial, localPath)];
    if outcome(1).Some? {
      assert calls == script[..2];
      return Some("failed to pull screenshot: " + outcome(1).value), calls, printed;
    }
    calls := calls + [RemoveArgs(serial)];
    assert calls == script[..3];
    printed := ["Screenshot saved to: " + localPath];
    return None, calls, printed;
  }

  /** A screenshot is pulled only after the capture succeeded, and the device copy is removed only after a successful pull. */
  lemma ScreenshotOrder(mediaPath: string, serial: string, timestamp: string, outcome: nat -> Option<string>,
                        calls: seq<seq<string>>)
    requires var f := FirstFailure(outcome, 2);
      calls == ScreenshotScript(serial, PathJoin(mediaPath, ScreenshotName(timestamp)))[..if f < 2 then f + 1 else 3]
    ensures outcome(0).Some? ==> |calls| == 1 && calls[0] == ScreencapArgs(serial)
    ensures outcome(0).None? && outcome(1).Some? ==> |calls| == 2
    ensures outcome(0).None? && outcome(1).None? ==> |calls| == 3 && calls[2] == RemoveArgs(serial)
  {
  }

  /** Every call TakeDayNightScreenshots may issue, in order. */
  function DayNightScript(serial: string, dayPath: string, nightPath: string): seq<seq<string>> {
    [DarkModeArgs(serial, false), ScreencapArgs(serial), PullArgs(serial, dayPath),
     DarkModeArgs(serial, true), ScreencapArgs(serial), PullArgs(serial, nightPath),
     DarkModeArgs(serial, false), RemoveArgs(serial)]
  }

  /** The wrapping for a failure of each critical call of TakeDayNightScreenshots. */
  const DayNightErrors: seq<string> := [
    "failed to set light mode: ", "failed to take day screenshot: ", "failed to pull day screenshot: ",
    "failed to set dark mode: ", "failed to take night screenshot: ", "failed to pull night screenshot: "]

  /**
   * Everything TakeDayNightScreenshots prints up to the restore warning, in order. The run
   * announces itself and each step; a failure at step f stops after the first
   * DayNightPrinted[f] lines.
   */
  function DayNightLines(serial: string, dayPath: string, nightPath: string): seq<string> {
    ["Taking day and night screenshots of " + serial, "Setting light mode...", "Taking day screenshot...",
     "Day screenshot saved to: " + dayPath, "Setting dark mode...", "Taking night screenshot...",
     "Night screenshot saved to: " + nightPath, "Restoring light mode..."]
  }

  /** How many of DayNightLines are printed before a failure of each of the six main calls. */
  const DayNightPrinted: seq<nat> := [2, 3, 3, 5, 6, 6]

  /**
   * What TakeDayNightScreenshots prints for the given outcomes: the lines up to the first
   * failing main call, or all of them and then the warning when restoring light mode fails.
   */
  function DayNightOutput(serial: string, dayPath: string, nightPath: string, outcome: nat -> Option<string>): seq<string> {
    var f := FirstFailure(outcome, 6);
    var lines := DayNightLines(serial, dayPath, nightPath);
    if f < 6 then lines[..DayNightPrinted[f]]
    else lines + if outcome(6).Some? then ["Warning: failed to restore light mode: " + outcome(6).value] else []
  }

  /**
   * TakeDayNightScreenshots: light mode, capture and pull the day shot, dark mode, capture and
   * pull the night shot, restore light mode, remove the device copy. The first failure among
   * the six main calls ends the run with its own message; failing to restore light mode
   * (`outcome(6)`) only prints a warning and the removal's result is ignored.
   */
  method TakeDayNightScreenshots(mediaPath: string, serial: string, timestamp: string, outcome: nat -> Option<string>)
    returns (err: Option<string>, calls: seq<seq<string>>, printed: seq<string>)
    ensures var f := FirstFailure(outcome, 6);
      calls == DayNightScript(serial, PathJoin(mediaPath, DayName(timestamp)),
                              PathJoin(mediaPath, NightName(timestamp)))[..if f < 6 then f + 1 else 8]
      && (err.None? <==> f == 6)
      && (f < 6 ==> err == Some(DayNightErrors[f] + outcome(f).value))
    ensures var f := FirstFailure(outcome, 6);
      var lines := DayNightLines(serial, PathJoin(mediaPath, DayName(timestamp)), PathJoin(mediaPath, NightName(timestamp)));
      (f < 6 ==> printed == lines[..DayNightPrinted[f]])
      && (f == 6 ==> printed == lines + if outcome(6).Some? then ["Warning: failed to restore light mode: " + outcome(6).value] else [])
    ensures printed == DayNightOutput(serial, PathJoin(mediaPath, DayName(timestamp)), PathJoin(mediaPath, NightName(timestamp)), outcome)
  {
    var dayPath := PathJoin(mediaPath, DayName(timestamp));
    var nightPath := PathJoin(mediaPath, NightName(timestamp));
    ghost var script := DayNightScript(serial, dayPath, nightPath);
    ghost var lines := DayNightLines(serial, dayPath, nightPath);
    printed := ["Taking day and night screenshots of " + serial, "Setting light mode..."];
    calls := [DarkModeArgs(serial, false)];
    if outcome(0).Some? {
      assert calls == script[..1] && printed == lines[..2];
      return Some("failed to set light mode: " + outcome(0).value), calls, printed;
    }
    printed := printed + ["Taking day screenshot..."];
    calls := calls + [ScreencapArgs(serial)];
    if outcome(1).Some? {
      assert calls == script[..2] && printed == lines[..3];
      return Some("failed to take day screenshot: " + outcome(1).value), calls, printed;
    }
    calls := calls + [PullArgs(serial, dayPath)];
    if outcome(2).Some? {
      assert calls == script[..3] && printed == lines[..3];
      return Some("failed to pull day screenshot: " + outcome(2).value), calls, printed;
    }
    printed := printed + ["Day screenshot saved to: " + dayPath, "Setting dark mode..."];
    calls := calls + [DarkModeArgs(serial, true)];
    if outcome(3).Some? {
      assert calls == script[..4] && printed == lines[..5];
      return Some("failed to set dark mode: " + outcome(3).value), calls, printed;
    }
    printed := printed + ["Taking night screenshot..."];
    calls := calls + [ScreencapArgs(serial)];
    if outcome(4).Some? {
      assert calls == script[..5] && printed == lines[..6];
      return Some("failed to take night screenshot: " + outcome(4).value), calls, printed;
    }
    calls := calls + [PullArgs(serial, nightPath)];
    if outcome(5).Some? {
      assert calls == script[..6] && printed == lines[..6];
      return Some("failed to pull night screenshot: " + outcome(5).value), calls, printed;
    }
    printed := printed + ["Night screenshot saved to: " + nightPath, "Restoring light mode..."];
    assert printed == lines;
    if outcome(6).Some? {
      printed := printed + ["Warning: failed to restore light mode: " + outcome(6).value];
    }
    calls := calls + [DarkModeArgs(serial, false), RemoveArgs(serial)];
    assert calls == script[..8];
    return None, calls, printed;
  }

  /** A run reports a shot saved exactly when that shot's pull succeeded. */
  lemma {:induction false} SavedLinesTruthful(serial: string, dayPath: string, nightPath: string, outcome: nat -> Option<string>)
    ensures var out := DayNightOutput(serial, dayPath, nightPath, outcome);
      var f := FirstFailure(outcome, 6);
      ("Day screenshot saved to: " + dayPath in out <==> f > 2)
      && ("Night screenshot saved to: " + nightPath in out <==> f == 6)
  {
    var out := DayNightOutput(serial, dayPath, nightPath, outcome);
    var lines := DayNightLines(serial, dayPath, nightPath);
    var f := FirstFailure(outcome, 6);
    var day := "Day screenshot saved to: " + dayPath;
    var night := "Night screenshot saved to: " + nightPath;
    assert lines[3] == day && lines[6] == night;
    assert forall i :: 0 <= i < |lines| && i != 3 ==> lines[i][0] != 'D';
    assert forall i :: 0 <= i < |lines| && i != 6 ==> lines[i][0] != 'N';
    assert day[0] == 'D' && night[0] == 'N';
    if f < 6 {
      assert out == lines[..DayNightPrinted[f]];
      assert night !in out;
      if f > 2 {
        assert out[3] == day;
      } else {
        assert day !in out;
      }
    } else {
      var warning := if outcome(6).Some? then ["Warning: failed to restore light mode: " + outcome(6).value] else [];
      assert out == lines + warning;
      assert out[3] == day && out[6] == night;
    }
  }

  /** Whenever the night shot is attempted, the day shot was pulled first and dark mode was set. */
  lemma DayBeforeNight(serial: string, dayPath: string, nightPath: string, n: nat)
    requires 5 <= n <= 8
    ensures var calls := DayNightScript(serial, dayPath, nightPath)[..n];
      calls[2] == PullArgs(serial, dayPath) && calls[3] == DarkModeArgs(serial, true)
      && calls[4] == ScreencapArgs(serial)
  {
  }

  /** A completed day-night run ends in light mode whatever the restore call reported. */
  lemma DayNightEndsLight(serial: string, dayPath: string, nightPath: string)
    ensures var script := DayNightScript(serial, dayPath, nightPath);
      script[0] == script[6] && script[6][6] == "no" && script[3][6] == "yes"
  {
  }
}

/* internal/commands/screenrecord.go: a screen recording on the device, stopped and pulled. */
module ScreenRecord {
  import opened Wrappers
  import opened Text
  import Adb

  /** A running recording. `hasProcess` is whether the recorder process handle is set. */
  datatype ScreenRecording = ScreenRecording(serial: string, localPath: string, remotePath: string, hasProcess: bool)

  /** The output and error of an adb call whose combined output is read. */
  datatype CallResult = CallResult(output: string, err: Option<string>)

  const RemotePrefix := "/sdcard/screenrecord_"

  function RemoteRecordingPath(timestamp: string): string { RemotePrefix + timestamp + ".mp4" }
  function LocalRecordingName(timestamp: string): string { "android-vid-" + timestamp + ".mp4" }

  /** The timestamp can be read back from the remote path. */
  lemma RemotePathTimestamp(timestamp: string)
    ensures var p := RemoteRecordingPath(timestamp);
      HasPrefix(p, "/sdcard/") && HasSuffix(p, ".mp4")
      && p[|RemotePrefix|..|p| - 4] == timestamp
  {
    var p := RemoteRecordingPath(timestamp);
    assert p[..|"/sdcard/"|] == "/sdcard/";
    assert p[|p| - 4..] == ".mp4";
  }

  /** The recording a successful start returns: both paths come from the one timestamp. */
  function Started(mediaPath: string, serial: string, timestamp: string): ScreenRecording {
    ScreenRecording(serial, PathJoin(mediaPath, LocalRecordingName(timestamp)), RemoteRecordingPath(timestamp), true)
  }

  /**
   * StartScreenRecord: start `screenrecord` on the device. A start failure gives an error and
   * no recording; otherwise the recording remembers both paths, built from one timestamp.
   */
  method StartScreenRecord(mediaPath: string, serial: string, timestamp: string, startErr: Option<string>)
    returns (r: Result<ScreenRecording>, argv: seq<string>)
    ensures argv == Adb.DeviceArgs(serial, ["shell", "screenrecord", RemoteRecordingPath(timestamp)])
    ensures startErr.Some? ==> r == Err("failed to start screen recording: " + startErr.value)
    ensures startErr.None? ==> (r.Ok? && r.value.serial == serial && r.value.hasProcess
      && r.value.localPath == PathJoin(mediaPath, LocalRecordingName(timestamp))
      && r.value.remotePath == RemoteRecordingPath(timestamp))
    ensures startErr.None? ==> r == Ok(Started(mediaPath, serial, timestamp))
  {
    var localPath := PathJoin(mediaPath, LocalRecordingName(timestamp));
    var remotePath := RemoteRecordingPath(timestamp);
    argv := Adb.DeviceArgs(serial, ["shell", "screenrecord", remotePath]);
    if startErr.Some? {
      return Err("failed to start screen recording: " + startErr.value), argv;
    }
    r := Ok(ScreenRecording(serial, localPath, remotePath, true));
  }

  /** filepath.Dir without path cleaning: the text before the last '/', "/" for the root, "." without one. */
  function Dir(p: string): (d: string)
    ensures '/' !in p ==> d == "."
  {
    if p == [] then "."
    else if p[|p| - 1] == '/' then (if |p| == 1 then "/" else p[..|p| - 1])
    else Dir(p[..|p| - 1])
  }

  /** The directory of a joined path is the directory it was joined to. */
  lemma {:induction false} DirOfJoin(dir: string, name: string)
    requires dir != "" && '/' !in name
    ensures Dir(PathJoin(dir, name)) == dir
    decreases |name|
  {
    if name == [] {
      assert PathJoin(dir, name)[..|PathJoin(dir, name)| - 1] == dir;
    } else {
      var shorter := name[..|name| - 1];
      assert PathJoin(dir, name)[..|PathJoin(dir, name)| - 1] == PathJoin(dir, shorter);
      assert name[|name| - 1] in name;
      DirOfJoin(dir, shorter);
    }
  }

  function ListArgs(rec: ScreenRecording): seq<string> {
    Adb.DeviceArgs(rec.serial, ["shell", "ls", "-la", rec.remotePath])
  }
  function PullArgs(rec: ScreenRecording): seq<string> {
    Adb.DeviceArgs(rec.serial, ["pull", rec.remotePath, rec.localPath])
  }
  /** The fallback pull names no device. */
  function FallbackPullArgs(rec: ScreenRecording): seq<string> {
    ["pull", rec.remotePath, rec.localPath]
  }
  function RemoveArgs(rec: ScreenRecording): seq<string> {
    Adb.DeviceArgs(rec.serial, ["shell", "rm", rec.remotePath])
  }

  /** The message when both pulls fail; it names both errors and both outputs. */
  function BothPullsFailed(first: CallResult, second: CallResult): string
    requires first.err.Some? && second.err.Some?
  {
    "both pull attempts failed. First: " + first.err.value + " (output: " + Quote(first.output)
      + "), Second: " + second.err.value + " (output: " + Quote(second.output) + ")"
  }

  /** The file was pulled by one of the two attempts. */
  predicate Pulled(pull: CallResult, fallback: CallResult) {
    pull.err.None? || fallback.err.None?
  }

  /** The two lines printed for a failed pull attempt: its error and its quoted output. */
  function PullAttemptFailed(attempt: string, c: CallResult): seq<string>
    requires c.err.Some?
  {
    ["Pull attempt " + attempt + " failed. Error: " + c.err.value, "Pull attempt " + attempt + " output: " + Quote(c.output)]
  }

  /**
   * What StopAndSave prints once the local directory exists: the pull command line, the
   * failed attempts, and where the recording went when one attempt succeeded.
   */
  function PullReport(adbPath: string, rec: ScreenRecording, pull: CallResult, fallback: CallResult): seq<string> {
    ["Attempting pull command: " + adbPath + " -s " + rec.serial + " pull " + rec.remotePath + " " + rec.localPath]
    + (if pull.err.Some? then PullAttemptFailed("1", pull) else [])
    + (if pull.err.Some? && fallback.err.Some? then PullAttemptFailed("2", fallback) else [])
    + (if Pulled(pull, fallback) then ["Screen recording saved to: " + rec.localPath] else [])
  }

  /** Everything StopAndSave prints, whatever step it stops at. */
  function StopReport(rec: ScreenRecording, adbPath: string, signalErr: Option<string>, check: CallResult,
                      mkdirErr: Option<string>, pull: CallResult, fallback: CallResult): seq<string> {
    if (rec.hasProcess && signalErr.Some?) || check.err.Some? then []
    else ["File on device: " + check.output] + (if mkdirErr.Some? then [] else PullReport(adbPath, rec, pull, fallback))
  }

  /**
   * StopAndSave: interrupt the recorder, check the file on the device, make the local
   * directory, pull (with a fallback pull without -s), then remove the device copy ignoring
   * the result. `adbPath` is the adb binary, printed with the pull command.
   */
  method StopAndSave(rec: ScreenRecording, adbPath: string, signalErr: Option<string>, check: CallResult,
                     mkdirErr: Option<string>, pull: CallResult, fallback: CallResult)
    returns (err: Option<string>, calls: seq<seq<string>>, printed: seq<string>)
    ensures rec.hasProcess && signalErr.Some? ==>
      err == Some("failed to stop recording: " + signalErr.value) && calls == [] && printed == []
    ensures err.None? <==>
      (!rec.hasProcess || signalErr.None?) && check.err.None? && mkdirErr.None? && Pulled(pull, fallback)
    ensures (!rec.hasProcess || signalErr.None?) && check.err.Some? ==>
      err == Some("recording file not found on device: " + check.output) && calls == [ListArgs(rec)] && printed == []
    ensures (!rec.hasProcess || signalErr.None?) && check.err.None? && mkdirErr.Some? ==>
      err == Some("failed to create local directory " + Dir(rec.localPath) + ": " + mkdirErr.value)
      && calls == [ListArgs(rec)] && printed == ["File on device: " + check.output]
    ensures (!rec.hasProcess || signalErr.None?) && check.err.None? && mkdirErr.None? ==>
      calls == [ListArgs(rec), PullArgs(rec)]
               + (if pull.err.Some? then [FallbackPullArgs(rec)] else [])
               + (if Pulled(pull, fallback) then [RemoveArgs(rec)] else [])
      && (!Pulled(pull, fallback) ==> err == Some(BothPullsFailed(pull, fallback)))
      && printed == ["File on device: " + check.output] + PullReport(adbPath, rec, pull, fallback)
    ensures printed == StopReport(rec, adbPath, signalErr, check, mkdirErr, pull, fallback)
  {
    calls := [];
    printed := [];
    if rec.hasProcess {
      if signalErr.Some? {
        return Some("failed to stop recording: " + signalErr.value), calls, printed;
      }
    }
    calls := calls + [ListArgs(rec)];
    if check.err.Some? {
      return Some("recording file not found on device: " + check.output), calls, printed;
    }
    var fileLine := ["File on device: " + check.output];
    if mkdirErr.Some? {
      return Some("failed to create local directory " + Dir(rec.localPath) + ": " + mkdirErr.value), calls, fileLine;
    }
    printed := fileLine + PullReport(adbPath, rec, pull, fallback);
    calls := calls + [PullArgs(rec)];
    if pull.err.Some? {
      calls := calls + [FallbackPullArgs(rec)];
      if fallback.err.Some? {
        return Some(BothPullsFailed(pull, fallback)), calls, printed;
      }
    }
    calls := calls + [RemoveArgs(rec)];
    return None, calls, printed;
  }

  /** The recording is reported saved exactly when one of the two pulls succeeded, and then last. */
  lemma {:induction false} SavedReportedLast(adbPath: string, rec: ScreenRecording, pull: CallResult, fallback: CallResult)
    ensures var report := PullReport(adbPath, rec, pull, fallback);
      Pulled(pull, fallback) <==> report[|report| - 1] == "Screen recording saved to: " + rec.localPath
  {
    var report := PullReport(adbPath, rec, pull, fallback);
    if !Pulled(pull, fallback) {
      assert report[|report| - 1][0] == 'P';
    }
  }

  /** A recording started by StartScreenRecord creates its local directory under the media path. */
  lemma RecordingDirectory(mediaPath: string, serial: string, timestamp: string)
    requires mediaPath != ""
    ensures Dir(PathJoin(mediaPath, LocalRecordingName(timestamp))) == mediaPath || '/' in timestamp
  {
    if '/' !in timestamp {
      var name := LocalRecordingName(timestamp);
      assert forall k :: 0 <= k < |name| ==> name[k] != '/' by {
        forall k | 0 <= k < |name| ensures name[k] != '/' {
          if 12 <= k < 12 + |timestamp| {
            assert name[k] == timestamp[k - 12];
          }
        }
      }
      DirOfJoin(mediaPath, name);
    }
  }
}
