/*
 * internal/tui/messaging: the messages the UI's background commands send back, and the
 * commands that compute them from the outcome of the underlying operation.
 */
module Messaging {
  import opened Wrappers
  import opened Text
  import Adb
  import Emulator
  import Setting
  import ScreenRecord

  /** The common shape of the "done" messages: ScreenshotDoneMsg, WiFiConnectDoneMsg, ... */
  datatype OperationResult = OperationResult(success: bool, message: string, capturedOutput: seq<string>)

  datatype DevicesLoadedMsg = DevicesLoadedMsg(devices: seq<Adb.Device>, err: Option<string>)
  datatype AvdsLoadedMsg = AvdsLoadedMsg(avds: seq<Emulator.AVD>, err: Option<string>)
  datatype SettingLoadedMsg = SettingLoadedMsg(settingInfo: Option<Setting.SettingInfo>, err: Option<string>)
  datatype SettingChangedMsg = SettingChangedMsg(settingType: string, success: bool, message: string)
  datatype RecordingStartedMsg = RecordingStartedMsg(recording: Option<ScreenRecord.ScreenRecording>, err: Option<string>)

  /** A Go (value, error) pair: a value and no error, or the zero value and an error. */
  function Pair<T>(r: Result<T>): (p: (Option<T>, Option<string>))
    ensures p.0.Some? <==> r.Ok?
    ensures p.1.Some? <==> r.Err?
    ensures r.Ok? ==> p.0.value == r.value
    ensures r.Err? ==> p.1.value == r.error
  {
    if r.Ok? then (Some(r.value), None) else (None, Some(r.error))
  }

  /** LoadDevicesCmd: the devices and the error of GetConnectedDevices, unchanged. */
  function LoadDevicesCmd(devices: Result<seq<Adb.Device>>): (msg: DevicesLoadedMsg)
    ensures devices.Ok? ==> msg == DevicesLoadedMsg(devices.value, None)
    ensures devices.Err? ==> msg == DevicesLoadedMsg([], Some(devices.error))
  {
    DevicesLoadedMsg(if devices.Ok? then devices.value else [], Pair(devices).1)
  }

  /** LoadAvdsCmd: the AVDs and the error of GetAvailableAVDs, unchanged. */
  function LoadAvdsCmd(avds: Result<seq<Emulator.AVD>>): (msg: AvdsLoadedMsg)
    ensures avds.Ok? ==> msg == AvdsLoadedMsg(avds.value, None)
    ensures avds.Err? ==> msg == AvdsLoadedMsg([], Some(avds.error))
  {
    AvdsLoadedMsg(if avds.Ok? then avds.value else [], Pair(avds).1)
  }

  /** LoadSettingCmd: the handler of a known setting type reads its current value. */
  function LoadSettingCmd(settingType: string, output: Result<string>, fontScale: Result<(string, string)>): (msg: SettingLoadedMsg)
    requires Setting.GetSettingHandler(settingType).Some?
    ensures msg.settingInfo.Some? <==> msg.err.None?
    ensures msg.settingInfo.Some? ==> msg.settingInfo.value.settingType == settingType
  {
    var p := Pair(Setting.GetInfo(Setting.GetSettingHandler(settingType).value, output, fontScale));
    SettingLoadedMsg(p.0, p.1)
  }

  /** StartScreenRecordCmd: the recording or the start error, unchanged. */
  method StartScreenRecordCmd(mediaPath: string, serial: string, timestamp: string, startErr: Option<string>)
    returns (msg: RecordingStartedMsg)
    ensures msg.recording.Some? <==> startErr.None?
    ensures msg.err.Some? <==> startErr.Some?
  {
    var r, _ := ScreenRecord.StartScreenRecord(mediaPath, serial, timestamp, startErr);
    var p := Pair(r);
    msg := RecordingStartedMsg(p.0, p.1);
  }

  /**
   * ChangeSettingCmd: validate, then set. A rejected value is reported with the validation
   * message and nothing is run; otherwise success is exactly SetValue's success. The result
   * always names the requested setting type. (A type without a handler is dereferenced as
   * nil in the source, so callers pass a known type.)
   */
  method ChangeSettingCmd(settingType: string, serial: string, value: string, floatParses: bool,
                          scaleStr: string, runErr: Option<string>)
    returns (msg: SettingChangedMsg, calls: seq<seq<string>>)
    requires Setting.GetSettingHandler(settingType).Some?
    ensures msg.settingType == settingType
    ensures var invalid := Setting.ValidateInput(Setting.GetSettingHandler(settingType).value, value, floatParses);
      invalid.Some? ==> !msg.success && msg.message == invalid.value && calls == []
    ensures var invalid := Setting.ValidateInput(Setting.GetSettingHandler(settingType).value, value, floatParses);
      invalid.None? ==> (msg.success <==> runErr.None?) && |calls| == 1
    ensures msg.success ==> msg.message == settingType + " changed to " + value + " on " + serial
    ensures var invalid := Setting.ValidateInput(Setting.GetSettingHandler(settingType).value, value, floatParses);
      invalid.None? && !msg.success ==> HasPrefix(msg.message, "Failed to change " + settingType + ": ")
  {
    var handler := Setting.GetSettingHandler(settingType).value;
    var invalid := Setting.ValidateInput(handler, value, floatParses);
    if invalid.Some? {
      return SettingChangedMsg(settingType, false, invalid.value), [];
    }
    var err, setCalls, _ := Setting.SetValue(handler, serial, value, floatParses, scaleStr, runErr);
    calls := setCalls;
    if err.None? {
      msg := SettingChangedMsg(settingType, true, settingType + " changed to " + value + " on " + serial);
    } else {
      var prefix := "Failed to change " + settingType + ": ";
      msg := SettingChangedMsg(settingType, false, prefix + err.value);
      assert (prefix + err.value)[..|prefix|] == prefix;
    }
  }
}

/* internal/tui/features/media: screenshot and recording state, handlers and background commands. */
module Media {
  import opened Wrappers
  import opened Text
  import opened Sequencing
  import Channels
  import Core
  import Screenshot
  import ScreenRecord
  import opened Messaging

  /** Which screenshot operation executeScreenshotOperation runs. */
  datatype ScreenshotOperation = ScreenshotSingle | ScreenshotDayNight

  /** The media operations in progress and the running recording, if any. */
  class MediaFeature {
    var takingScreenshot: bool
    var takingDayNight: bool
    var recordingScreen: bool
    var activeRecording: Option<ScreenRecord.ScreenRecording>

    /** NewMediaFeature: nothing in progress. */
    constructor ()
      ensures !takingScreenshot && !takingDayNight && !recordingScreen && activeRecording.None?
    {
      takingScreenshot, takingDayNight, recordingScreen := false, false, false;
      activeRecording := None;
    }

    /** Some media operation is in progress. */
    predicate IsActive()
      reads this
    {
      takingScreenshot || takingDayNight || recordingScreen
    }

    method StartScreenshot()
      modifies this
      ensures takingScreenshot
      ensures takingDayNight == old(takingDayNight) && recordingScreen == old(recordingScreen)
      ensures activeRecording == old(activeRecording)
    {
      takingScreenshot := true;
    }

    method StartDayNightScreenshot()
      modifies this
      ensures takingDayNight
      ensures takingScreenshot == old(takingScreenshot) && recordingScreen == old(recordingScreen)
      ensures activeRecording == old(activeRecording)
    {
      takingDayNight := true;
    }

    method StartRecording()
      modifies this
      ensures recordingScreen
      ensures takingScreenshot == old(takingScreenshot) && takingDayNight == old(takingDayNight)
      ensures activeRecording == old(activeRecording)
    {
      recordingScreen := true;
    }

    method FinishScreenshot()
      modifies this
      ensures !takingScreenshot
      ensures takingDayNight == old(takingDayNight) && recordingScreen == old(recordingScreen)
      ensures activeRecording == old(activeRecording)
    {
      takingScreenshot := false;
    }

    method FinishDayNightScreenshot()
      modifies this
      ensures !takingDayNight
      ensures takingScreenshot == old(takingScreenshot) && recordingScreen == old(recordingScreen)
      ensures activeRecording == old(activeRecording)
    {
      takingDayNight := false;
    }

    /** FinishRecording also forgets the recording. */
    method FinishRecording()
      modifies this
      ensures !recordingScreen && activeRecording.None?
      ensures takingScreenshot == old(takingScreenshot) && takingDayNight == old(takingDayNight)
    {
      recordingScreen := false;
      activeRecording := None;
    }

    method SetActiveRecording(recording: Option<ScreenRecord.ScreenRecording>)
      modifies this
      ensures activeRecording == recording
      ensures takingScreenshot == old(takingScreenshot) && takingDayNight == old(takingDayNight)
      ensures recordingScreen == old(recordingScreen)
    {
      activeRecording := recording;
    }

    /** HandleScreenshotDone: the screenshot flag is cleared whatever the outcome. */
    method HandleScreenshotDone(msg: OperationResult) returns (successText: string, errorText: string)
      modifies this
      ensures !takingScreenshot
      ensures takingDayNight == old(takingDayNight) && recordingScreen == old(recordingScreen)
      ensures activeRecording == old(activeRecording)
      ensures msg.success ==> successText == msg.message && errorText == ""
      ensures !msg.success ==> successText == "" && errorText == "Screenshot failed: " + msg.message
    {
      FinishScreenshot();
      if msg.success {
        return msg.message, "";
      }
      return "", "Screenshot failed: " + msg.message;
    }

    /** HandleDayNightScreenshotDone: the day-night flag is cleared whatever the outcome. */
    method HandleDayNightScreenshotDone(msg: OperationResult) returns (successText: string, errorText: string)
      modifies this
      ensures !takingDayNight
      ensures takingScreenshot == old(takingScreenshot) && recordingScreen == old(recordingScreen)
      ensures activeRecording == old(activeRecording)
      ensures msg.success ==> successText == msg.message && errorText == ""
      ensures !msg.success ==> successText == "" && errorText == "Day-night screenshots failed: " + msg.message
    {
      FinishDayNightScreenshot();
      if msg.success {
        return msg.message, "";
      }
      return "", "Day-night screenshots failed: " + msg.message;
    }

    /** HandleRecordingStarted: a start error stops the recording state; otherwise the recording is kept. */
    method HandleRecordingStarted(msg: RecordingStartedMsg) returns (successText: string, errorText: string)
      modifies this
      ensures successText == ""
      ensures msg.err.Some? ==> (!recordingScreen && activeRecording == old(activeRecording)
        && errorText == "Failed to start recording: " + msg.err.value)
      ensures msg.err.None? ==> (activeRecording == msg.recording && recordingScreen == old(recordingScreen)
        && errorText == "")
      ensures takingScreenshot == old(takingScreenshot) && takingDayNight == old(takingDayNight)
    {
      if msg.err.Some? {
        recordingScreen := false;
        return "", "Failed to start recording: " + msg.err.value;
      }
      activeRecording := msg.recording;
      return "", "";
    }

    /** HandleScreenRecordDone: the recording is finished before the outcome is reported. */
    method HandleScreenRecordDone(msg: OperationResult) returns (successText: string, errorText: string)
      modifies this
      ensures !recordingScreen && activeRecording.None?
      ensures takingScreenshot == old(takingScreenshot) && takingDayNight == old(takingDayNight)
      ensures msg.success ==> successText == msg.message && errorText == ""
      ensures !msg.success ==> successText == "" && errorText == "Screen recording failed: " + msg.message
    {
      FinishRecording();
      if msg.success {
        return msg.message, "";
      }
      return "", "Screen recording failed: " + msg.message;
    }

    /** GetStatusText: the first operation in progress, in the order screenshot, day-night, recording. */
    function GetStatusText(): (r: string)
      reads this
      ensures r == "" <==> !IsActive()
      ensures takingScreenshot ==> r == "Taking screenshot..."
      ensures !takingScreenshot && takingDayNight ==> r == "Taking day-night screenshots..."
      ensures !takingScreenshot && !takingDayNight && recordingScreen ==> r == "Recording screen... (Press 'r' to stop)"
    {
      if takingScreenshot then "Taking screenshot..."
      else if takingDayNight then "Taking day-night screenshots..."
      else if recordingScreen then "Recording screen... (Press 'r' to stop)"
      else ""
    }
  }

  /**
   * executeScreenshotOperation for a single screenshot. The screenshot command stamps its
   * file with `shotTimestamp`; the message names the file stamped with the operation's own
   * `timestamp`, read from the clock separately. `captured` is the output the capture
   * collected while the command ran.
   */
  method ExecuteScreenshotSingle(mediaPath: string, serial: string, home: Result<string>, timestamp: string,
                                 shotTimestamp: string, outcome: nat -> Option<string>, captured: seq<string>)
    returns (msg: OperationResult, calls: seq<seq<string>>)
    ensures msg.capturedOutput == captured
    ensures msg.success <==> FirstFailure(outcome, 2) == 2
    ensures !msg.success ==> (msg.message ==
      "Screenshot failed on " + serial + ": " + Screenshot.ScreenshotErrors[FirstFailure(outcome, 2)]
        + outcome(FirstFailure(outcome, 2)).value)
    ensures msg.success ==> (msg.message == "Screenshot captured on " + serial + "\n"
      + Core.ShortenHomePath(PathJoin(mediaPath, Screenshot.ScreenshotName(timestamp)), home))
    ensures msg.success && shotTimestamp == timestamp ==>
      |calls| == 3 && calls[1] == Screenshot.PullArgs(serial, PathJoin(mediaPath, Screenshot.ScreenshotName(timestamp)))
  {
    var err, shotCalls, _ := Screenshot.TakeScreenshot(mediaPath, serial, shotTimestamp, outcome);
    calls := shotCalls;
    if err.Some? {
      return OperationResult(false, "Screenshot failed on " + serial + ": " + err.value, captured), calls;
    }
    var localPath := PathJoin(mediaPath, Screenshot.ScreenshotName(timestamp));
    msg := OperationResult(true, "Screenshot captured on " + serial + "\n" + Core.ShortenHomePath(localPath, home), captured);
  }

  /** StopAndSaveRecordingCmd: exactly one ScreenRecordDoneMsg, successful exactly when StopAndSave is. */
  method StopAndSaveRecordingCmd(rec: ScreenRecord.ScreenRecording, adbPath: string, home: Result<string>, signalErr: Option<string>,
                                 check: ScreenRecord.CallResult, mkdirErr: Option<string>,
                                 pull: ScreenRecord.CallResult, fallback: ScreenRecord.CallResult, captured: seq<string>)
    returns (msg: OperationResult, calls: seq<seq<string>>)
    ensures msg.capturedOutput == captured
    ensures msg.success <==> ((!rec.hasProcess || signalErr.None?) && check.err.None? && mkdirErr.None?
      && ScreenRecord.Pulled(pull, fallback))
    ensures rec.hasProcess && signalErr.Some? ==> msg.message == "failed to stop recording: " + signalErr.value
    ensures msg.success ==> (msg.message == "Screen recording saved on " + rec.serial + "\n"
      + Core.ShortenHomePath(rec.localPath, home))
  {
    var err, stopCalls, _ := ScreenRecord.StopAndSave(rec, adbPath, signalErr, check, mkdirErr, pull, fallback);
    calls := stopCalls;
    if err.Some? {
      return OperationResult(false, err.value, captured), calls;
    }
    msg := OperationResult(true, "Screen recording saved on " + rec.serial + "\n" + Core.ShortenHomePath(rec.localPath, home), captured);
  }

  /** How many progress messages precede the outcome of each of the four main steps. */
  const StepStart: seq<nat> := [2, 3, 5, 6]

  /** The progress message for a failure of each main step. */
  const StepErrors: seq<string> := [
    "Error setting light mode: ", "Error taking day screenshot: ",
    "Error setting dark mode: ", "Error taking night screenshot: "]

  const RestoreWarning := "Warning: failed to restore light mode: "

  /**
   * The progress messages of a day-night run: the messages up to the first failing main step
   * and its error, or all of them and a warning when only the restore failed.
   */
  function DayNightProgress(mediaPath: string, serial: string, timestamp: string, outcome: nat -> Option<string>): seq<string> {
    var f := FirstFailure(outcome, 4);
    var full := Screenshot.DayNightLines(serial, PathJoin(mediaPath, Screenshot.DayName(timestamp)),
                             PathJoin(mediaPath, Screenshot.NightName(timestamp)));
    if f < 4 then full[..StepStart[f]] + [StepErrors[f] + outcome(f).value]
    else full + (if outcome(4).Some? then [RestoreWarning + outcome(4).value] else [])
  }

  /** The run's error: the first failing main step's error, unwrapped. */
  function DayNightError(outcome: nat -> Option<string>): (err: Option<string>)
    ensures err.None? <==> FirstFailure(outcome, 4) == 4
  {
    var f := FirstFailure(outcome, 4);
    if f < 4 then outcome(f) else None
  }

  /** A run reports at most nine messages, begins by naming the device, and ends with the failure when one stops it. */
  lemma DayNightProgressShape(mediaPath: string, serial: string, timestamp: string, outcome: nat -> Option<string>)
    ensures var p := DayNightProgress(mediaPath, serial, timestamp, outcome);
      2 < |p| <= 9 && p[0] == "Taking day and night screenshots of " + serial
      && (DayNightError(outcome).Some? ==> HasSuffix(p[|p| - 1], DayNightError(outcome).value))
  {
    var f := FirstFailure(outcome, 4);
    var p := DayNightProgress(mediaPath, serial, timestamp, outcome);
    if f < 4 {
      var last := StepErrors[f] + outcome(f).value;
      assert p[|p| - 1] == last;
      assert last[|last| - |outcome(f).value|..] == outcome(f).value;
    }
  }

  /**
   * executeDayNightWithProgress. The steps are light mode (0), day shot (1), dark mode (2),
   * night shot (3) and restoring light mode (4), `outcome(i)` being the error of step i; the
   * removal of the device copy is ignored. The first failing main step is reported and
   * returned unwrapped; a failed restore is only a warning.
   */
  method ExecuteDayNightWithProgress(mediaPath: string, serial: string, timestamp: string, outcome: nat -> Option<string>)
    returns (err: Option<string>, progress: seq<string>)
    ensures err == DayNightError(outcome)
    ensures progress == DayNightProgress(mediaPath, serial, timestamp, outcome)
  {
    var dayPath := PathJoin(mediaPath, Screenshot.DayName(timestamp));
    var nightPath := PathJoin(mediaPath, Screenshot.NightName(timestamp));
    ghost var full := Screenshot.DayNightLines(serial, dayPath, nightPath);
    progress := ["Taking day and night screenshots of " + serial, "Setting light mode..."];
    if outcome(0).Some? {
      assert progress == full[..2];
      return outcome(0), progress + ["Error setting light mode: " + outcome(0).value];
    }
    progress := progress + ["Taking day screenshot..."];
    if outcome(1).Some? {
      assert progress == full[..3];
      return outcome(1), progress + ["Error taking day screenshot: " + outcome(1).value];
    }
    progress := progress + ["Day screenshot saved to: " + dayPath, "Setting dark mode..."];
    if outcome(2).Some? {
      assert progress == full[..5];
      return outcome(2), progress + ["Error setting dark mode: " + outcome(2).value];
    }
    progress := progress + ["Taking night screenshot..."];
    if outcome(3).Some? {
      assert progress == full[..6];
      return outcome(3), progress + ["Error taking night screenshot: " + outcome(3).value];
    }
    progress := progress + ["Night screenshot saved to: " + nightPath, "Restoring light mode..."];
    assert progress == full;
    if outcome(4).Some? {
      progress := progress + [RestoreWarning + outcome(4).value];
    }
    err := None;
  }

  /** The capacity of the day-night progress queue. */
  const ProgressCapacity: nat := 100

  /**
   * createStreamingDayNightCommand: the run's progress goes through sendProgress, which drops a
   * message when the queue is full, followed by "Command failed: <err>" when the run fails.
   * The result is what the queue holds when the run ends, with no reader draining it.
   */
  method CreateStreamingDayNightCommand(mediaPath: string, serial: string, timestamp: string, outcome: nat -> Option<string>)
    returns (queued: seq<string>)
    ensures var err := DayNightError(outcome);
      queued == DayNightProgress(mediaPath, serial, timestamp, outcome)
                + (if err.Some? then ["Command failed: " + err.value] else [])
  {
    var err, progress := ExecuteDayNightWithProgress(mediaPath, serial, timestamp, outcome);
    var sent := progress + (if err.Some? then ["Command failed: " + err.value] else []);
    DayNightProgressShape(mediaPath, serial, timestamp, outcome);
    queued := SendProgress(sent);
    Channels.OfferAllFits([], sent, ProgressCapacity);
  }

  /** sendProgress for each message in turn, starting from an empty queue. */
  method SendProgress(sent: seq<string>) returns (queued: seq<string>)
    ensures queued == Channels.OfferAll([], sent, ProgressCapacity)
  {
    queued := [];
    var i := 0;
    while i < |sent|
      invariant 0 <= i <= |sent|
      invariant queued == Channels.OfferAll([], sent[..i], ProgressCapacity)
    {
      Channels.OfferAllSnoc([], sent[..i], sent[i], ProgressCapacity);
      assert sent[..i + 1] == sent[..i] + [sent[i]];
      queued := Channels.Offer(queued, sent[i], ProgressCapacity);
      i := i + 1;
    }
    assert sent[..i] == sent;
  }
}

/* internal/tui/features/wifi: the outcome messages of the Wi-Fi operations and their handlers. */
module WiFiTui {
  import opened Wrappers
  import opened Messaging

  datatype WiFiOperation = WiFiConnect | WiFiDisconnect | WiFiPair

  /** The three done messages: WiFiConnectDoneMsg, WiFiDisconnectDoneMsg, WiFiPairDoneMsg. */
  datatype WiFiDoneMsg =
    | ConnectDone(result: OperationResult)
    | DisconnectDone(result: OperationResult)
    | PairDone(result: OperationResult)

  function SuccessText(op: WiFiOperation, ipAndPort: string): string {
    match op
    case WiFiConnect => "WiFi device connected: " + ipAndPort
    case WiFiDisconnect => "WiFi device disconnected: " + ipAndPort
    case WiFiPair => "WiFi device paired and connected: " + ipAndPort
  }

  /** The operation a done message reports on. */
  function OperationOf(msg: WiFiDoneMsg): WiFiOperation {
    match msg
    case ConnectDone(_) => WiFiConnect
    case DisconnectDone(_) => WiFiDisconnect
    case PairDone(_) => WiFiPair
  }

  /**
   * executeWiFiOperation: `err` is the error of the command the operation selects (ConnectWiFi,
   * DisconnectWiFi or PairWiFiDevice). Exactly one message of the operation's own kind.
   */
  function ExecuteWiFiOperation(op: WiFiOperation, ipAndPort: string, err: Option<string>): (msg: WiFiDoneMsg)
    ensures OperationOf(msg) == op
    ensures msg.result.success <==> err.None?
    ensures err.Some? ==> msg.result.message == err.value
    ensures err.None? ==> msg.result.message == SuccessText(op, ipAndPort)
    ensures msg.result.capturedOutput == []
  {
    var result := if err.Some? then OperationResult(false, err.value, []) else OperationResult(true, SuccessText(op, ipAndPort), []);
    match op
    case WiFiConnect => ConnectDone(result)
    case WiFiDisconnect => DisconnectDone(result)
    case WiFiPair => PairDone(result)
  }

  function FailurePrefix(op: WiFiOperation): string {
    match op
    case WiFiConnect => "WiFi connect failed: "
    case WiFiDisconnect => "WiFi disconnect failed: "
    case WiFiPair => "WiFi pair failed: "
  }

  /**
   * HandleWiFiConnectDone / HandleWiFiDisconnectDone / HandleWiFiPairDone: the message as
   * success text, or the prefixed message as error text. The feature has no state to change.
   */
  function HandleWiFiDone(msg: WiFiDoneMsg): (texts: (string, string))
    ensures msg.result.success ==> texts == (msg.result.message, "")
    ensures !msg.result.success ==> texts == ("", FailurePrefix(OperationOf(msg)) + msg.result.message)
  {
    if msg.result.success then (msg.result.message, "")
    else ("", FailurePrefix(OperationOf(msg)) + msg.result.message)
  }

  /** End to end: the UI shows the success text, or the operation's prefix before the command's error. */
  lemma WiFiOutcomeShown(op: WiFiOperation, ipAndPort: string, err: Option<string>)
    ensures var texts := HandleWiFiDone(ExecuteWiFiOperation(op, ipAndPort, err));
      (err.None? ==> texts == (SuccessText(op, ipAndPort), ""))
      && (err.Some? ==> texts == ("", FailurePrefix(op) + err.value))
  {
  }
}

/* internal/tui/features/devices: the device and AVD lists and their selections. */
module DevicesTui {
  import opened Wrappers
  import Adb
  import Emulator
  import opened Messaging

  class DevicesFeature {
    var devices: seq<Adb.Device>
    var avds: seq<Emulator.AVD>
    var selectedDevice: int
    var selectedEmulator: int

    /** Each selection is 0 or a position in its list. */
    predicate Valid()
      reads this
    {
      (selectedDevice == 0 || 0 <= selectedDevice < |devices|)
      && (selectedEmulator == 0 || 0 <= selectedEmulator < |avds|)
    }

    /** NewDevicesFeature: empty lists, both selections 0. */
    constructor ()
      ensures Valid()
      ensures devices == [] && avds == [] && selectedDevice == 0 && selectedEmulator == 0
    {
      devices, avds := [], [];
      selectedDevice, selectedEmulator := 0, 0;
    }

    /** SetSelectedDevice: only an index inside the list is taken. */
    method SetSelectedDevice(index: int)
      requires Valid()
      modifies this
      ensures Valid()
      ensures 0 <= index < |devices| ==> selectedDevice == index
      ensures !(0 <= index < |devices|) ==> selectedDevice == old(selectedDevice)
      ensures devices == old(devices) && avds == old(avds) && selectedEmulator == old(selectedEmulator)
    {
      if index >= 0 && index < |devices| {
        selectedDevice := index;
      }
    }

    /** SetSelectedEmulator: only an index inside the list is taken. */
    method SetSelectedEmulator(index: int)
      requires Valid()
      modifies this
      ensures Valid()
      ensures 0 <= index < |avds| ==> selectedEmulator == index
      ensures !(0 <= index < |avds|) ==> selectedEmulator == old(selectedEmulator)
      ensures devices == old(devices) && avds == old(avds) && selectedDevice == old(selectedDevice)
    {
      if index >= 0 && index < |avds| {
        selectedEmulator := index;
      }
    }

    /** GetSelectedDeviceInstance: none exactly when the selection is not below the list length. */
    function GetSelectedDeviceInstance(): (d: Option<Adb.Device>)
      requires Valid()
      reads this
      ensures d.None? <==> selectedDevice >= |devices|
      ensures d.Some? ==> d.value == devices[selectedDevice]
    {
      if selectedDevice < |devices| then Some(devices[selectedDevice]) else None
    }

    /** GetSelectedEmulatorInstance: none exactly when the selection is not below the list length. */
    function GetSelectedEmulatorInstance(): (a: Option<Emulator.AVD>)
      requires Valid()
      reads this
      ensures a.None? <==> selectedEmulator >= |avds|
      ensures a.Some? ==> a.value == avds[selectedEmulator]
    {
      if selectedEmulator < |avds| then Some(avds[selectedEmulator]) else None
    }

    /** SetDevices: the list is replaced; a selection past its end goes back to 0. */
    method SetDevices(newDevices: seq<Adb.Device>)
      requires Valid()
      modifies this
      ensures Valid()
      ensures devices == newDevices
      ensures selectedDevice == if old(selectedDevice) >= |newDevices| then 0 else old(selectedDevice)
      ensures avds == old(avds) && selectedEmulator == old(selectedEmulator)
    {
      devices := newDevices;
      if selectedDevice >= |newDevices| {
        selectedDevice := 0;
      }
    }

    /** SetAvds: the list is replaced; a selection past its end goes back to 0. */
    method SetAvds(newAvds: seq<Emulator.AVD>)
      requires Valid()
      modifies this
      ensures Valid()
      ensures avds == newAvds
      ensures selectedEmulator == if old(selectedEmulator) >= |newAvds| then 0 else old(selectedEmulator)
      ensures devices == old(devices) && selectedDevice == old(selectedDevice)
    {
      avds := newAvds;
      if selectedEmulator >= |newAvds| {
        selectedEmulator := 0;
      }
    }

    /** HandleDevicesLoaded: the list is always replaced, even when the load failed. */
    method HandleDevicesLoaded(msg: DevicesLoadedMsg) returns (errorText: string)
      requires Valid()
      modifies this
      ensures Valid()
      ensures devices == msg.devices
      ensures msg.err.Some? ==> errorText == msg.err.value
      ensures msg.err.None? && msg.devices == [] ==> errorText == "no devices connected"
      ensures msg.err.None? && msg.devices != [] ==> errorText == ""
      ensures avds == old(avds) && selectedEmulator == old(selectedEmulator)
    {
      SetDevices(msg.devices);
      if msg.err.Some? {
        return msg.err.value;
      }
      if |msg.devices| == 0 {
        return "no devices connected";
      }
      return "";
    }

    /** HandleAvdsLoaded: the list is always replaced; only a load error is reported. */
    method HandleAvdsLoaded(msg: AvdsLoadedMsg) returns (errorText: string)
      requires Valid()
      modifies this
      ensures Valid()
      ensures avds == msg.avds
      ensures msg.err.Some? ==> errorText == msg.err.value
      ensures msg.err.None? ==> errorText == ""
      ensures devices == old(devices) && selectedDevice == old(selectedDevice)
    {
      SetAvds(msg.avds);
      if msg.err.Some? {
        return msg.err.value;
      }
      return "";
    }

    /**
     * LaunchSelectedEmulator: nothing is launched without a selected AVD. `startErr` is the
     * start error of the emulator process; a successful launch asks for a device reload.
     */
    method LaunchSelectedEmulator(emulatorPath: string, startErr: Option<string>)
      returns (successText: string, errorText: string, reloadDevices: bool, argv: seq<string>)
      requires Valid()
      ensures selectedEmulator >= |avds| ==>
        errorText == "no emulator selected" && successText == "" && !reloadDevices && argv == []
      ensures selectedEmulator < |avds| ==> argv == Emulator.LaunchArgs(emulatorPath, avds[selectedEmulator])
      ensures selectedEmulator < |avds| && startErr.Some? ==>
        errorText == "failed to launch emulator: " + ("failed to launch emulator: " + startErr.value)
        && successText == "" && !reloadDevices
      ensures selectedEmulator < |avds| && startErr.None? ==> (reloadDevices && errorText == ""
        && successText == "Launched emulator: " + avds[selectedEmulator].name + " (may take a moment to appear)")
    {
      var selected := GetSelectedEmulatorInstance();
      if selected.None? {
        return "", "no emulator selected", false, [];
      }
      argv := Emulator.LaunchArgs(emulatorPath, selected.value);
      var err := Emulator.LaunchEmulator(startErr);
      if err.Some? {
        return "", "failed to launch emulator: " + err.value, false, argv;
      }
      return "Launched emulator: " + selected.value.name + " (may take a moment to appear)", "", true, argv;
    }
  }
}

/* internal/tui/features/settings: the setting being edited and the handlers of its messages. */
module SettingsTui {
  import opened Wrappers
  import Setting
  import opened Messaging

  class SettingsFeature {
    var currentSettingInfo: Option<Setting.SettingInfo>
    var currentSettingType: string

    /** NewSettingsFeature: no setting info and an empty type. */
    constructor ()
      ensures currentSettingInfo.None? && currentSettingType == ""
    {
      currentSettingInfo, currentSettingType := None, "";
    }

    /** SetCurrentSettingInfo: the info is always stored, the type only when there is an info. */
    method SetCurrentSettingInfo(info: Option<Setting.SettingInfo>)
      modifies this
      ensures currentSettingInfo == info
      ensures info.Some? ==> currentSettingType == info.value.settingType
      ensures info.None? ==> currentSettingType == old(currentSettingType)
    {
      currentSettingInfo := info;
      if info.Some? {
        currentSettingType := info.value.settingType;
      }
    }

    method ClearCurrentSetting()
      modifies this
      ensures currentSettingInfo.None? && currentSettingType == ""
    {
      currentSettingInfo, currentSettingType := None, "";
    }

    /** HandleSettingLoaded: a load error is reported and changes nothing; otherwise the info is stored. */
    method HandleSettingLoaded(msg: SettingLoadedMsg) returns (errorText: string)
      modifies this
      ensures msg.err.Some? ==> (errorText == "Failed to load setting info: " + msg.err.value
        && currentSettingInfo == old(currentSettingInfo) && currentSettingType == old(currentSettingType))
      ensures msg.err.None? ==> errorText == "" && currentSettingInfo == msg.settingInfo
      ensures msg.err.None? && msg.settingInfo.Some? ==> currentSettingType == msg.settingInfo.value.settingType
      ensures msg.err.None? && msg.settingInfo.None? ==> currentSettingType == old(currentSettingType)
    {
      if msg.err.Some? {
        return "Failed to load setting info: " + msg.err.value;
      }
      SetCurrentSettingInfo(msg.settingInfo);
      return "";
    }
  }

  /**
   * HandleSettingChanged: on success a text and a reload of the changed setting's type; on
   * failure only an error text.
   */
  function HandleSettingChanged(msg: SettingChangedMsg): (r: (string, string, Option<string>))
    ensures msg.success ==> r == ("Setting changed successfully: " + msg.message, "", Some(msg.settingType))
    ensures !msg.success ==> r == ("", "Setting change failed: " + msg.message, None)
  {
    if msg.success then ("Setting changed successfully: " + msg.message, "", Some(msg.settingType))
    else ("", "Setting change failed: " + msg.message, None)
  }
}
