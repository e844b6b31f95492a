/*
 * Direct (non-interactive) command execution (internal/cli/executor.go): the command
 * registry, the argument checks, device and AVD selection, and the commands that run
 * after them. What a command prints is returned as `printed`, one entry per print call without
 * its final newline; adb and emulator calls are oracles.
 */
module Cli {
  import opened Wrappers
  import opened Text
  import Adb
  import Emulator
  import Setting
  import Screenshot
  import ScreenRecord
  import Sequencing

  /** What a command line asks for once the registry lookup and the argument checks have run. */
  datatype Action =
    | Fail(message: string)
    | TakeScreenshot(serial: string)
    | TakeDayNight(serial: string)
    | RecordScreen(serial: string)
    | ChangeSetting(settingType: string, commandName: string, valueDescription: string,
                    actionDescription: string, serial: string, value: string)
    | LaunchEmulator(avdName: string)
    | PairWiFi(ip: string, code: string)
    | ConnectWiFi(ip: string)
    | DisconnectWiFi(ip: string)
    | RefreshDevices

  /** The executor functions the registry maps names to. */
  datatype Executor =
    | ExecScreenshot | ExecScreenshotDayNight | ExecScreenRecord
    | ExecChangeDPI | ExecChangeFontSize | ExecChangeScreenSize
    | ExecLaunchEmulator | ExecPairWiFi | ExecConnectWiFi | ExecDisconnectWiFi
    | ExecRefreshDevices

  const CommandRegistry: map<string, Executor> := map[
    "screenshot" := ExecScreenshot,
    "screenshot-day-night" := ExecScreenshotDayNight,
    "screen-record" := ExecScreenRecord,
    "change-dpi" := ExecChangeDPI,
    "change-font-size" := ExecChangeFontSize,
    "change-screen-size" := ExecChangeScreenSize,
    "launch-emulator" := ExecLaunchEmulator,
    "pair-wifi" := ExecPairWiFi,
    "connect-wifi" := ExecConnectWiFi,
    "disconnect-wifi" := ExecDisconnectWiFi,
    "refresh-devices" := ExecRefreshDevices]

  /** The eleven command names the registry accepts. */
  const CommandNames: set<string> := {
    "screenshot", "screenshot-day-night", "screen-record",
    "change-dpi", "change-font-size", "change-screen-size",
    "launch-emulator", "pair-wifi", "connect-wifi", "disconnect-wifi", "refresh-devices"}

  /** One executor: the Wi-Fi executors check their arguments first; the others pass them on. */
  function RunExecutor(e: Executor, serial: string, ip: string, code: string, value: string): (a: Action)
    ensures a.Fail? <==> ((e == ExecPairWiFi && (ip == "" || code == ""))
      || (e in {ExecConnectWiFi, ExecDisconnectWiFi} && ip == ""))
  {
    match e
    case ExecScreenshot => TakeScreenshot(serial)
    case ExecScreenshotDayNight => TakeDayNight(serial)
    case ExecScreenRecord => RecordScreen(serial)
    case ExecChangeDPI =>
      ChangeSetting(Setting.SettingTypeDPI, "change-dpi", "DPI number", "Changing DPI", serial, value)
    case ExecChangeFontSize =>
      ChangeSetting(Setting.SettingTypeFontSize, "change-font-size", "font scale number", "Changing font size",
                    serial, value)
    case ExecChangeScreenSize =>
      ChangeSetting(Setting.SettingTypeScreenSize, "change-screen-size", "WIDTHxHEIGHT", "Changing screen size",
                    serial, value)
    case ExecLaunchEmulator => LaunchEmulator(value)
    case ExecPairWiFi =>
      if ip == "" || code == "" then Fail("pair-wifi requires IP address and pairing code")
      else PairWiFi(ip, code)
    case ExecConnectWiFi =>
      if ip == "" then Fail("connect-wifi requires IP address") else ConnectWiFi(ip)
    case ExecDisconnectWiFi =>
      if ip == "" then Fail("disconnect-wifi requires IP address") else DisconnectWiFi(ip)
    case ExecRefreshDevices => RefreshDevices
  }

  /** ExecuteCommand: an unregistered name is an error; a registered one runs its executor. */
  function ExecuteCommand(command: string, serial: string, ip: string, code: string, value: string): (a: Action)
    ensures command in CommandRegistry <==> command in CommandNames
    ensures command !in CommandNames ==> a == Fail("unknown command: " + command)
    ensures command in CommandNames && a.Fail? ==>
      command in {"pair-wifi", "connect-wifi", "disconnect-wifi"}
  {
    if command !in CommandRegistry then Fail("unknown command: " + command)
    else RunExecutor(CommandRegistry[command], serial, ip, code, value)
  }

  /** The error of a setting command run without a value. */
  function ValueRequired(commandName: string, valueDescription: string): (r: string)
    ensures HasPrefix(r, commandName + " requires -value (") && HasSuffix(r, ")")
  {
    commandName + " requires -value (" + valueDescription + ")"
  }

  /**
   * The index of the first element whose key is `k`, or -1 when there is none: the search
   * selectDevice and ExecuteLaunchEmulatorDirect do over devices and AVDs.
   */
  function FirstMatch<T>(xs: seq<T>, key: T -> string, k: string): (i: int)
    ensures -1 <= i < |xs|
    ensures i >= 0 ==> key(xs[i]) == k && forall j :: 0 <= j < i ==> key(xs[j]) != k
    ensures i < 0 <==> forall j :: 0 <= j < |xs| ==> key(xs[j]) != k
  {
    if xs == [] then -1
    else if key(xs[0]) == k then 0
    else
      var r := FirstMatch(xs[1..], key, k);
      assert forall j :: 1 <= j < |xs| ==> xs[1..][j - 1] == xs[j];
      if r < 0 then -1 else r + 1
  }

  /** The loop of the two searches: stops at the first element whose key is `k`. */
  method Find<T>(xs: seq<T>, key: T -> string, k: string) returns (i: int)
    ensures i == FirstMatch(xs, key, k)
  {
    var j := 0;
    while j < |xs|
      invariant 0 <= j <= |xs|
      invariant forall m :: 0 <= m < j ==> key(xs[m]) != k
    {
      if key(xs[j]) == k {
        FirstMatchUnique(xs, key, k, j);
        return j;
      }
      j := j + 1;
    }
    return -1;
  }

  /** An element whose key matches, with no match before it, is the first match. */
  lemma FirstMatchUnique<T>(xs: seq<T>, key: T -> string, k: string, j: int)
    requires 0 <= j < |xs| && key(xs[j]) == k
    requires forall m :: 0 <= m < j ==> key(xs[m]) != k
    ensures FirstMatch(xs, key, k) == j
  {
  }

  function Serial(d: Adb.Device): string { d.serial }

  function AvdName(a: Emulator.AVD): string { a.name }

  /**
   * The choice selectDevice makes from a device list: none to choose from, the device with
   * the requested serial, the only device, or a refusal to guess among several.
   */
  function ChooseDevice(devices: seq<Adb.Device>, serial: string): (r: Result<Adb.Device>)
    ensures devices == [] ==> r == Err("no devices connected")
    ensures devices != [] && serial != "" ==>
      (r.Ok? <==> exists j :: 0 <= j < |devices| && devices[j].serial == serial)
      && (r.Ok? ==> r.value.serial == serial && r.value in devices)
      && (r.Err? ==> r.error == "device with serial " + serial + " not found")
    ensures serial == "" && |devices| == 1 ==> r == Ok(devices[0])
    ensures serial == "" && |devices| > 1 ==> r == Err("multiple devices connected, please specify -device")
  {
    if devices == [] then Err("no devices connected")
    else if serial != "" then
      var i := FirstMatch(devices, Serial, serial);
      if i < 0 then Err("device with serial " + serial + " not found") else Ok(devices[i])
    else if |devices| == 1 then Ok(devices[0])
    else Err("multiple devices connected, please specify -device")
  }

  /**
   * selectDevice. `devicesOut` is the output of `adb devices -l` or its error; with several
   * devices and no serial the refusal also prints the list, returned here as `printed`.
   */
  method SelectDevice(devicesOut: Result<string>, serial: string) returns (r: Result<Adb.Device>, printed: seq<string>)
    ensures devicesOut.Err? ==> r == Err("failed to get devices: " + devicesOut.error) && printed == []
    ensures devicesOut.Ok? ==>
      r == ChooseDevice(Adb.DevicesFromLines(Split(devicesOut.value, '\n')[1..]), serial)
      && printed == SelectionListing(Adb.DevicesFromLines(Split(devicesOut.value, '\n')[1..]), serial)
    ensures printed != [] ==> r == Err("multiple devices connected, please specify -device")
  {
    printed := [];
    var listed := Adb.GetConnectedDevices(devicesOut);
    if listed.Err? {
      return Err(listed.error), printed;
    }
    var devices := listed.value;
    if |devices| == 0 {
      return Err("no devices connected"), printed;
    }
    if serial != "" {
      var i := Find(devices, Serial, serial);
      if i >= 0 {
        return Ok(devices[i]), printed;
      }
      return Err("device with serial " + serial + " not found"), printed;
    }
    if |devices| == 1 {
      return Ok(devices[0]), printed;
    }
    printed := ["Multiple devices connected. Please specify device with -device flag:"]
      + DeviceListing(devices);
    return Err("multiple devices connected, please specify -device"), printed;
  }

  /** What selectDevice prints: the prompt and the device list when it refuses to guess among several. */
  function SelectionListing(devices: seq<Adb.Device>, serial: string): (lines: seq<string>)
    ensures lines != [] ==> ChooseDevice(devices, serial) == Err("multiple devices connected, please specify -device")
  {
    if serial == "" && |devices| > 1 then
      ["Multiple devices connected. Please specify device with -device flag:"] + DeviceListing(devices)
    else []
  }

  /** One indented line per device, in list order. */
  function DeviceListing(devices: seq<Adb.Device>): (lines: seq<string>)
    ensures |lines| == |devices|
    ensures forall j :: 0 <= j < |devices| ==> lines[j] == "  " + Adb.DeviceString(devices[j])
  {
    if devices == [] then []
    else ["  " + Adb.DeviceString(devices[0])] + DeviceListing(devices[1..])
  }

  /**
   * ExecuteScreenshotDirect: a screenshot on the selected device, nothing when selection fails.
   * The device is announced before the screenshot runs.
   */
  method ExecuteScreenshotDirect(devicesOut: Result<string>, serial: string, mediaPath: string,
                                 timestamp: string, outcome: nat -> Option<string>)
    returns (err: Option<string>, calls: seq<seq<string>>, printed: seq<string>)
    ensures devicesOut.Err? ==> err == Some("failed to get devices: " + devicesOut.error) && calls == [] && printed == []
    ensures devicesOut.Ok? ==> var devices := Adb.DevicesFromLines(Split(devicesOut.value, '\n')[1..]);
      var choice := ChooseDevice(devices, serial);
      (choice.Err? ==> err == Some(choice.error) && calls == [] && printed == SelectionListing(devices, serial))
      && (choice.Ok? ==> var f := Sequencing.FirstFailure(outcome, 2);
            var localPath := PathJoin(mediaPath, Screenshot.ScreenshotName(timestamp));
            calls == Screenshot.ScreenshotScript(choice.value.serial, localPath)[..if f < 2 then f + 1 else 3]
            && (err.None? <==> f == 2)
            && printed == ["Taking screenshot on device: " + choice.value.serial]
                          + if f == 2 then ["Screenshot saved to: " + localPath] else [])
  {
    var device, listing := SelectDevice(devicesOut, serial);
    if device.Err? {
      return Some(device.error), [], listing;
    }
    assert listing == [];
    var shot;
    err, calls, shot := Screenshot.TakeScreenshot(mediaPath, device.value.serial, timestamp, outcome);
    printed := ["Taking screenshot on device: " + device.value.serial] + shot;
  }

  /**
   * ExecuteScreenshotDayNightDirect: the day/night pair on the selected device, announced
   * before it runs; everything the pair prints follows.
   */
  method ExecuteScreenshotDayNightDirect(devicesOut: Result<string>, serial: string, mediaPath: string,
                                         timestamp: string, outcome: nat -> Option<string>)
    returns (err: Option<string>, calls: seq<seq<string>>, printed: seq<string>)
    ensures devicesOut.Err? ==> err == Some("failed to get devices: " + devicesOut.error) && calls == [] && printed == []
    ensures devicesOut.Ok? ==> var devices := Adb.DevicesFromLines(Split(devicesOut.value, '\n')[1..]);
      var choice := ChooseDevice(devices, serial);
      (choice.Err? ==> err == Some(choice.error) && calls == [] && printed == SelectionListing(devices, serial))
      && (choice.Ok? ==> var f := Sequencing.FirstFailure(outcome, 6);
            var dayPath := PathJoin(mediaPath, Screenshot.DayName(timestamp));
            var nightPath := PathJoin(mediaPath, Screenshot.NightName(timestamp));
            calls == Screenshot.DayNightScript(choice.value.serial, dayPath, nightPath)[..if f < 6 then f + 1 else 8]
            && (err.None? <==> f == 6)
            && (f < 6 ==> err == Some(Screenshot.DayNightErrors[f] + outcome(f).value))
            && printed == ["Taking day-night screenshots on device: " + choice.value.serial]
                          + Screenshot.DayNightOutput(choice.value.serial, dayPath, nightPath, outcome))
  {
    var device, listing := SelectDevice(devicesOut, serial);
    if device.Err? {
      return Some(device.error), [], listing;
    }
    assert listing == [];
    var shots;
    err, calls, shots := Screenshot.TakeDayNightScreenshots(mediaPath, device.value.serial, timestamp, outcome);
    printed := ["Taking day-night screenshots on device: " + device.value.serial] + shots;
  }

  /**
   * ExecuteScreenRecordDirect: start on the selected device, wait for the interrupt (not
   * modelled), then stop and save. The stop's inputs are the outcomes of its steps, and
   * `adbPath` is the adb binary the stop prints with its pull command.
   */
  method ExecuteScreenRecordDirect(devicesOut: Result<string>, serial: string, mediaPath: string,
                                   timestamp: string, startErr: Option<string>, adbPath: string,
                                   signalErr: Option<string>, check: ScreenRecord.CallResult,
                                   mkdirErr: Option<string>, pull: ScreenRecord.CallResult,
                                   fallback: ScreenRecord.CallResult)
    returns (err: Option<string>, started: bool, printed: seq<string>)
    ensures devicesOut.Err? ==> err == Some("failed to get devices: " + devicesOut.error) && !started && printed == []
    ensures devicesOut.Ok? ==> var devices := Adb.DevicesFromLines(Split(devicesOut.value, '\n')[1..]);
      var choice := ChooseDevice(devices, serial);
      (choice.Err? ==> err == Some(choice.error) && !started && printed == SelectionListing(devices, serial))
      && (choice.Ok? && startErr.Some? ==> (err == Some("failed to start screen recording: " + startErr.value)
            && !started && printed == RecordingAnnouncement(choice.value.serial)))
      && (choice.Ok? && startErr.None? ==> (started
            && (err.None? <==> signalErr.None? && check.err.None? && mkdirErr.None?
                               && ScreenRecord.Pulled(pull, fallback))
            && printed == RecordingAnnouncement(choice.value.serial) + ["\nStopping recording..."]
                          + ScreenRecord.StopReport(ScreenRecord.Started(mediaPath, choice.value.serial, timestamp),
                                                    adbPath, signalErr, check, mkdirErr, pull, fallback)))
  {
    var device, listing := SelectDevice(devicesOut, serial);
    if device.Err? {
      return Some(device.error), false, listing;
    }
    assert listing == [];
    printed := RecordingAnnouncement(device.value.serial);
    var recording, _ := ScreenRecord.StartScreenRecord(mediaPath, device.value.serial, timestamp, startErr);
    if recording.Err? {
      return Some(recording.error), false, printed;
    }
    var stopCalls, report;
    err, stopCalls, report := ScreenRecord.StopAndSave(recording.value, adbPath, signalErr, check, mkdirErr, pull, fallback);
    printed := printed + ["\nStopping recording..."] + report;
    started := true;
  }

  /** The two lines ExecuteScreenRecordDirect prints before it starts recording. */
  function RecordingAnnouncement(serial: string): seq<string> {
    ["Starting screen recording on device: " + serial, "Press Ctrl+C to stop recording..."]
  }

  /**
   * executeSettingChange: an empty value is refused before any device is listed; then the
   * device is selected, the value validated, and only a valid value is announced and set.
   */
  method ExecuteSettingChange(devicesOut: Result<string>, serial: string, value: string, settingType: string,
                              commandName: string, valueDescription: string, actionDescription: string,
                              floatParses: bool, scaleStr: string, runErr: Option<string>)
    returns (err: Option<string>, listed: bool, setCalls: seq<seq<string>>, printed: seq<string>)
    requires Setting.GetSettingHandler(settingType).Some?
    ensures value == "" ==> err == Some(ValueRequired(commandName, valueDescription)) && !listed && setCalls == [] && printed == []
    ensures value != "" ==> listed
    ensures value != "" && devicesOut.Ok? ==>
      var devices := Adb.DevicesFromLines(Split(devicesOut.value, '\n')[1..]);
      var choice := ChooseDevice(devices, serial);
      var h := Setting.GetSettingHandler(settingType).value;
      (choice.Err? ==> err == Some(choice.error) && setCalls == [] && printed == SelectionListing(devices, serial))
      && (choice.Ok? && Setting.ValidateInput(h, value, floatParses).Some? ==>
            err == Setting.ValidateInput(h, value, floatParses) && setCalls == [] && printed == [])
      && (choice.Ok? && Setting.ValidateInput(h, value, floatParses).None? ==>
            |setCalls| == 1 && |setCalls[0]| >= 2 && setCalls[0][..2] == ["-s", choice.value.serial] && (err.None? <==> runErr.None?)
            && printed == [actionDescription + " to " + value + " on device: " + choice.value.serial]
                          + if err.None? then [Setting.ChangedLine(h, choice.value.serial, value, scaleStr)] else [])
    ensures value != "" && devicesOut.Err? ==> err == Some("failed to get devices: " + devicesOut.error) && setCalls == [] && printed == []
  {
    if value == "" {
      return Some(ValueRequired(commandName, valueDescription)), false, [], [];
    }
    listed := true;
    var device, listing := SelectDevice(devicesOut, serial);
    if device.Err? {
      return Some(device.error), listed, [], listing;
    }
    var handler := Setting.GetSettingHandler(settingType).value;
    var invalid := Setting.ValidateInput(handler, value, floatParses);
    if invalid.Some? {
      return invalid, listed, [], [];
    }
    assert listing == [];
    var changed;
    err, setCalls, changed := Setting.SetValue(handler, device.value.serial, value, floatParses, scaleStr, runErr);
    SetCallTargetsDevice(handler, device.value.serial, value, floatParses, scaleStr, runErr, setCalls);
    printed := [actionDescription + " to " + value + " on device: " + device.value.serial] + changed;
  }

  /** The one adb call a valid SetValue makes is addressed to the given device. */
  lemma SetCallTargetsDevice(h: Setting.Handler, serial: string, value: string, floatParses: bool,
                             scaleStr: string, runErr: Option<string>, calls: seq<seq<string>>)
    requires Setting.ValidateInput(h, value, floatParses).None?
    requires |calls| == 1
    requires h == Setting.DpiHandler ==>
      calls == [Adb.DeviceArgs(serial, ["shell", "wm", "density", Itoa(Atoi(value).value)])]
    requires h == Setting.FontSizeHandler ==>
      calls == [Adb.DeviceArgs(serial, ["shell", "settings", "put", "system", "font_scale", scaleStr])]
    requires h == Setting.ScreenSizeHandler ==>
      calls == [Adb.DeviceArgs(serial, ["shell", "wm", "size", value])]
    ensures |calls[0]| >= 2 && calls[0][..2] == ["-s", serial]
  {
  }

  /**
   * The choice ExecuteLaunchEmulatorDirect makes from the AVD list, mirroring selectDevice:
   * the AVD with the requested name, the only AVD, or an error.
   */
  function ChooseAvd(avds: seq<Emulator.AVD>, avdName: string): (r: Result<Emulator.AVD>)
    ensures avds == [] ==> r == Err("no AVDs found")
    ensures avds != [] && avdName != "" ==>
      (r.Ok? <==> exists j :: 0 <= j < |avds| && avds[j].name == avdName)
      && (r.Ok? ==> r.value.name == avdName && r.value in avds)
      && (r.Err? ==> r.error == "AVD with name " + avdName + " not found")
    ensures avdName == "" && |avds| == 1 ==> r == Ok(avds[0])
    ensures avdName == "" && |avds| > 1 ==> r == Err("multiple AVDs available, please specify -value")
  {
    if avds == [] then Err("no AVDs found")
    else if avdName != "" then
      var i := FirstMatch(avds, AvdName, avdName);
      if i < 0 then Err("AVD with name " + avdName + " not found") else Ok(avds[i])
    else if |avds| == 1 then Ok(avds[0])
    else Err("multiple AVDs available, please specify -value")
  }

  /** One indented line per AVD, in list order. */
  function AvdListing(avds: seq<Emulator.AVD>): (lines: seq<string>)
    ensures |lines| == |avds|
    ensures forall j :: 0 <= j < |avds| ==> lines[j] == "  " + Emulator.AvdString(avds[j])
  {
    if avds == [] then []
    else ["  " + Emulator.AvdString(avds[0])] + AvdListing(avds[1..])
  }

  /**
   * ExecuteLaunchEmulatorDirect. `avds` is the result of listing the AVDs; the emulator is
   * started (its command line returned) only for a chosen AVD, and `startErr` is its outcome.
   * `printed` holds the lines written to standard output: the AVD being launched, or the
   * listing shown when several AVDs make the choice ambiguous.
   */
  method ExecuteLaunchEmulatorDirect(avds: Result<seq<Emulator.AVD>>, avdName: string, emulatorPath: string,
                                     startErr: Option<string>)
    returns (err: Option<string>, launched: Option<seq<string>>, printed: seq<string>)
    ensures avds.Err? ==> err == Some(avds.error) && launched.None? && printed == []
    ensures avds.Ok? ==> var choice := ChooseAvd(avds.value, avdName);
      (choice.Err? ==> err == Some(choice.error) && launched.None?)
      && (choice.Ok? ==> launched == Some(Emulator.LaunchArgs(emulatorPath, choice.value))
                         && err == Emulator.LaunchEmulator(startErr)
                         && printed == ["Launching emulator: " + choice.value.name])
    ensures avds.Ok? && avdName == "" && |avds.value| > 1 ==>
      printed == ["Multiple AVDs available. Please specify AVD with -value flag:"] + AvdListing(avds.value)
    ensures avds.Ok? && ChooseAvd(avds.value, avdName).Err? && (avdName != "" || |avds.value| <= 1) ==> printed == []
  {
    printed := [];
    if avds.Err? {
      return Some(avds.error), None, printed;
    }
    var list := avds.value;
    if |list| == 0 {
      return Some("no AVDs found"), None, printed;
    }
    if avdName != "" {
      var i := Find(list, AvdName, avdName);
      if i >= 0 {
        printed := ["Launching emulator: " + list[i].name];
        return Emulator.LaunchEmulator(startErr), Some(Emulator.LaunchArgs(emulatorPath, list[i])), printed;
      }
      return Some("AVD with name " + avdName + " not found"), None, printed;
    }
    if |list| == 1 {
      printed := ["Launching emulator: " + list[0].name];
      return Emulator.LaunchEmulator(startErr), Some(Emulator.LaunchArgs(emulatorPath, list[0])), printed;
    }
    printed := ["Multiple AVDs available. Please specify AVD with -value flag:"] + AvdListing(list);
    return Some("multiple AVDs available, please specify -value"), None, printed;
  }

  /** ExecuteRefreshDevices: the device count, then one line per device. */
  method ExecuteRefreshDevices(devicesOut: Result<string>) returns (err: Option<string>, printed: seq<string>)
    ensures devicesOut.Err? ==> err == Some("failed to get devices: " + devicesOut.error) && printed == []
    ensures devicesOut.Ok? ==> var devices := Adb.DevicesFromLines(Split(devicesOut.value, '\n')[1..]);
      err.None? && |printed| == |devices| + 1
      && printed[0] == "Connected devices: " + Itoa(|devices|)
      && printed[1..] == DeviceListing(devices)
  {
    var listed := Adb.GetConnectedDevices(devicesOut);
    if listed.Err? {
      return Some(listed.error), [];
    }
    printed := ["Connected devices: " + Itoa(|listed.value|)] + DeviceListing(listed.value);
    return None, printed;
  }
}

/*
 * The entry point (main.go): choosing the command, the positional-argument heuristics and
 * the switch that dispatches direct commands. Its device and AVD selection and its direct
 * commands are line-for-line the ones of module Cli, which this module reuses.
 */
module Program {
  import opened Text
  import Cli
  import Setting
  import Registry

  /** A command from -command wins; otherwise the first positional argument is taken off. */
  function ChooseCommand(commandFlag: string, args: seq<string>): (r: (string, seq<string>))
    ensures commandFlag != "" ==> r == (commandFlag, args)
    ensures commandFlag == "" && args != [] ==> r == (args[0], args[1..])
    ensures commandFlag == "" && args == [] ==> r == ("", [])
  {
    if commandFlag != "" then (commandFlag, args)
    else if |args| > 0 then (args[0], args[1..])
    else ("", args)
  }

  /** The interface started: the full-screen UI without a command, a direct command otherwise. */
  predicate StartsTUI(commandFlag: string, args: seq<string>) {
    ChooseCommand(commandFlag, args).0 == ""
  }

  /** A command and no positional argument only when -command is empty and so is the list. */
  lemma StartsTUIIff(commandFlag: string, args: seq<string>)
    ensures StartsTUI(commandFlag, args) <==> commandFlag == "" && (args == [] || args[0] == "")
  {
  }

  datatype ParsedArgs = ParsedArgs(device: string, ip: string, code: string, value: string)

  /** The heuristic for change-*: the first argument is a device when it looks like one. */
  predicate LooksLikeDevice(args: seq<string>)
    requires |args| >= 1
  {
    Contains(args[0], "emulator") || Contains(args[0], ":") || |args| > 1
  }

  /**
   * parsePositionalArgs: positional arguments fill in what the flags left empty, per
   * command; a flag that was given is never overridden.
   */
  function ParsePositionalArgs(command: string, args: seq<string>, flagDevice: string, flagIP: string,
                               flagCode: string, flagValue: string): (r: ParsedArgs)
    ensures flagDevice != "" ==> r.device == flagDevice
    ensures flagIP != "" ==> r.ip == flagIP
    ensures flagCode != "" ==> r.code == flagCode
    ensures flagValue != "" ==> r.value == flagValue
    ensures args == [] ==> r == ParsedArgs(flagDevice, flagIP, flagCode, flagValue)
    ensures command == "pair-wifi" ==>
      r.ip == (if flagIP == "" && |args| >= 1 then args[0] else flagIP)
      && r.code == (if flagCode == "" && |args| >= 2 then args[1] else flagCode)
      && r.device == flagDevice && r.value == flagValue
    ensures command in {"connect-wifi", "disconnect-wifi"} ==>
      r == ParsedArgs(flagDevice, if flagIP == "" && |args| >= 1 then args[0] else flagIP, flagCode, flagValue)
    ensures command == "launch-emulator" ==>
      r == ParsedArgs(flagDevice, flagIP, flagCode, if flagValue == "" && |args| >= 1 then args[0] else flagValue)
    ensures command in {"screenshot", "screenshot-day-night", "screen-record"} ==>
      r == ParsedArgs(if flagDevice == "" && |args| >= 1 then args[0] else flagDevice, flagIP, flagCode, flagValue)
    ensures command !in {"pair-wifi", "connect-wifi", "disconnect-wifi", "change-dpi", "change-font-size",
                         "change-screen-size", "launch-emulator", "screenshot", "screenshot-day-night",
                         "screen-record"} ==>
      r == ParsedArgs(flagDevice, flagIP, flagCode, flagValue)
  {
    var result := ParsedArgs(flagDevice, flagIP, flagCode, flagValue);
    if command == "pair-wifi" then
      var withIP := if |args| >= 1 && result.ip == "" then result.(ip := args[0]) else result;
      if |args| >= 2 && withIP.code == "" then withIP.(code := args[1]) else withIP
    else if command == "connect-wifi" || command == "disconnect-wifi" then
      if |args| >= 1 && result.ip == "" then result.(ip := args[0]) else result
    else if command in {"change-dpi", "change-font-size", "change-screen-size"} then
      if |args| >= 1 && result.value == "" then
        if result.device == "" && LooksLikeDevice(args) then
          var withDevice := result.(device := args[0]);
          if |args| >= 2 then withDevice.(value := args[1]) else withDevice
        else result.(value := args[0])
      else result
    else if command == "launch-emulator" then
      if |args| >= 1 && result.value == "" then result.(value := args[0]) else result
    else if command in {"screenshot", "screenshot-day-night", "screen-record"} then
      if |args| >= 1 && result.device == "" then result.(device := args[0]) else result
    else result
  }

  /**
   * The change-* heuristic. Without -device and -value: two arguments are device then value;
   * a single one is the device exactly when it mentions "emulator" or ':', and is then
   * left without a value.
   */
  lemma ChangeHeuristic(command: string, args: seq<string>, flagIP: string, flagCode: string)
    requires command in {"change-dpi", "change-font-size", "change-screen-size"}
    ensures |args| >= 2 ==> (ParsePositionalArgs(command, args, "", flagIP, flagCode, "").device == args[0]
      && ParsePositionalArgs(command, args, "", flagIP, flagCode, "").value == args[1])
    ensures |args| == 1 && (Contains(args[0], "emulator") || Contains(args[0], ":")) ==>
      ParsePositionalArgs(command, args, "", flagIP, flagCode, "") == ParsedArgs(args[0], flagIP, flagCode, "")
    ensures |args| == 1 && !Contains(args[0], "emulator") && !Contains(args[0], ":") ==>
      ParsePositionalArgs(command, args, "", flagIP, flagCode, "") == ParsedArgs("", flagIP, flagCode, args[0])
  {
  }

  /** With -device given, a change-* command takes its first argument as the value. */
  lemma ChangeWithDeviceFlag(command: string, args: seq<string>, flagDevice: string, flagIP: string, flagCode: string)
    requires command in {"change-dpi", "change-font-size", "change-screen-size"}
    requires flagDevice != "" && |args| >= 1
    ensures ParsePositionalArgs(command, args, flagDevice, flagIP, flagCode, "")
      == ParsedArgs(flagDevice, flagIP, flagCode, args[0])
  {
  }

  /**
   * executeDirectCommand: a switch over the command names; Wi-Fi commands check their
   * arguments, setting commands go through the shared setting change.
   */
  function DirectAction(command: string, serial: string, ip: string, code: string, value: string): (a: Cli.Action)
  {
    if command == "screenshot" then Cli.TakeScreenshot(serial)
    else if command == "screenshot-day-night" then Cli.TakeDayNight(serial)
    else if command == "screen-record" then Cli.RecordScreen(serial)
    else if command == "change-dpi" then
      Cli.ChangeSetting(Setting.SettingTypeDPI, "change-dpi", "DPI number", "Changing DPI", serial, value)
    else if command == "change-font-size" then
      Cli.ChangeSetting(Setting.SettingTypeFontSize, "change-font-size", "font scale number", "Changing font size",
                        serial, value)
    else if command == "change-screen-size" then
      Cli.ChangeSetting(Setting.SettingTypeScreenSize, "change-screen-size", "WIDTHxHEIGHT", "Changing screen size",
                        serial, value)
    else if command == "launch-emulator" then Cli.LaunchEmulator(value)
    else if command == "pair-wifi" then
      if ip == "" || code == "" then Cli.Fail("pair-wifi requires IP address and pairing code")
      else Cli.PairWiFi(ip, code)
    else if command == "connect-wifi" then
      if ip == "" then Cli.Fail("connect-wifi requires IP address") else Cli.ConnectWiFi(ip)
    else if command == "disconnect-wifi" then
      if ip == "" then Cli.Fail("disconnect-wifi requires IP address") else Cli.DisconnectWiFi(ip)
    else if command == "refresh-devices" then Cli.RefreshDevices
    else Cli.Fail("unknown command: " + command)
  }

  /** The entry point's switch and the CLI package's registry accept and do the same thing. */
  lemma DirectActionAgreesWithRegistry(command: string, serial: string, ip: string, code: string, value: string)
    ensures DirectAction(command, serial, ip, code, value) == Cli.ExecuteCommand(command, serial, ip, code, value)
  {
    if command == "screenshot" {
      RegisteredRuns(command, Cli.ExecScreenshot, serial, ip, code, value);
    } else if command == "screenshot-day-night" {
      RegisteredRuns(command, Cli.ExecScreenshotDayNight, serial, ip, code, value);
    } else if command == "screen-record" {
      RegisteredRuns(command, Cli.ExecScreenRecord, serial, ip, code, value);
    } else if command == "change-dpi" {
      RegisteredRuns(command, Cli.ExecChangeDPI, serial, ip, code, value);
    } else if command == "change-font-size" {
      RegisteredRuns(command, Cli.ExecChangeFontSize, serial, ip, code, value);
    } else if command == "change-screen-size" {
      RegisteredRuns(command, Cli.ExecChangeScreenSize, serial, ip, code, value);
    } else if command == "launch-emulator" {
      RegisteredRuns(command, Cli.ExecLaunchEmulator, serial, ip, code, value);
    } else if command == "pair-wifi" {
      RegisteredRuns(command, Cli.ExecPairWiFi, serial, ip, code, value);
    } else if command == "connect-wifi" {
      RegisteredRuns(command, Cli.ExecConnectWiFi, serial, ip, code, value);
    } else if command == "disconnect-wifi" {
      RegisteredRuns(command, Cli.ExecDisconnectWiFi, serial, ip, code, value);
    } else if command == "refresh-devices" {
      RegisteredRuns(command, Cli.ExecRefreshDevices, serial, ip, code, value);
    } else {
      assert command !in Cli.CommandRegistry;
    }
  }

  /** A registered name runs the executor the registry maps it to. */
  lemma RegisteredRuns(command: string, e: Cli.Executor, serial: string, ip: string, code: string, value: string)
    requires command in Cli.CommandRegistry && Cli.CommandRegistry[command] == e
    ensures Cli.ExecuteCommand(command, serial, ip, code, value) == Cli.RunExecutor(e, serial, ip, code, value)
  {
  }

  /**
   * The -command help lists the catalog's names, and some of them ("dpi", "wifi",
   * "emulator") are rejected when run directly.
   */
  lemma HelpListsRejectedNames()
    ensures Registry.GetAvailableCommands()[3].command == "dpi"
    ensures DirectAction("dpi", "", "", "", "") == Cli.Fail("unknown command: dpi")
    ensures Registry.GetAvailableCommands()[6].command == "wifi"
    ensures DirectAction("wifi", "", "", "", "") == Cli.Fail("unknown command: wifi")
  {
  }
}
