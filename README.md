# gadget core, modelled in Dafny

gadget is a terminal front-end for Android's `adb`. It has a command-line mode, started with
`-command` or a positional command name, and a Bubble Tea terminal UI. Both drive `adb`,
`emulator` and the AVD files. This project models the logic that sits under that process
plumbing and proves properties of it:

- **Session controller and fuzzy search** (`TuiModel`, `TuiSearch`):
  - the TUI model's `Update` as a class with a single state field;
  - key handling in the four modes (menu, device selection, emulator selection, text input);
  - the two-step Wi-Fi pairing;
  - the bounded log history;
  - the outcome messages that clear the activity flags;
  - the fuzzy command scorer, filter and sort.
- **Feature objects** (`Media`, `DevicesTui`, `SettingsTui`, `WiFiTui`, `Messaging`): the media, device and settings state classes and their message handlers.
- **Parsers and validators**:
  - `adb devices -l` lines, plus the copy in the test files (`Adb`, `CliTest`);
  - the `track-devices` protocol (`Tracking`);
  - `wm density` / `wm size` output (`Density`, `ScreenSize`);
  - IP[:port] (`WiFiCmd`);
  - AVD `.ini` / `config.ini` files (`Emulator`);
  - the CLI's positional arguments and device/AVD selection (`Program`, `Cli`);
  - setting validation (`Setting`).
- **Output capture** (`Capture`): the start/stop machine, two bounded line queues, and the drain order.
- **Command sequencing** (`Screenshot`, `ScreenRecord`, `WiFiCmd`, `Media`): the `adb` calls each operation makes, the first failure that aborts them, and the cleanups whose errors are ignored.
- **Formatting helpers and test utilities**:
  - catalog grouping (`Registry`, `Core`);
  - CPU names (`Display`);
  - home-path shortening (`TuiUtils`, `Core`);
  - log levels and rendering (`Logger`);
  - the stub tables of the test fakes (`Fakes`, `TestHelpers`).

Every call into `adb`, the file system, the clock or a goroutine is an oracle: its output,
error or time is a parameter of the modelled operation, and a method that "runs" a command
returns the argument vectors it would pass, in order. Strings are sequences of runes. Bytes
are not modelled. Go's `strings` functions that the code relies on (`Fields`, `Split`,
`TrimSpace`, `Contains`, `Index`, `Atoi`, `Itoa`, …) are defined once in `Text`.

Imperative Go code keeps its form:
- loops become `while` loops with invariants, proved against a function that specifies them;
- structs whose methods update fields become classes with `modifies` clauses;
- a bounded Go channel with a non-blocking send is a sequence field plus the `Channels.Offer` rule (append when below capacity, otherwise drop).

## Model

| member | source | states |
|---|---|---|
| Adb.NewDevice | internal/adb/device.go:144-147 | a freshly parsed device carries the given serial and status and empty model, product, device and transport fields |
| Adb.DeviceArgs | internal/adb/device.go:166-172 | a per-device command is `-s <serial>` followed by exactly the caller's arguments |
| Adb.GetConnectionType | internal/adb/device.go:42-50 | Emulator exactly for an "emulator-" serial (checked first); WiFi exactly for other serials containing ':'; Physical otherwise |
| Adb.GetStatusIndicator | internal/adb/device.go:53-64 | the indicator is a single rune |
| Adb.StatusIndicatorDistinguishes | internal/adb/device.go:53-64 | two devices get the same indicator exactly when they have the same connection type |
| Adb.AvdDisplayNameForEmulator | internal/adb/device.go:198-203 | the AVD display-name lookup for a running emulator always yields "" |
| Adb.CleanProductName | internal/adb/device.go:82-86 | a product without "sdk_" is kept; with it, the result is no longer and has no '_' |
| Adb.ReplaceAllCharSpace | internal/adb/device.go:85 | replacing '_' by ' ' keeps the length and leaves no '_' |
| Adb.EmulatorDetails | internal/adb/device.go:70-91 | an emulator's detail list is never empty and always ends with "Emulator" |
| Adb.DeviceString | internal/adb/device.go:67-103 | always "serial (…)"; an emulator's text ends "Emulator)"; otherwise "serial (model - product)" when both are set, else "serial (status)" |
| Adb.ParseDeviceLine | internal/adb/device.go:138-163 | no device exactly when the line has fewer than two fields; otherwise serial and status are fields 0 and 1, and the result agrees with the token fold DeviceFromLine |
| Adb.ApplyTokensKeepsSerial | internal/adb/device.go:150-160 | the property tokens never change serial or status |
| Adb.ApplyTokensLastWins | internal/adb/device.go:150-160 | each of model, product, device and transport_id is the value of the last token with that prefix, and is unchanged when there is none |
| Adb.LineDevicesSource | internal/adb/device.go:121-131 | one listing line contributes at most one device, and only the device its trimmed text parses to |
| Adb.DevicesFromLinesAppend | internal/adb/device.go:121-131 | the device list of two consecutive runs of lines is the concatenation of their lists |
| Adb.DevicesFromLinesSources | internal/adb/device.go:121-131 | there are no more devices than lines, and every device is the parse of some line |
| Adb.GetConnectedDevices | internal/adb/device.go:106-134 | a failed `adb devices -l` gives "failed to get devices: …"; otherwise the header line is skipped and the list is DevicesFromLines of the rest |
| Adb.ScanBatteryLevel | internal/adb/device.go:237-251 | the battery loop stops at the first trimmed "level:" line whose value parses (BatteryLevelIn) |
| Adb.ScanPhysicalSize | internal/adb/device.go:262-273 | the resolution loop stops at the first "Physical size:" line and takes its trimmed value (PhysicalSizeIn) |
| Adb.CutAtSlash | internal/adb/device.go:307-312 | the address with its "/len" suffix removed is a prefix of the token and contains no '/' |
| Adb.InetHasNoSlash | internal/adb/device.go:302-313 | an address found on an "inet" line never contains '/' |
| Adb.ScanInet | internal/adb/device.go:298-318 | method 1 of the IP lookup finds the "inet" token of the first non-loopback line that has one (InetIn) |
| Adb.ScanInetAddr | internal/adb/device.go:321-338 | method 2 takes the text after "inet addr:" up to the next space on the first such line (InetAddrIn) |
| Adb.LoadIPAddress | internal/adb/device.go:296-347 | only ipAddress changes; it becomes the first address found by `ip addr`, then `ifconfig`, then the host part of a WiFi serial, and is kept when none is found |
| Adb.LoadedBattery | internal/adb/device.go:237-254 | the level is never 0: a parsed non-zero level is taken, a failed or unparsable query keeps the old one, and 0 becomes -1 |
| Adb.LoadedApi | internal/adb/device.go:280-289 | a failed query gives -1; a parsable trimmed answer gives its value |
| Adb.LoadedDevice | internal/adb/device.go:231-293 | a device not in state "device" is unchanged; otherwise the battery is never 0 and a failed API query gives -1; serial, status, model, product, device and transport never change |
| Adb.LoadExtendedInfo | internal/adb/device.go:231-293 | the method's sequence of queries yields LoadedDevice |
| Adb.LoadBattery | internal/adb/device.go:237-254 | the battery step of LoadExtendedInfo yields LoadedBattery |
| Adb.LoadScreenRes | internal/adb/device.go:262-273 | the resolution step yields the "Physical size:" value, or keeps the old value |
| Adb.ExtendedInfoParts | internal/adb/device.go:351-376 | none of the collected info parts is empty |
| Adb.GetExtendedInfo | internal/adb/device.go:350-383 | "" exactly when no version, positive API level, CPU, resolution or IP is known; "Android V (API N)" first when both version and API are known, "API N" first when only the API is |
| Channels.Offer | internal/tui/capture/capture.go:113-117 | a non-blocking send appends below capacity and drops the value at capacity |
| Channels.OfferAllPrefix | internal/tui/capture/capture.go:110-119 | a run of sends keeps exactly the longest prefix of the values that fits in the free space |
| Channels.OfferAllBounded | internal/tui/capture/capture.go:28-29 | a queue that starts within capacity never exceeds it |
| Channels.OfferAllFits | internal/tui/features/media/commands.go:117-124 | values that fit are all kept, in order |
| Channels.OfferAllSnoc | internal/tui/capture/capture.go:110-119 | sending one more value acts on the queue the earlier sends left |
| Capture.NonEmpty | internal/tui/capture/capture.go:110-112 | the reader keeps no more lines than it scans, and none of them is empty |
| Capture.NonEmptyMembers | internal/tui/capture/capture.go:110-112 | a line is enqueued exactly when it was scanned and is non-empty |
| Capture.Enqueue | internal/tui/capture/capture.go:109-119 | the scan loop offers each non-empty line to the queue in order |
| Capture.OutputCapture.constructor | internal/tui/capture/capture.go:26-31 | a new capture is idle, not redirected, owns no pipes, and has two empty queues |
| Capture.OutputCapture.Start | internal/tui/capture/capture.go:34-75 | starting twice changes nothing; a failed first pipe leaves everything as it was; a failed second pipe closes the first; success redirects, opens four pipe ends and starts capturing; the queues are untouched |
| Capture.OutputCapture.Stop | internal/tui/capture/capture.go:78-103 | never fails; stopping an idle capture changes nothing; otherwise the streams are restored and all four pipe ends closed |
| Capture.OutputCapture.ReadOutput | internal/tui/capture/capture.go:106-120 | only the stream's own queue changes, by offering its non-empty lines in order |
| Capture.OutputCapture.GetAllOutput | internal/tui/capture/capture.go:123-146 | the result is every queued stdout line, then every queued stderr line; both queues end empty |
| Capture.Kept | internal/tui/capture/capture.go:28-29 | a stream keeps at most 100 lines, a prefix of its non-empty lines, and all of them when they fit |
| Capture.CaptureFunction | internal/tui/capture/capture.go:149-170 | a failing pipe means the function does not run and there is no output; otherwise the function's error is returned with the kept stdout lines followed by the kept stderr lines |
| Cli.RunExecutor | internal/cli/executor.go:42-93 | an executor fails on its own only for the Wi-Fi commands, exactly when pair-wifi lacks the IP or the code, or connect/disconnect lacks the IP |
| Cli.ExecuteCommand | internal/cli/executor.go:18-39 | the registry holds exactly the eleven direct command names; any other name fails with "unknown command: …", and a registered name fails before running only for a Wi-Fi command |
| Cli.ValueRequired | internal/cli/executor.go:173-175 | the missing-value message names the command and, in parentheses, the expected value |
| Cli.FirstMatch | internal/cli/executor.go:107-113 | the index returned is the first element whose key matches, or -1 exactly when none matches |
| Cli.Find | internal/cli/executor.go:107-113 | the search loop returns the first match |
| Cli.FirstMatchUnique | internal/cli/executor.go:107-113 | an element that matches with no match before it is the one found |
| Cli.ChooseDevice | internal/cli/executor.go:107-126 | no devices is an error; a given serial selects exactly a device with that serial or fails naming it; with no serial one device is chosen and several are refused |
| Cli.SelectDevice | internal/cli/executor.go:96-127 | a failed device query is reported and prints nothing; otherwise the choice is that of ChooseDevice on the parsed listing and the printed lines are SelectionListing's: the prompt and the device list only when several devices refuse the choice |
| Cli.SelectionListing | internal/cli/executor.go:116-126 | something is printed only when the choice is the refusal to guess among several devices |
| Cli.DeviceListing | internal/cli/executor.go:244-246 | one indented line per device, in order, holding that device's description |
| Cli.ExecuteScreenshotDirect | internal/cli/executor.go:129-137 | a selection error is returned with no adb call and only the selection's listing printed; otherwise exactly the screenshot calls for the selected device run, "Taking screenshot on device: SERIAL" is printed first and "Screenshot saved to: PATH" follows exactly when the screenshot succeeded |
| Cli.ExecuteScreenshotDayNightDirect | internal/cli/executor.go:139-147 | a selection error is returned with no adb call and only the selection's listing printed; otherwise the day/night script runs on the selected device up to the first failing step, the error is that step's message, and the output is "Taking day-night screenshots on device: SERIAL" followed by what the day/night run prints |
| Cli.ExecuteScreenRecordDirect | internal/cli/executor.go:149-170 | a selection error stops before recording with only the selection's listing printed; otherwise the two announcement lines are printed, a failed start is returned, and after a start "Stopping recording..." and everything StopAndSave prints follow, with success exactly when stop-and-save succeeds |
| Cli.ExecuteSettingChange | internal/cli/executor.go:172-189 | an empty value fails before the device query and prints nothing; a selection error prints only the selection's listing; a validation error stops before any change and prints nothing; otherwise "ACTION to VALUE on device: SERIAL" is printed, exactly one set call runs on that device, and the handler's change line follows exactly when it succeeds |
| Cli.SetCallTargetsDevice | internal/cli/executor.go:182-188 | the set call a validated value produces is addressed to the selected device |
| Cli.ChooseAvd | internal/cli/executor.go:203-236 | no AVDs is an error; a given name selects exactly an AVD of that name or fails naming it; with no name one AVD is chosen and several are refused |
| Cli.AvdListing | internal/cli/executor.go:232-234 | one indented line per AVD, in order, holding that AVD's list entry |
| Cli.ExecuteLaunchEmulatorDirect | internal/cli/executor.go:203-236 | a listing or selection error launches nothing; otherwise the chosen AVD is launched with the emulator's arguments after "Launching emulator: NAME" is printed; with several AVDs and no name, the prompt line and the AVD listing are printed and nothing else is printed on an error |
| Cli.ExecuteRefreshDevices | internal/cli/executor.go:238-248 | a failed query is returned; otherwise a count line followed by one line per parsed device |
| Program.ChooseCommand | main.go:46-52 | the -command flag wins; otherwise the first positional argument is the command and is removed from the list |
| Program.StartsTUIIff | main.go:46-65 | the interactive UI starts exactly when -command is empty and the first positional argument is missing or empty |
| Program.ParsePositionalArgs | main.go:86-135 | positional arguments fill only the fields whose flag was empty, per command: IP and code for pair-wifi, IP for connect/disconnect, AVD name for launch-emulator, device for the device commands |
| Program.ChangeHeuristic | main.go:108-121 | for change-* with no device flag, two arguments are device then value, and one argument is a device only when it looks like one |
| Program.ChangeWithDeviceFlag | main.go:108-121 | with -device given, the first positional argument of change-* is the value |
| Program.DirectActionAgreesWithRegistry | main.go:138-182 | the entry point's switch and the CLI registry do the same thing for every command name and argument |
| Program.HelpListsRejectedNames | main.go:30-32 | the help text lists catalog names such as "dpi" and "wifi" that the direct switch rejects as unknown |
| Core.GetAvailableCommands | internal/tui/core/commands.go:6-18 | the UI's command list is the catalog's, entry for entry and in order |
| Core.FromRegistry | internal/tui/core/commands.go:10-15 | a converted command keeps the catalog entry's command, name, description and category |
| Core.GetCommandCategories | internal/tui/core/commands.go:20-39 | the UI's categories are the catalog's, in order, each with the same commands in the same order |
| Core.ShortenHomePath | internal/tui/core/utils.go:10-21 | a path under the home directory gets "~" in place of the home prefix; any other path, or an unknown home, is left as is |
| Core.ShortenHomePathRoundTrip | internal/tui/core/utils.go:10-21 | putting the home directory back in place of "~" gives the original path |
| Core.FormatErrorMessage | internal/tui/core/utils.go:24-26 | the message starts with the operation and device and ends with the error |
| Core.FormatSuccessMessage | internal/tui/core/utils.go:29-34 | the details, when present, follow the completion line on a line of their own |
| Display.NormalizeCPUArchitecture | internal/display/formatting.go:13-26 | the four Android ABIs map to ARM64, ARM32, x64 and x86; any other name passes through |
| Display.NormalizeIdempotent | internal/display/formatting.go:13-26 | normalising a normalised name changes nothing |
| Display.FormatExtendedInfoWithIndent | internal/display/formatting.go:29-34 | extended information, when present, follows on a new line indented by four spaces |
| Emulator.AvdDetailParts | internal/emulator/emulator.go:36-45 | at most three detail parts, none exactly when API level, architecture and resolution are all empty |
| Emulator.AvdString | internal/emulator/emulator.go:25-52 | the description starts with the display name (the AVD name when there is none) and adds the bullet-joined details in parentheses only when there are some |
| Emulator.ReadTargetAndPathFromIni | internal/emulator/emulator.go:128-147 | an unreadable file gives two empty values; otherwise the target and path found by scanning the lines |
| Emulator.IniValuesLastWins | internal/emulator/emulator.go:137-144 | the target and path read are those of the last line with each prefix, or empty when none has it |
| Emulator.ReadTargetFromIni | internal/emulator/emulator.go:122-125 | never fails; gives the last target value, or empty |
| Emulator.KeyValue | internal/emulator/emulator.go:163-173 | a line yields a key and value exactly when, once trimmed, it is non-empty, not a comment and contains " = " |
| Emulator.ApiFromSysdir | internal/emulator/emulator.go:189-197 | the API level found comes from a path part starting with "android-", and none is found only when no part starts so |
| Emulator.KeyStep | internal/emulator/emulator.go:175-186 | a key never touches the API level, and sets the architecture only from abi.type or hw.cpu.arch while it is still empty |
| Emulator.ApiStep | internal/emulator/emulator.go:189-197 | the sysdir step changes nothing but the API level |
| Emulator.DetailsOf | internal/emulator/emulator.go:200-203 | the resolution is width x height when both were read and empty otherwise |
| Emulator.ReadAVDDetails | internal/emulator/emulator.go:150-206 | an unreadable file gives no details; otherwise the line-by-line scan equals the details of the whole file |
| Emulator.ApplyConfigLine | internal/emulator/emulator.go:163-197 | one loop iteration is one step of the configuration scan |
| Emulator.FindApiLevel | internal/emulator/emulator.go:190-196 | the loop stops at the first "android-" part, as the scan function specifies |
| Emulator.LineStepArchitecture | internal/emulator/emulator.go:178-181 | one line sets the architecture only when it is unset and the key is an architecture key |
| Emulator.ArchitectureFirstWins | internal/emulator/emulator.go:178-181 | the architecture of a whole file is that of its first architecture line |
| Emulator.AvdFromEntry | internal/emulator/emulator.go:75-104 | the AVD's name is the entry without ".ini", and its path is the one in the .ini or else the directory's NAME.avd |
| Emulator.AvdsOfNames | internal/emulator/emulator.go:74-108 | one AVD per .ini entry, each named after an entry |
| Emulator.GetAVDsFromDirectory | internal/emulator/emulator.go:61-111 | a missing home directory or an unreadable AVD directory is reported; otherwise the AVDs of ~/.android/avd |
| Emulator.GetAvailableAVDs | internal/emulator/emulator.go:55-58 | the listing is that of the AVD directory, and fails when reading it fails |
| Emulator.LaunchArgs | internal/emulator/emulator.go:211 | the emulator runs with -avd and the AVD's name |
| Emulator.LaunchEmulator | internal/emulator/emulator.go:209-221 | the launch fails exactly when the process cannot start, with the cause in the message |
| Messaging.Pair | internal/tui/messaging/commands.go:18-19 | a (value, error) pair carries the value exactly when the call succeeded and the error exactly when it failed |
| Messaging.LoadDevicesCmd | internal/tui/messaging/commands.go:16-21 | the message carries the devices on success and an empty list with the error on failure |
| Messaging.LoadAvdsCmd | internal/tui/messaging/commands.go:24-29 | the message carries the AVDs on success and an empty list with the error on failure |
| Messaging.LoadSettingCmd | internal/tui/messaging/commands.go:32-38 | the message holds setting information exactly when it holds no error, and that information is for the requested setting |
| Messaging.StartScreenRecordCmd | internal/tui/messaging/commands.go:74-79 | the message holds a recording exactly when starting succeeded, and an error exactly when it failed |
| Messaging.ChangeSettingCmd | internal/tui/messaging/commands.go:41-71 | an invalid value is reported with no adb call; otherwise one set call runs and the message says "changed to" on success or "Failed to change" with the cause |
| Media.MediaFeature.constructor | internal/tui/features/media/types.go:26-30 | a new feature has no operation in progress and no recording |
| Media.MediaFeature.StartScreenshot | internal/tui/features/media/types.go:58-60 | sets only the screenshot flag |
| Media.MediaFeature.StartDayNightScreenshot | internal/tui/features/media/types.go:63-65 | sets only the day/night flag |
| Media.MediaFeature.StartRecording | internal/tui/features/media/types.go:68-70 | sets only the recording flag |
| Media.MediaFeature.FinishScreenshot | internal/tui/features/media/types.go:73-75 | clears only the screenshot flag |
| Media.MediaFeature.FinishDayNightScreenshot | internal/tui/features/media/types.go:78-80 | clears only the day/night flag |
| Media.MediaFeature.FinishRecording | internal/tui/features/media/types.go:83-86 | clears the recording flag and forgets the recording, nothing else |
| Media.MediaFeature.SetActiveRecording | internal/tui/features/media/types.go:89-91 | stores the recording, nothing else |
| Media.MediaFeature.HandleScreenshotDone | internal/tui/features/media/handlers.go:11-18 | the screenshot flag is cleared; success shows the message, failure shows "Screenshot failed: " and the message |
| Media.MediaFeature.HandleDayNightScreenshotDone | internal/tui/features/media/handlers.go:21-28 | the day/night flag is cleared; success shows the message, failure shows "Day-night screenshots failed: " and the message |
| Media.MediaFeature.HandleRecordingStarted | internal/tui/features/media/handlers.go:31-39 | a start error clears the recording flag and is shown; otherwise the recording is stored |
| Media.MediaFeature.HandleScreenRecordDone | internal/tui/features/media/handlers.go:42-49 | recording ends and is forgotten; success shows the message, failure shows "Screen recording failed: " and the message |
| Media.MediaFeature.GetStatusText | internal/tui/features/media/handlers.go:52-63 | the status is empty exactly when nothing is in progress, and names the first active operation in the order screenshot, day/night, recording |
| Media.ExecuteScreenshotSingle | internal/tui/features/media/commands.go:63-90 | the captured output is passed on; success exactly when both adb steps succeed; a failure names the device and the first failing step |
| Media.StopAndSaveRecordingCmd | internal/tui/features/media/commands.go:40-60 | the captured output is passed on; success exactly when stopping, checking, creating the directory and pulling all succeed |
| Media.DayNightError | internal/tui/features/media/commands.go:142-194 | the sequence fails exactly when one of its four steps fails; restoring light mode never fails it |
| Media.DayNightProgressShape | internal/tui/features/media/commands.go:150-189 | the progress begins with the device line, has between three and nine lines, and a failure's last line carries the error |
| Media.ExecuteDayNightWithProgress | internal/tui/features/media/commands.go:142-194 | the step-by-step run returns the sequence's error and reports its progress lines in order |
| Media.CreateStreamingDayNightCommand | internal/tui/features/media/commands.go:109-139 | the progress channel receives every progress line followed by "Command failed: …" when the sequence fails, none dropped |
| Media.SendProgress | internal/tui/features/media/commands.go:117-123 | sending each line without blocking keeps what fits in the channel's buffer |
| WiFiTui.ExecuteWiFiOperation | internal/tui/features/wifi/commands.go:29-73 | the message is of the operation's kind, succeeds exactly when the operation did, and carries the error or the operation's success text |
| WiFiTui.HandleWiFiDone | internal/tui/features/wifi/handlers.go:11-32 | success shows the message; failure shows the operation's "WiFi … failed: " prefix and the message |
| WiFiTui.WiFiOutcomeShown | internal/tui/features/wifi/commands.go:29-73 | end to end, a Wi-Fi operation shows its success text or its failure prefix with the error |
| DevicesTui.DevicesFeature.constructor | internal/tui/features/devices/types.go:19-25 | a new feature has empty lists and both selections at zero |
| DevicesTui.DevicesFeature.SetSelectedDevice | internal/tui/features/devices/types.go:48-52 | an index inside the list is selected and any other is ignored |
| DevicesTui.DevicesFeature.SetSelectedEmulator | internal/tui/features/devices/types.go:55-59 | an index inside the list is selected and any other is ignored |
| DevicesTui.DevicesFeature.GetSelectedDeviceInstance | internal/tui/features/devices/types.go:62-67 | the selected device, or none exactly when the selection is past the list |
| DevicesTui.DevicesFeature.GetSelectedEmulatorInstance | internal/tui/features/devices/types.go:70-75 | the selected AVD, or none exactly when the selection is past the list |
| DevicesTui.DevicesFeature.SetDevices | internal/tui/features/devices/types.go:78-84 | the list is replaced and a selection past its end is reset to zero |
| DevicesTui.DevicesFeature.SetAvds | internal/tui/features/devices/types.go:87-93 | the list is replaced and a selection past its end is reset to zero |
| DevicesTui.DevicesFeature.HandleDevicesLoaded | internal/tui/features/devices/handlers.go:12-24 | the devices are stored even on error; the error, or "no devices connected" for an empty list, is shown |
| DevicesTui.DevicesFeature.HandleAvdsLoaded | internal/tui/features/devices/handlers.go:27-35 | the AVDs are stored even on error, and the error is shown |
| DevicesTui.DevicesFeature.LaunchSelectedEmulator | internal/tui/features/devices/handlers.go:38-52 | no selection is an error; otherwise the selected AVD is launched; a failed launch reports the doubly prefixed error with no success text, and only a successful launch reloads the device list |
| SettingsTui.SettingsFeature.constructor | internal/tui/features/settings/types.go:16-20 | a new feature has no setting loaded |
| SettingsTui.SettingsFeature.SetCurrentSettingInfo | internal/tui/features/settings/types.go:33-38 | stores the information and, when there is some, its setting type |
| SettingsTui.SettingsFeature.ClearCurrentSetting | internal/tui/features/settings/types.go:41-44 | forgets the information and the setting type |
| SettingsTui.SettingsFeature.HandleSettingLoaded | internal/tui/features/settings/handlers.go:12-19 | an error is shown and leaves the state alone; otherwise the information is stored, and the current setting type follows it or stays as it was when no information came |
| SettingsTui.HandleSettingChanged | internal/tui/features/settings/handlers.go:22-28 | success shows the message and asks to reload the setting; failure shows "Setting change failed: " and the message |
| Logger.LevelString | internal/logger/logger.go:18-31 | each of the four levels has its name, anything else is "UNKNOWN" |
| Logger.LevelStringInjective | internal/logger/logger.go:18-31 | the four levels have four different names, none of them "UNKNOWN" |
| Logger.LevelColor | internal/logger/cli_renderer.go:27-37 | errors are red, successes green, debug gray, everything else uncoloured |
| Logger.CLIRender | internal/logger/cli_renderer.go:42-52 | an entry goes to standard error exactly when it is an error |
| Logger.CLIRenderAddsNewline | internal/logger/cli_renderer.go:40-52 | the printed text is colour, message, reset and a newline: the output always ends in the reset code, so the newline is always added |
| Logger.TUIRenderer.constructor | internal/logger/tui_renderer.go:20-24 | the renderer sends to the given channel |
| Logger.TUIRenderer.Render | internal/logger/tui_renderer.go:27-44 | without a channel nothing happens; otherwise the entry is offered without blocking and dropped when the channel is full |
| Logger.GlobalLogger.constructor | internal/logger/logger.go:56-58 | the global logger starts with no renderer and nothing printed |
| Logger.GlobalLogger.SetRenderer | internal/logger/logger.go:64-68 | replaces the renderer and prints nothing |
| Logger.GlobalLogger.Log | internal/logger/logger.go:86-102 | with no renderer nothing is logged; the terminal renderer prints the entry; the UI renderer offers it to its channel |
| Logger.GlobalLogger.Info | internal/logger/logger.go:70-72 | one entry at the info level: the terminal renderer prints it, the UI renderer offers it to its channel, and nothing happens without a renderer |
| Logger.GlobalLogger.Error | internal/logger/logger.go:74-76 | one entry at the error level: the terminal renderer prints it on standard error, the UI renderer offers it to its channel, and nothing happens without a renderer |
| Logger.GlobalLogger.Success | internal/logger/logger.go:78-80 | one entry at the success level: the terminal renderer prints it on standard output, the UI renderer offers it to its channel, and nothing happens without a renderer |
| Logger.GlobalLogger.Debug | internal/logger/logger.go:82-84 | one entry at the debug level: the terminal renderer prints it, the UI renderer offers it to its channel, and nothing happens without a renderer |
| Registry.GetAvailableCommands | internal/registry/commands.go:18-30 | nine catalog entries, each in one of the four categories |
| Registry.GetTUICommands | internal/registry/commands.go:33-48 | twelve entries, each in one of the four categories, the first six the same as the catalog's |
| Registry.AvailableNamesDistinct | internal/registry/commands.go:18-30 | no two catalog entries share a command name |
| Registry.TUINamesDistinct | internal/registry/commands.go:33-48 | no two UI entries share a command name |
| Registry.TUILaterNamesDistinct | internal/registry/commands.go:41-46 | the six UI-only entries have distinct command names |
| Registry.TUICrossNamesDistinct | internal/registry/commands.go:35-46 | no UI-only entry reuses a name of the six shared entries |
| Registry.GetTUICommandCategories | internal/registry/commands.go:51-74 | the UI's categories are the grouping of its commands in the fixed category order |
| Registry.GroupByCategory | internal/registry/commands.go:60-71 | the loop over the category order builds exactly that grouping |
| Registry.BucketByCategory | internal/registry/commands.go:53-58 | the map has a key exactly for each category with commands, holding those commands in their original order |
| Registry.CommandsInMembers | internal/registry/commands.go:56-58 | a category's bucket holds exactly the commands of that category |
| Registry.GroupedShape | internal/registry/commands.go:60-73 | at most one group per ordered category, each non-empty, holding that category's commands, in the order of the category list |
| Registry.GroupedComplete | internal/registry/commands.go:52-73 | every command of a listed category appears in its category's group |
| Registry.TUICategoriesCoverCatalog | internal/registry/commands.go:51-74 | every UI command is shown in its category |
| Registry.GetAvailableCommandNames | internal/registry/commands.go:77-84 | the names are the catalog's command names, in order |
| Sequencing.FirstFailure | internal/commands/screenshot.go:69-107 | the index of the first failing step: every step before it succeeded, and it failed unless it is the step count |
| Sequencing.FirstFailureExtend | internal/commands/screenshot.go:69-107 | running more steps does not move a failure that already happened within the shorter run |
| Screenshot.NamesDiffer | internal/commands/screenshot.go:15-57 | the single, day and night file names share the timestamp prefix and are pairwise different, so the day/night pair never overwrite each other |
| Screenshot.DarkModeArgs | internal/commands/screenshot.go:42-50 | night mode is set with "cmd uimode night", "yes" exactly when enabling and "no" exactly when disabling |
| Screenshot.TakeScreenshot | internal/commands/screenshot.go:12-39 | the calls are screencap, pull, then remove, cut off right after the first failing step; it fails exactly when screencap or pull fails, with that step's message; "Screenshot saved to: PATH" is printed exactly when it succeeds |
| Screenshot.ScreenshotOrder | internal/commands/screenshot.go:23-35 | a failed screencap makes no further call; the file is removed from the device only after both steps succeed |
| Screenshot.TakeDayNightScreenshots | internal/commands/screenshot.go:53-123 | the script runs up to and including the first failing step; it fails exactly when one of its six checked steps fails, with that step's message; the progress lines are printed up to that step, and after a full run a failed restore only adds "Warning: failed to restore light mode: ERROR" |
| Screenshot.SavedLinesTruthful | internal/commands/screenshot.go:87-109 | the day shot is reported saved exactly when its pull succeeded, and the night shot exactly when the whole run did |
| Screenshot.DayBeforeNight | internal/commands/screenshot.go:77-99 | the day picture is pulled before dark mode is switched on and the night picture taken |
| Screenshot.DayNightEndsLight | internal/commands/screenshot.go:69-114 | the sequence restores the same light-mode call it started with, after turning dark mode on in between |
| ScreenRecord.RemotePathTimestamp | internal/commands/screenrecord.go:31-32 | the remote file lies in /sdcard/, ends in .mp4 and carries the timestamp, which can be read back from it |
| ScreenRecord.StartScreenRecord | internal/commands/screenrecord.go:24-52 | the recording process is adb screenrecord on the device; a failed start is reported; otherwise the recording remembers the device, its process, and the local and remote paths, both built from the one timestamp |
| ScreenRecord.Dir | internal/commands/screenrecord.go:81 | a path with no separator lies in the current directory |
| ScreenRecord.DirOfJoin | internal/commands/screenrecord.go:81 | the directory of a file joined under a directory is that directory |
| ScreenRecord.StopAndSave | internal/commands/screenrecord.go:55-119 | a failed interrupt stops everything and prints nothing; otherwise it succeeds exactly when the file exists on the device, the local directory can be created and one of the two pulls succeeds; it prints the file listing once the file is found, then the pull command, each failed attempt's error and quoted output, and "Screen recording saved to: PATH" after a successful pull |
| ScreenRecord.SavedReportedLast | internal/commands/screenrecord.go:89-118 | the recording is reported saved, as the last line, exactly when one of the pulls succeeded |
| Text.UnescapeEscape | internal/commands/screenrecord.go:108-109 | the `%q` quoting of a pull's output loses nothing: reading its escapes back gives the output exactly |
| Text.EscapeSingleLine | internal/commands/screenrecord.go:108-109 | a quoted output never spans lines, whatever newlines the output holds |
| Text.EscapePlain | internal/commands/screenrecord.go:108-109 | printable ASCII output without quotes or backslashes appears unchanged between the quotes |
| ScreenRecord.RecordingDirectory | internal/commands/screenrecord.go:27-84 | the directory created for the recording is the media directory |
| Density.DensityStep | internal/commands/dpi.go:31-48 | a line changes the physical or override density only when it carries that label and an integer third field |
| Density.DpiFromOutput | internal/commands/dpi.go:27-62 | parsing fails exactly when no physical density was read; otherwise the current density is the override when positive and the physical one otherwise |
| Density.GetCurrentDPI | internal/commands/dpi.go:17-63 | runs "wm density" on the device; a failed call is reported, otherwise the output is parsed |
| Density.SetDPI | internal/commands/dpi.go:65-74 | runs "wm density N" on the device and fails exactly when that call fails, naming the value; only a success prints "DPI changed to N on device SERIAL" |
| ScreenSize.SizeFromOutput | internal/commands/screensize.go:26-53 | parsing fails exactly when no physical size was read; otherwise the current size is the override when present and the physical one otherwise |
| ScreenSize.ScanSizeNoSpace | internal/commands/screensize.go:30-42 | sizes read from fields never contain blanks |
| ScreenSize.GetCurrentScreenSize | internal/commands/screensize.go:16-54 | runs "wm size" on the device; a failed call is reported, otherwise the output is parsed |
| ScreenSize.SizeError | internal/commands/screensize.go:58-68 | a size is rejected exactly when it is not two integers separated by one "x" |
| ScreenSize.ValidateSize | internal/commands/setting.go:140-153 | the validation loop rejects exactly what SizeError rejects, with the same message |
| ScreenSize.SetScreenSize | internal/commands/screensize.go:56-78 | an invalid size is refused before any adb call; otherwise "wm size" runs once and its failure is reported; only a success prints "Screen size changed to SIZE on device SERIAL" |
| Setting.GetSettingHandler | internal/commands/setting.go:37-48 | a handler exists exactly for the three setting types, and it is the one for that type |
| Setting.HandlerRoundTrip | internal/commands/setting.go:37-48 | each handler is found again under its own type |
| Setting.GetInfo | internal/commands/setting.go:53-134 | the information is for the handler's setting; it exists exactly when the device output can be parsed; a failed query is reported with "failed to get current DPI: " or "failed to get current screen size: " in front, a parse error or a font-size error is passed on unchanged, and the font-size entry shows the read current and default scales |
| Setting.DpiInfoMapping | internal/commands/setting.go:53-66 | the DPI entry shows the effective density as current and the physical one as default |
| Setting.ScreenSizeInfoMapping | internal/commands/setting.go:113-127 | the screen-size entry shows the current size as current and the physical size as default, with the size prompt |
| Setting.FontSizeInfoMapping | internal/commands/setting.go:86-100 | the font-size entry shows the formatted current and default scales, with the font-size prompt |
| Setting.ValidateInput | internal/commands/setting.go:76-153 | DPI accepts exactly integers, font size exactly what parses as a float, screen size exactly WxH with integer parts |
| Setting.SetValue | internal/commands/setting.go:68-138 | every handler rejects what ValidateInput rejects, before any adb call; otherwise exactly one call runs, the right one for the setting, and fails exactly when adb does; a failure prints nothing and a success prints the handler's change line (dpi.go:72, fontsize.go:54, screensize.go:76) |
| CliTest.FirstColonAfterKey | test/cli/cli_test.go:222-223 | for a key without a colon, the first colon of "key:…" is the one right after the key |
| CliTest.KeySplit | test/cli/cli_test.go:222-225 | splitting at the first colon yields the key exactly when the token starts with "key:", and then the rest is the token without that prefix |
| CliTest.TokenParsersAgree | test/cli/cli_test.go:220-237 | the test's property parsing (split at the first colon, switch on the key) assigns exactly what the adb package's prefix checks assign |
| CliTest.ParseDeviceLine | test/cli/cli_test.go:209-240 | the test's copy of the line parser gives the adb package's device, and none exactly for a line of fewer than two fields |
| CliTest.ParseADBDevicesOutput | test/cli/cli_test.go:188-206 | the test's copy never fails and gives the devices the adb package parses from the lines after the header |
| CliTest.GetConnectedDevicesWithFake | test/cli/cli_test.go:174-185 | a failing fake is reported as the adb package reports it; otherwise the devices are those the adb package parses |
| CliTest.ListingParses | test/cli/util/exec_faker.go:144-146 | a line in the fakes' listing format (serial, tab, "device", then the product, model, device and transport id tokens) is a single line and parses to one device carrying exactly those values |
| CliTest.EmptyFixture | test/cli/util/exec_faker.go:192-195 | the empty listing parses to no device |
| CliTest.SingleFixture | test/cli/cli_test.go:243-258 | the single-device listing parses to exactly one device, with serial "emulator-5554", status "device" and product "sdk_gphone64_x86_64" |
| CliTest.MultipleFixture | test/cli/util/exec_faker.go:183-189 | the two-device listing parses to the emulator and then the Wi-Fi device "192.168.1.100:5555" |
| TestHelpers.JoinSnoc | test/cli/util/helpers.go:53-56 | appending one argument appends a space and that argument |
| TestHelpers.JoinArgs | test/cli/util/helpers.go:49-58 | the loop joins the arguments with single spaces, and no arguments give the empty string |
| TestHelpers.ContainsSubstring | test/cli/util/helpers.go:39-46 | the scan finds the substring exactly when it occurs at some position |
| TestHelpers.ContainsPatternIsContains | test/cli/util/helpers.go:31-37 | the four-way pattern test is plain substring containment |
| TestHelpers.FullCommand | test/cli/util/helpers.go:21-24 | a command without arguments is its name alone; otherwise the name and a space come first |
| TestHelpers.MatchesOwnCommand | test/cli/util/helpers.go:19-28 | an executed command always matches its own name as pattern |
| TestHelpers.FormatExecutedCommands | test/cli/util/helpers.go:61-71 | one line per executed command, in order, each its full command text |
| Fakes.MatchesIsSuffix | test/cli/util/exec_faker.go:102-109 | a stub answers a command exactly when the command ends with the stub's command and the arguments are equal |
| Fakes.FirstStub | test/cli/util/exec_faker.go:88-95 | the stub used is the first matching one, or none when no stub matches |
| Fakes.HelperEnv | test/cli/util/exec_faker.go:85-96 | the helper environment always flags the helper process and carries a response exactly when some stub matches |
| Fakes.HelperArgs | test/cli/util/exec_faker.go:80-81 | the helper is run with its test filter, "--", the command and then the original arguments |
| Fakes.EarlierStubWins | test/cli/util/exec_faker.go:88-95 | adding a stub does not change the answer to a command an earlier stub already answers |
| Fakes.FindStub | test/cli/util/exec_faker.go:88-95 | the search loop finds the first matching stub |
| Fakes.FirstStubPrefix | test/cli/util/exec_faker.go:88-95 | a stub that answers within a prefix of the list is the answer for the whole list |
| Fakes.ArgsMatch | test/cli/util/exec_faker.go:112-124 | two argument lists match exactly when they are equal |
| Fakes.ResponseEnv | test/cli/util/exec_faker.go:85-97 | the environment built step by step is the helper environment |
| Fakes.ShellArgs | test/cli/util/exec_faker.go:134-137 | a shell stub's arguments are those the adb package sends to the device's shell |
| Fakes.GenericExecFaker.constructor | test/cli/util/exec_faker.go:32-37 | a new faker has no stubs and has run nothing |
| Fakes.GenericExecFaker.AddStub | test/cli/util/exec_faker.go:40-48 | appends one stub and leaves the record of executions alone |
| Fakes.GenericExecFaker.FakeExecCommand | test/cli/util/exec_faker.go:73-99 | records the execution, leaves the stubs alone, and builds the helper's arguments and environment |
| Fakes.GenericExecFaker.FindExecutedCommand | test/cli/util/exec_faker.go:61-70 | finds the first executed command with that suffix and, if arguments are given, those arguments |
| Fakes.GenericExecFaker.StubADBDevicesCommand | test/cli/util/exec_faker.go:129-131 | appends a stub for "devices -l" with the given response |
| Fakes.GenericExecFaker.StubADBShellCommand | test/cli/util/exec_faker.go:134-138 | appends a stub for a shell command on the device |
| Fakes.GenericExecFaker.StubSingleDevice | test/cli/util/exec_faker.go:143-148 | appends a device listing with one emulator |
| Fakes.GenericExecFaker.StubMultipleDevices | test/cli/util/exec_faker.go:183-189 | appends a device listing with an emulator and a Wi-Fi device |
| Fakes.GenericExecFaker.StubEmptyDevices | test/cli/util/exec_faker.go:192-195 | appends a device listing with no device |
| Fakes.GenericExecFaker.StubADBError | test/cli/util/exec_faker.go:198-200 | appends a failing "devices -l" stub |
| Fakes.GenericExecFaker.StubDPIGet | test/cli/util/exec_faker.go:151-153 | appends a stub answering "wm density" |
| Fakes.GenericExecFaker.StubDPISet | test/cli/util/exec_faker.go:156-158 | appends a stub answering "wm density VALUE" |
| Fakes.GenericExecFaker.StubScreenSizeGet | test/cli/util/exec_faker.go:161-163 | appends a stub answering "wm size" |
| Fakes.GenericExecFaker.StubScreenSizeSet | test/cli/util/exec_faker.go:166-168 | appends a stub answering "wm size VALUE" |
| Fakes.GenericExecFaker.StubFontSizeGet | test/cli/util/exec_faker.go:171-173 | appends a stub answering the font-scale query |
| Fakes.GenericExecFaker.StubFontSizeSet | test/cli/util/exec_faker.go:176-178 | appends a stub answering the font-scale change |
| Fakes.FirstExecuted | test/cli/util/exec_faker.go:61-70 | a record found was executed and matches; none is found exactly when no record matches |
| Fakes.FirstExecutedPrefix | test/cli/util/exec_faker.go:61-70 | the first matching record is found even when later ones match too |
| Fakes.DPISetStubAnswersSetDPI | test/cli/util/exec_faker.go:156-158 | the DPI-set stub answers exactly the call the DPI command makes, whatever directory adb is found in |
| Fakes.ExecFaker.constructor | test/cli/fake.go:26-30 | a new faker has no fakes |
| Fakes.ExecFaker.AddFake | test/cli/fake.go:33-41 | appends one fake |
| Fakes.ExecFaker.FakeADBDevicesList | test/cli/fake.go:44-49 | appends the listing for both the bare and the full adb path |
| Fakes.ExecFaker.FakeADBDevicesEmpty | test/cli/fake.go:52-54 | appends an empty listing for both adb paths |
| Fakes.ExecFaker.FakeADBDevicesSingle | test/cli/fake.go:57-62 | appends a one-device listing for both adb paths |
| Fakes.ExecFaker.FakeADBDevicesMultiple | test/cli/fake.go:65-71 | appends a two-device listing for both adb paths |
| Fakes.ExecFaker.FakeADBError | test/cli/fake.go:74-77 | appends a failing listing for both adb paths |
| Fakes.ExecFaker.FakeExecCommand | test/cli/fake.go:80-100 | builds the helper's arguments and an environment carrying the first matching fake |
| Fakes.BareAdbFakeAnswersBoth | test/cli/fake.go:44-121 | the bare "adb" fake, added first, answers both the bare and the full adb path |
| Tracking.ParseTrackLine | internal/adb/tracking.go:41-53 | an event has a non-empty serial and one of the three meaningful statuses, and a blank line gives none |
| Tracking.ParseTrackLineWellFormed | internal/adb/tracking.go:41-53 | a "SERIAL<tab>STATUS" line with a meaningful status gives exactly that event |
| Tracking.EventsOfWellFormed | internal/adb/tracking.go:40-61 | at most one event per line, each well formed |
| Tracking.TrackDevices | internal/adb/tracking.go:19-71 | a pipe or start failure is reported; otherwise the channel receives the events of the output that fit in its buffer of ten |
| Tracking.ForwardEvents | internal/adb/tracking.go:34-68 | the forwarding loop offers each event of the output in turn |
| Tracking.TrackedEventsArePrefix | internal/adb/tracking.go:20-58 | with no reader, the channel keeps the first ten events, in order |
| TuiSearch.ScanFromInv | internal/tui/model.go:239-261 | the character scan keeps its invariant to the end: matched characters, their increasing positions and the running score agree |
| TuiSearch.EmbedsDropFirst | internal/tui/model.go:239-261 | a filter embedded in order in a string still is once its first character is removed |
| TuiSearch.ScanMatchesAll | internal/tui/model.go:239-264 | the greedy scan matches every filter character exactly when the filter is embedded, in order, in the rest of the string |
| TuiSearch.StringScorePositive | internal/tui/model.go:226-298 | a string scores above zero exactly when the filter is non-empty and embedded in it in order, and then at least ten per filter character |
| TuiSearch.FuzzyMatchStringScore | internal/tui/model.go:226-298 | the imperative scoring computes the specified string score |
| TuiSearch.ScanString | internal/tui/model.go:234-261 | the character loop computes the scan of the whole string and keeps its invariant |
| TuiSearch.SumPositions | internal/tui/model.go:270-273 | the loop sums the match positions |
| TuiSearch.CommandScorePositive | internal/tui/model.go:203-223 | a command scores above zero exactly when the filter is embedded in its lower-cased name or description; a name match adds 50 on top of the better of the two |
| TuiSearch.FuzzyMatchScore | internal/tui/model.go:203-223 | the imperative command score computes the specified one |
| TuiSearch.Matches | internal/tui/model.go:181-185 | the matches are catalog commands, each with its own positive score |
| TuiSearch.MatchesComplete | internal/tui/model.go:181-185 | every command with a positive score is among the matches |
| TuiSearch.Insert | internal/tui/model.go:188-190 | insertion adds exactly one element |
| TuiSearch.InsertPermutes | internal/tui/model.go:188-190 | insertion adds the new match and loses nothing |
| TuiSearch.InsertSorted | internal/tui/model.go:188-190 | inserting into a list sorted by decreasing score keeps it sorted |
| TuiSearch.SortByScore | internal/tui/model.go:188-190 | the result is sorted by decreasing score and is a permutation of the matches |
| TuiSearch.Catalog | internal/tui/core/commands.go:6-18 | the UI catalog is the registry's, entry for entry |
| TuiSearch.FilterCommands | internal/tui/model.go:173-199 | an empty filter gives the whole catalog; otherwise exactly the commands that score above zero for the lower-cased filter, one per match, in non-increasing score order |
| TuiSearch.FilterCatalog | internal/tui/model.go:174-198 | the same promise for any catalog |
| TuiSearch.ScoreCatalog | internal/tui/model.go:181-185 | the scoring loop keeps the commands that score above zero, with their scores, in catalog order |
| TuiSearch.CommandsOf | internal/tui/model.go:193-196 | the commands of the sorted matches, in the same order |
| TuiSearch.FilteredFacts | internal/tui/model.go:178-198 | the sorted matches give as many commands as matches, exactly the positive scorers, in non-increasing score order |
| TuiUtils.ShortenHomePath | internal/tui/utils.go:10-21 | a path under home becomes "~" followed by the rest, from which the path is recovered; any other path is unchanged |
| TuiUtils.ShortenHomePathAgrees | internal/tui/utils.go:10-21 | the UI package's copy agrees with the core package's function on every input |
| TuiUtils.FormatErrorMessage | internal/tui/utils.go:24-26 | the UI package's copy agrees with the core package's function |
| TuiUtils.FormatSuccessMessage | internal/tui/utils.go:29-34 | the UI package's copy agrees with the core package's function, and the details end the message |
| WiFiCmd.ParseIPAndPort | internal/commands/wifi.go:149-167 | no colon gives the address with port 0; one colon needs an integer port from 1 to 65535, with a distinct error for a non-number and for out of range; more colons are an invalid format |
| WiFiCmd.ParseIPAndPortRoundTrip | internal/commands/wifi.go:149-167 | an address without colon and a valid port, joined with ":", parse back to themselves |
| WiFiCmd.DefaultPortText | internal/commands/wifi.go:13 | the default port prints as "4444" |
| WiFiCmd.NormalizedAddress | internal/commands/wifi.go:24-28 | an address without port is completed with ":4444"; one with a port is kept |
| WiFiCmd.StaleIds | internal/commands/wifi.go:132-144 | at most one stale identifier per line |
| WiFiCmd.StaleId | internal/commands/wifi.go:134-142 | a line yields one identifier exactly when, trimmed, it names an mDNS TLS entry in the device state with at least two fields |
| WiFiCmd.DisconnectCalls | internal/commands/wifi.go:141 | one disconnect per identifier |
| WiFiCmd.DisconnectCallsShape | internal/commands/wifi.go:141 | the k-th call disconnects the k-th identifier |
| WiFiCmd.StaleIdsFromStaleLines | internal/commands/wifi.go:133-144 | every identifier disconnected is the first field of a stale line of the listing |
| WiFiCmd.CleanupStaleWiFiConnections | internal/commands/wifi.go:122-145 | a failed listing disconnects nothing; otherwise each stale entry is disconnected, in listing order |
| WiFiCmd.DisconnectStale | internal/commands/wifi.go:133-144 | the loop disconnects exactly the stale identifiers, in order |
| WiFiCmd.CleanupLine | internal/commands/wifi.go:134-143 | one iteration disconnects that line's stale identifier, if any |
| WiFiCmd.DisconnectCallsAppend | internal/commands/wifi.go:133-144 | the calls for two runs of lines are the calls of the first followed by those of the second |
| WiFiCmd.ConnectWiFi | internal/commands/wifi.go:17-80 | a parse error stops before adb; a refused connect fails naming the address; a connect on a non-default port switches to 4444, and the temporary address is disconnected only when the reconnect works; cleanup follows every other success |
| WiFiCmd.DisconnectError | internal/commands/wifi.go:105-111 | an "exit status 1" failure means the device was not connected; any other failure is reported with its cause |
| WiFiCmd.DisconnectWiFi | internal/commands/wifi.go:83-119 | a parse error stops before adb; otherwise the devices are listed, the address disconnected, and cleanup runs only when the disconnect succeeded |
| WiFiCmd.PairWiFiDevice | internal/commands/pair.go:11-42 | a failed pair call is reported; success needs "Successfully paired" in the output and only then runs cleanup; otherwise the trimmed output is reported; the pairing line is always printed and the next-step instructions only after a success |
| TuiModel.TrimSpaceWithin | internal/tui/model.go:124 | trimming keeps only characters of the original message |
| TuiModel.Normalize | internal/tui/model.go:124 | a logged message has no tab left and starts and ends with no blank |
| TuiModel.Newest | internal/tui/model.go:134-137 | keeping the newest entries keeps at most the limit, as a suffix of the history, and everything when it fits |
| TuiModel.NewestAppend | internal/tui/model.go:132-137 | trimming after every append gives the same history as trimming once at the end |
| TuiModel.Logged | internal/tui/model.go:122-142 | adding a log entry grows the history by one up to five entries, puts the normalised message last, keeps the newest earlier entries and clears the old success and error fields |
| TuiModel.LoggedHistory | internal/tui/model.go:122-142 | the entry added is the append-then-trim of the source, and nothing else changes but the cleared fields |
| TuiModel.RouteNames | internal/tui/model.go:599-658 | exactly "refresh-devices" refreshes, "launch-emulator" opens AVD selection, the three Wi-Fi names open text input, the three change-* names start a setting change, and every other device command falls back to a screenshot |
| TuiModel.CatalogDispatch | internal/tui/model.go:599-658 | for the nine commands the menu really offers, only refresh-devices avoids device selection, no entry reaches a setting change, and all but the day/night and recording entries take a screenshot |
| TuiModel.PairingTwoSteps | internal/tui/model.go:703-706 | the first submission stores the address and asks for the code; the second starts pairing with that address and code and returns to the menu |
| TuiModel.MenuMovesWithinList | internal/tui/model.go:467-476 | up and down move the menu selection by at most one, stay within the list and stop at its ends |
| TuiModel.ActionKeepsMenu | internal/tui/model.go:568-687 | starting a device action leaves the search, its list and the menu selection alone and the log bounded |
| TuiModel.DeviceKeepsMenu | internal/tui/model.go:635-659 | running a command for a device keeps the menu |
| TuiModel.RouteKeepsMenu | internal/tui/model.go:599-631 | following a menu route keeps the menu |
| TuiModel.SelectedKeepsMenu | internal/tui/model.go:589-632 | running the selected command keeps the menu |
| TuiModel.DeviceSelectKeepsMenu | internal/tui/model.go:501-520 | keys in device selection keep the menu |
| TuiModel.EmulatorSelectKeepsMenu | internal/tui/model.go:521-540 | keys in AVD selection keep the menu |
| TuiModel.LaunchKeepsMenu | internal/tui/model.go:790-804 | launching an emulator keeps the menu |
| TuiModel.SubmissionKeepsMenu | internal/tui/model.go:690-787 | submitting text input keeps the menu |
| TuiModel.TextInputKeepsMenu | internal/tui/model.go:541-562 | keys in text input keep the menu |
| TuiModel.EscapeLeavesTextInput | internal/tui/model.go:545-550 | escape in text input returns to the menu with input, prompt and action cleared and nothing started |
| TuiModel.MessageKeepsMenu | internal/tui/model.go:318-444 | no message other than a key press touches the search, its list or the menu selection |
| TuiModel.RecordingStartedKeepsMenu | internal/tui/model.go:352-358 | the recording-started message keeps the menu |
| TuiModel.SettingLoadedKeepsMenu | internal/tui/model.go:368-385 | the setting-loaded message keeps the menu |
| TuiModel.MediaMessageKeepsMenu | internal/tui/model.go:334-367 | the media completion messages keep the menu |
| TuiModel.ReplyKeepsMenu | internal/tui/model.go:368-430 | the setting and Wi-Fi replies keep the menu |
| TuiModel.OtherMessageKeepsMenu | internal/tui/model.go:318-442 | the device, AVD, tick and quit messages keep the menu |
| TuiModel.LoggedKeepsMenu | internal/tui/model.go:122-142 | logging keeps the menu, also when it returns to the menu |
| TuiModel.DoneKeepsMenu | internal/tui/model.go:334-367 | reporting a finished media operation keeps the menu |
| TuiModel.SettingChangedKeepsMenu | internal/tui/model.go:386-394 | the setting-changed message keeps the menu |
| TuiModel.WiFiDoneKeepsMenu | internal/tui/model.go:395-430 | the Wi-Fi completion messages keep the menu |
| TuiModel.DevicesLoadedReports | internal/tui/model.go:318-326 | the device list is replaced and loading ends; there is an error exactly when loading failed or found no device, and the log is untouched |
| TuiModel.StartedOperationsTick | internal/tui/model.go:568-787 | every media or Wi-Fi operation that starts leaves the UI busy and schedules a progress tick |
| TuiModel.TickWhileBusy | internal/tui/model.go:431-438 | a tick advances the progress counter and schedules the next tick exactly while something is busy |
| TuiModel.StartupTicks | internal/tui/model.go:308-311 | start-up loads the devices and ticks, and the first tick keeps ticking because loading is under way |
| TuiModel.DoneStateLogs | internal/tui/model.go:334-367 | a failure logs the prefixed message as an error, a success logs its message, and an empty success logs nothing |
| TuiModel.WiFiDoneSettles | internal/tui/model.go:395-430 | a Wi-Fi reply ends that operation's busy flag and no other |
| TuiModel.WiFiDoneReloads | internal/tui/model.go:395-430 | the device list is reloaded, and the menu shown, exactly after a success with a message; otherwise nothing is started and the mode stays |
| TuiModel.WiFiFailureLogged | internal/tui/model.go:403-405 | a Wi-Fi failure is logged last, as an error with the operation's prefix |
| TuiModel.SettledFlags | internal/tui/model.go:396-420 | clearing one Wi-Fi flag leaves the mode and the other flags alone |
| TuiModel.LoggedKeepsFlags | internal/tui/model.go:122-142 | logging changes neither the mode nor the Wi-Fi flags |
| TuiModel.LoggedOnlyLogs | internal/tui/model.go:122-142 | logging changes nothing but the history and the two cleared fields |
| TuiModel.SettingFlow | internal/tui/model.go:368-394 | a setting change runs end to end: the current value is requested, text input opens with the value shown, the submitted value is sent to the device, and success requests the value again while staying in text input |
| TuiModel.Model.constructor | internal/tui/model.go:102-119 | a new model is in the menu, loading, with the full catalog listed and no operation in progress |
| TuiModel.Model.AddLogEntry | internal/tui/model.go:122-142 | the state becomes the logged state |
| TuiModel.Model.ClearLogs | internal/tui/model.go:160-164 | the log and the old success and error fields are emptied |
| TuiModel.Model.StartMediaOperation | internal/tui/model.go:568-669 | returns to the menu with the log cleared, sets exactly the operation's media flag and starts that operation and a tick |
| TuiModel.Model.ExecuteCommandForDevice | internal/tui/model.go:635-659 | does what the device dispatch specifies |
| TuiModel.Model.ExecuteSelectedCommand | internal/tui/model.go:589-632 | does what the menu dispatch specifies |
| TuiModel.Model.StopRecording | internal/tui/model.go:672-679 | saves an active recording, or else clears the recording flag |
| TuiModel.Model.LaunchEmulator | internal/tui/model.go:790-804 | returns to the menu; a failed launch is shown as the error, a successful one logged and followed by a device reload |
| TuiModel.Model.HandleTextInputSubmit | internal/tui/model.go:690-715 | dispatches on the pending action as the submit outcome specifies |
| TuiModel.Model.SubmitWiFiAction | internal/tui/model.go:697-714 | the Wi-Fi actions and the unknown-action reset |
| TuiModel.Model.ExecuteSettingChange | internal/tui/model.go:718-726 | stays in text input with the input cleared and sends the typed value for the device |
| TuiModel.Model.ExecuteWiFiConnect | internal/tui/model.go:729-742 | returns to the menu with input and log cleared, marks connecting, and connects to the typed address with a tick |
| TuiModel.Model.ExecuteWiFiDisconnect | internal/tui/model.go:745-758 | returns to the menu with input and log cleared, marks disconnecting, and disconnects the typed address with a tick |
| TuiModel.Model.HandlePairingAddressInput | internal/tui/model.go:761-769 | stores the typed address and asks for the code for it |
| TuiModel.Model.ExecuteWiFiPair | internal/tui/model.go:772-787 | returns to the menu with input and log cleared, marks pairing, forgets the address and pairs with the stored address and typed code |
| TuiModel.Model.Refilter | internal/tui/model.go:173-199 | the new filter is stored with the command list filtered and ordered for it |
| TuiModel.Model.ClearSearch | internal/tui/model.go:460-466 | escape clears a non-empty filter, lists the whole catalog and selects the first entry |
| TuiModel.Model.MoveSelection | internal/tui/model.go:467-476 | moves the menu selection within the list |
| TuiModel.Model.ShortenSearch | internal/tui/model.go:482-491 | backspace drops the filter's last character, refilters and resets a selection past the list |
| TuiModel.Model.ExtendSearch | internal/tui/model.go:492-499 | a typed character extends the filter, refilters and selects the first entry |
| TuiModel.Model.HandleMenuKey | internal/tui/model.go:455-500 | the menu keys do what the menu key outcome specifies and keep the model consistent |
| TuiModel.Model.HandleDeviceSelectKey | internal/tui/model.go:501-520 | the device-selection keys do what their outcome specifies |
| TuiModel.Model.HandleEmulatorSelectKey | internal/tui/model.go:521-540 | the AVD-selection keys do what their outcome specifies |
| TuiModel.Model.HandleTextInputKey | internal/tui/model.go:541-562 | the text-input keys do what their outcome specifies |
| TuiModel.Model.HandleKeyPress | internal/tui/model.go:448-566 | escape during a recording stops it; otherwise the mode's key handling runs, and the model stays consistent |
| TuiModel.Model.HandleModeKey | internal/tui/model.go:454-565 | each mode's key handling runs as specified and keeps the model consistent |
| TuiModel.Model.Update | internal/tui/model.go:314-445 | key presses and messages do what the update outcome specifies, and the filtered list, selection and log bound stay consistent |
| TuiModel.Model.HandleMessage | internal/tui/model.go:318-444 | each message does what the message outcome specifies |
| TuiModel.Model.HandleMediaMessage | internal/tui/model.go:334-367 | the media messages do what their outcome specifies |
| TuiModel.Model.HandleOtherMessage | internal/tui/model.go:318-444 | the non-media messages do what their outcome specifies |
| TuiModel.Model.HandleDevicesLoaded | internal/tui/model.go:318-326 | the device list, error and loading flag are set as specified |
| TuiModel.Model.HandleAvdsLoaded | internal/tui/model.go:327-333 | the AVD list is stored, and an error is shown and returns to the menu |
| TuiModel.Model.Report | internal/tui/model.go:335-341 | a non-empty success text is logged, then a non-empty error text |
| TuiModel.Model.HandleScreenshotDone | internal/tui/model.go:334-342 | ends the screenshot and logs its outcome |
| TuiModel.Model.HandleDayNightScreenshotDone | internal/tui/model.go:343-351 | ends the day/night pair and logs its outcome |
| TuiModel.Model.HandleScreenRecordDone | internal/tui/model.go:359-367 | ends and forgets the recording and logs its outcome |
| TuiModel.Model.HandleRecordingStarted | internal/tui/model.go:352-358 | stores the recording, or shows the start error |
| TuiModel.Model.HandleSettingLoaded | internal/tui/model.go:368-385 | an error returns to the menu; a value opens text input with a prompt naming the device and showing physical and current values |
| TuiModel.Model.HandleSettingChanged | internal/tui/model.go:386-394 | a success is logged and the value requested again; a failure is logged with its prefix |
| TuiModel.Model.HandleWiFiDone | internal/tui/model.go:395-430 | ends the operation, logs the outcome, and on success returns to the menu and reloads the devices |
| TuiModel.Model.SettleWiFi | internal/tui/model.go:396-420 | clears the finished operation's busy flag |
| TuiModel.Model.HandleTick | internal/tui/model.go:431-438 | advances the progress counter and ticks again exactly while busy |
| TuiModel.Model.HandleQuit | internal/tui/model.go:439-441 | marks the model quitting and quits |

## Where the model follows the code

Where the code and the project's own description of it disagree, the model follows the code:

- The TUI menu lists the registry's names (`dpi`, `font-size`, `screen-size`, `wifi`, `emulator`, …), but the TUI's command dispatch (internal/tui/model.go:599-658) switches on `change-dpi`, `connect-wifi`, `launch-emulator` and so on. From the real menu, the setting, Wi-Fi and emulator branches cannot be reached, and `dpi` falls back to a screenshot. `TuiModel.RouteNames` states the dispatch on names, and `TuiModel.CatalogDispatch` states what the nine menu entries really do.
- When a new device list arrives, the TUI model keeps its device selection index as it was (internal/tui/model.go:318-326), even if the list has shrunk. Only `DevicesFeature` clamps the index (internal/tui/features/devices/types.go).
- internal/tui/core/commands.go calls a registry function, `GetCommandCategories`, that internal/registry/commands.go does not define. `Core.GetCommandCategories` therefore takes the category list as a parameter and proves that it copies it field by field.

## Left out

- Process, file, pipe and network I/O: the model does not run `adb`, `emulator` or the file system. The outputs and errors of those calls are parameters of each operation, and the operations return the argument vectors they would pass.
- Goroutines and `tea.Cmd` closures: a command is returned as a value that names the operation and its arguments. Its later message is an input to `Update`.
- Clocks: `time.Now`, `operationStartTime` and the elapsed-time display are not modelled. Timestamps are parameters. The `time.Sleep` pauses in the Wi-Fi, day/night and port-switch sequences have no effect on results and are left out.
- The tracking goroutine's 100 ms send timeout is modelled as a drop when the event channel is full, because no reader is modelled.
- The `View` function and all rendering: styles (internal/tui/core/styles.go), the spinner and progress text, and the layout are presentation only.
- The key map in internal/tui/keys.go: keys reach the model as an abstract `Key` value (ctrl+c, up, down, enter, escape, backspace, a typed rune, other).
- The Go `Model` is passed by value and each handler returns a changed copy. The model keeps one `Model` object whose single state field the handlers reassign, so the copies are not modelled as aliases.
- Float settings: the font-size handler's `ParseFloat` and `FormatFloat` (internal/commands/fontsize.go) are oracles. `Setting.ValidateInput` and `Setting.SetValue` take whether the value parses as a float and the formatted scale as parameters, and `Setting.GetInfo` takes the read font scale as a parameter.
- getDisplayNameFromAVDName (internal/adb/device.go:205-) reads AVD files, and its only caller, getAVDDisplayNameForEmulator, always returns "". The model uses that empty name.
- `strings.ToLower` is modelled on ASCII letters only. Unicode case folding and rune decoding are not modelled.
- TuiSearch.FilterCommands: `sort.Slice` is not stable, so the model states only the order by non-increasing score. The order among commands with equal scores is left unspecified.
- TuiSearch.SortByScore: an insertion sort stands in for `sort.Slice`. It promises non-increasing scores and a permutation of its input, but not which of two equal-score commands comes first.
- TuiModel.Model.HandleRecordingStarted: `fmt.Errorf(errorMsg)` uses the message as a format string. The model stores the message text unchanged, so a message containing `%` is not rendered as Go would render it.
- TuiModel.Model.Update requires a setting-loaded message to carry an error or a setting. The Go code dereferences the missing setting and panics on a message with neither.
- Loops in the Go functions that also sequence I/O are written as helper methods (`Media.SendProgress`, `Capture.Enqueue`, `TuiSearch.ScanString`) that are proved against the specifying functions.
- internal/config/config.go, internal/adb/executor.go, internal/tui/commands.go and the devices/settings command wrappers only delegate or read the environment, so they are not modelled.
- The type-only files (internal/tui/messages.go, the messaging and core type files) are modelled only as far as the modelled code uses their declarations.
- The test drivers (test/cli/dpi_test.go, font_size_test.go, screen_size_test.go, screenshot_test.go, workflows_test.go, internal/test/e2e_cli_test.go) and test/cli/util/setup.go drive faked processes. Of their assertions, only those about the device listings the fakes serve are stated, as the `CliTest` fixture lemmas (no device, the one emulator, the emulator and the Wi-Fi device).
- Logger: the mutex around the global renderer is not modelled; every call is taken as atomic.
- Text.Quote: characters beyond ASCII are kept as they are; Go escapes the non-printable ones as `\u`/`\U` sequences, which needs the Unicode tables, and escapes invalid UTF-8 bytes, which a string of characters cannot hold.
- Console output of the direct commands is returned as `printed`, one entry per print call without its final newline. The entry point's own messages are not: the missing-adb check (main.go:22-27) and the printing of a returned error (main.go:59-62, 70-73) each print a fixed line and end the process.
- Emulator.LaunchEmulator: the line "Launched emulator: NAME (PID: N)" (internal/emulator/emulator.go:219) is not returned, because the process id is assigned by the operating system when the emulator starts.
- WiFiCmd.CleanupStaleWiFiConnections: the "Cleaning up stale WiFi connection" message for each disconnected entry (internal/commands/wifi.go:140) goes through the logger, whose rendering `Logger` models on its own; the cleanup returns only its calls.
- Text.PathJoin: `filepath.Join` also cleans the joined path. The model only inserts one separator, so a directory ending in "/" gives a doubled separator ("d/" and "x" give "d//x" where Go gives "d/x") and an empty name leaves a trailing one ("d" and "" give "d/" where Go gives "d"). The media directory and the generated file names never take those forms.
- ScreenRecord.Dir: `filepath.Dir` also cleans its result, so "a//b" gives "a/" here where Go gives "a". The paths it is applied to are built by Text.PathJoin from a file name without separators.
- Integer widths: Go `int` is taken as unbounded, except that `Text.Atoi` rejects values outside the 64-bit range as `strconv.Atoi` does.
