/*
 * The terminal UI's session controller (internal/tui/model.go): the Model, its activity log,
 * its key handling per mode, the menu's command dispatch, the text-input flows and the
 * handlers of the messages that background commands send back.
 *
 * Background commands (tea.Cmd) are not run: a handler returns the effects it asks the
 * runtime for, in order (tea.Batch of several commands becomes a list). The clock is a
 * parameter `now`; emulator launching, which the Go code runs synchronously, is the oracle
 * `launchErr`. Go's Model methods take the model by value and return the updated copy,
 * which the runtime keeps; here that copy is the object, updated in place.
 */
module TuiModel {
  import opened Wrappers
  import opened Text
  import Core
  import Adb
  import Emulator
  import Setting
  import ScreenRecord
  import Media
  import WiFiTui
  import Messaging
  import TuiSearch

  // ---------------------------------------------------------------- values

  /** What a handler asks the runtime to run next. */
  datatype Effect =
    | Quit
    | Tick
    | LoadDevices
    | LoadAvds
    | TakeScreenshot(device: Adb.Device)
    | TakeDayNight(device: Adb.Device)
    | StartRecording(device: Adb.Device)
    | StopAndSaveRecording(recording: ScreenRecord.ScreenRecording)
    | GetCurrentSetting(device: Adb.Device, settingType: string)
    | ChangeSetting(device: Adb.Device, settingType: string, value: string)
    | ConnectWiFi(address: string)
    | DisconnectWiFi(address: string)
    | PairWiFi(address: string, code: string)

  /** The Model's fields as one value, so that a contract can say which fields a step changes. */
  datatype State = State(
    devices: seq<Adb.Device>, avds: seq<Emulator.AVD>,
    selectedDevice: nat, selectedEmulator: nat, selectedCommand: nat,
    mode: Core.Mode, err: Option<string>, successMsg: string, quitting: bool,
    logHistory: seq<Core.LogEntry>, loading: bool,
    textInput: string, textInputPrompt: string, textInputAction: string,
    selectedDeviceForAction: Adb.Device,
    currentSettingInfo: Option<Setting.SettingInfo>, currentSettingType: string,
    connectingWiFi: bool, disconnectingWiFi: bool, pairingWiFi: bool, pairingAddress: string,
    searchFilter: string, filteredCommands: seq<Core.Command>, selectedCommandIndex: nat,
    progressTicker: nat)

  /** The media feature's fields as one value. */
  datatype MediaState = MediaState(takingScreenshot: bool, takingDayNight: bool, recordingScreen: bool,
                                   activeRecording: Option<ScreenRecord.ScreenRecording>)

  /** The result of a handler: the new model, the new media state and the requested effects. */
  datatype Outcome = Outcome(state: State, media: MediaState, effects: seq<Effect>)

  function MediaOf(f: Media.MediaFeature): MediaState
    reads f
  {
    MediaState(f.takingScreenshot, f.takingDayNight, f.recordingScreen, f.activeRecording)
  }

  /** The log keeps this many entries. */
  const MaxLogEntries: nat := 5

  /** The model NewModel builds: the menu, loading, the full catalog, nothing selected. */
  function Initial(): State {
    State([], [], 0, 0, 0, Core.Menu, None, "", false, [], true, "", "", "",
          Adb.NewDevice("", ""), None, "", false, false, false, "",
          "", TuiSearch.Catalog(), 0, 0)
  }

  /**
   * What every handler keeps true: the log is bounded, the visible command list is the one
   * the search filter selects, and the menu index is 0 or points into that list.
   */
  ghost predicate Valid(s: State, catalog: seq<Core.Command>) {
    |s.logHistory| <= MaxLogEntries
    && TuiSearch.FilteredFrom(catalog, s.filteredCommands, s.searchFilter)
    && (s.selectedCommandIndex == 0 || s.selectedCommandIndex < |s.filteredCommands|)
  }

  // ---------------------------------------------------------------- the log

  lemma TrimSpaceWithin(s: string)
    ensures forall c :: c in TrimSpace(s) ==> c in s
  {
    var l := TrimLeftSpace(s);
    assert forall c :: c in l ==> c in s;
    var r := TrimRightSpace(l);
    assert forall c :: c in r ==> c in l;
  }

  /** The message of a log entry: every tab becomes two spaces, then the ends are trimmed. */
  function Normalize(message: string): (r: string)
    ensures '\t' !in r
    ensures r == [] || (!IsSpace(r[0]) && !IsSpace(r[|r| - 1]))
  {
    var replaced := ReplaceAllChar(message, '\t', "  ");
    TrimSpaceWithin(replaced);
    TrimSpace(replaced)
  }

  /** The newest `n` entries of a history, oldest first. */
  function Newest<T>(entries: seq<T>, n: nat): (r: seq<T>)
    ensures |r| <= n && |r| <= |entries|
    ensures r == entries[|entries| - |r|..]
    ensures |entries| <= n ==> r == entries
  {
    if |entries| > n then entries[|entries| - n..] else entries
  }

  /**
   * Trimming after every append loses nothing that trimming once at the end would keep: the
   * bounded log is always the newest entries of the whole history.
   */
  lemma NewestAppend<T>(h: seq<T>, e: T, n: nat)
    ensures Newest(Newest(h, n) + [e], n) == Newest(h + [e], n)
  {
    if |h| > n {
      var w := h[|h| - n..];
      if n > 0 {
        assert (w + [e])[|w + [e]| - n..] == h[|h| - n + 1..] + [e];
        assert (h + [e])[|h + [e]| - n..] == h[|h| - n + 1..] + [e];
      } else {
        assert (h + [e])[|h + [e]|..] == [];
      }
    }
  }

  /** addLogEntry on a model value; it also clears the old success and error fields. */
  function Logged(s: State, message: string, logType: Core.LogType, now: string): (r: State)
    ensures |r.logHistory| == if |s.logHistory| < MaxLogEntries then |s.logHistory| + 1 else MaxLogEntries
    ensures r.logHistory[|r.logHistory| - 1] == Core.LogEntry(Normalize(message), logType, now)
    ensures r.logHistory[..|r.logHistory| - 1] == s.logHistory[|s.logHistory| + 1 - |r.logHistory|..]
    ensures r.successMsg == "" && r.err.None?
  {
    var entry := Core.LogEntry(Normalize(message), logType, now);
    var h := s.logHistory + [entry];
    var r := s.(logHistory := Newest(h, MaxLogEntries), successMsg := "", err := None);
    assert r.logHistory[..|r.logHistory| - 1] == h[|h| - |r.logHistory|..|h| - 1];
    r
  }

  lemma LoggedHistory(s: State, message: string, logType: Core.LogType, now: string, history: seq<Core.LogEntry>)
    requires var h := s.logHistory + [Core.LogEntry(TrimSpace(ReplaceAllChar(message, '\t', "  ")), logType, now)];
      history == if |h| > MaxLogEntries then h[|h| - MaxLogEntries..] else h
    ensures Logged(s, message, logType, now) == s.(logHistory := history, successMsg := "", err := None)
  {
  }

  /** clearLogs on a model value. */
  function Cleared(s: State): State {
    s.(logHistory := [], successMsg := "", err := None)
  }

  /** The success text and then the error text a media handler returned, each logged when non-empty. */
  function Reported(s: State, successText: string, errorText: string, now: string): State {
    var s1 := if successText != "" then Logged(s, successText, Core.LogSuccess, now) else s;
    if errorText != "" then Logged(s1, errorText, Core.LogError, now) else s1
  }

  /** Leaving text input: input, prompt and action are cleared. */
  function InputCleared(s: State): State {
    s.(textInput := "", textInputPrompt := "", textInputAction := "")
  }

  // ---------------------------------------------------------------- dispatch

  const ConnectPrompt := "Enter IP address or IP:port (e.g., 192.168.1.100 or 192.168.1.100:5555)\nDefaults to port 4444 if not specified"
  const PairPrompt := "Enter pairing address from phone (e.g., 192.168.3.30:43719)"
  const DisconnectPrompt := "Enter IP address or IP:port to disconnect (e.g., 192.168.1.100 or 192.168.1.100:5555)\nDefaults to port 4444 if not specified"

  /** Where executeSelectedCommand sends a command name. */
  datatype Route = ToEmulatorSelect | ToTextInput(action: string, prompt: string) | RefreshDevices | NeedsDevice

  function MenuRoute(command: string): Route {
    if command == "launch-emulator" then ToEmulatorSelect
    else if command == "connect-wifi" then ToTextInput("wifi_connect", ConnectPrompt)
    else if command == "pair-wifi" then ToTextInput("wifi_pair_address", PairPrompt)
    else if command == "disconnect-wifi" then ToTextInput("wifi_disconnect", DisconnectPrompt)
    else if command == "refresh-devices" then RefreshDevices
    else NeedsDevice
  }

  /** What executeCommandForDevice does for a command name; unknown names take a screenshot. */
  datatype DeviceAction = Shot | DayNightShot | Record | SettingChange(settingType: string)

  function DeviceRoute(command: string): DeviceAction {
    if command == "screenshot" then Shot
    else if command == "screenshot-day-night" then DayNightShot
    else if command == "screen-record" then Record
    else if command == "change-dpi" then SettingChange(Setting.SettingTypeDPI)
    else if command == "change-font-size" then SettingChange(Setting.SettingTypeFontSize)
    else if command == "change-screen-size" then SettingChange(Setting.SettingTypeScreenSize)
    else Shot
  }

  /**
   * Which names reach which flow: only "refresh-devices" refreshes, only "launch-emulator"
   * selects an emulator, only the three Wi-Fi names ask for text, and every other name needs a
   * device; on a device only the three change-* names start a setting change, and every name
   * but those and the day-night screenshot and the recording takes a plain screenshot.
   */
  lemma RouteNames(command: string)
    ensures MenuRoute(command) == RefreshDevices <==> command == "refresh-devices"
    ensures MenuRoute(command) == ToEmulatorSelect <==> command == "launch-emulator"
    ensures MenuRoute(command).ToTextInput? <==>
      (command == "connect-wifi" || command == "pair-wifi" || command == "disconnect-wifi")
    ensures DeviceRoute(command).SettingChange? <==>
      (command == "change-dpi" || command == "change-font-size" || command == "change-screen-size")
    ensures DeviceRoute(command) == Shot <==>
      !(command == "screenshot-day-night" || command == "screen-record" || command == "change-dpi"
        || command == "change-font-size" || command == "change-screen-size")
  {
  }

  /**
   * The menu lists the registry's CLI catalog, whose names are not the ones the dispatch
   * expects: no listed command reaches emulator selection, text input or a setting change.
   * Apart from refreshing, every entry needs a device, and all but the day-night screenshot
   * and the screen recording end up taking a plain screenshot.
   */
  lemma CatalogDispatch(i: nat)
    requires i < |TuiSearch.Catalog()|
    ensures var c := TuiSearch.Catalog()[i].command;
      (MenuRoute(c) == RefreshDevices <==> c == "refresh-devices")
      && (MenuRoute(c) != RefreshDevices ==> MenuRoute(c) == NeedsDevice)
      && !DeviceRoute(c).SettingChange?
      && (DeviceRoute(c) == Shot <==> !(c == "screenshot-day-night" || c == "screen-record"))
  {
    var names := ["screenshot", "screenshot-day-night", "screen-record", "dpi", "font-size",
                  "screen-size", "wifi", "emulator", "refresh-devices"];
    assert TuiSearch.Catalog()[i].command == names[i];
    RouteNames(names[i]);
  }

  /** executeCommandForDevice on values. */
  function DeviceOutcome(s: State, ms: MediaState, device: Adb.Device): Outcome {
    if |s.filteredCommands| == 0 || s.selectedCommandIndex >= |s.filteredCommands| then Outcome(s, ms, [])
    else ActionOutcome(s, ms, device, DeviceRoute(s.filteredCommands[s.selectedCommandIndex].command))
  }

  /** executeScreenshot, executeDayNightScreenshots, executeScreenRecord and startSettingChange on values. */
  function ActionOutcome(s: State, ms: MediaState, device: Adb.Device, action: DeviceAction): Outcome {
    match action
    case Shot =>
      Outcome(Cleared(s).(mode := Core.Menu), ms.(takingScreenshot := true), [TakeScreenshot(device), Tick])
    case DayNightShot =>
      Outcome(Cleared(s).(mode := Core.Menu), ms.(takingDayNight := true), [TakeDayNight(device), Tick])
    case Record =>
      Outcome(Cleared(s).(mode := Core.Menu), ms.(recordingScreen := true), [StartRecording(device), Tick])
    case SettingChange(t) =>
      Outcome(s.(selectedDeviceForAction := device, textInputAction := t), ms, [GetCurrentSetting(device, t)])
  }

  /** executeSelectedCommand on values. */
  function SelectedOutcome(s: State, ms: MediaState): Outcome {
    if |s.filteredCommands| == 0 || s.selectedCommandIndex >= |s.filteredCommands| then Outcome(s, ms, [])
    else RouteOutcome(s.(selectedCommand := s.selectedCommandIndex), ms,
                      MenuRoute(s.filteredCommands[s.selectedCommandIndex].command))
  }

  /** The branches of executeSelectedCommand's switch, once the command is recorded as selected. */
  function RouteOutcome(s: State, ms: MediaState, route: Route): Outcome {
    match route
    case ToEmulatorSelect => Outcome(s.(mode := Core.EmulatorSelect), ms, [LoadAvds])
    case ToTextInput(action, prompt) =>
      Outcome(s.(mode := Core.TextInput, textInputPrompt := prompt, textInputAction := action, textInput := ""), ms, [])
    case RefreshDevices => Outcome(Cleared(s), ms, [LoadDevices])
    case NeedsDevice =>
      if |s.devices| == 1 then DeviceOutcome(s, ms, s.devices[0])
      else Outcome(s.(mode := Core.DeviceSelect), ms, [])
  }

  /** stopRecording on values: save a running recording, or just mark recording as finished. */
  function StopOutcome(s: State, ms: MediaState): Outcome {
    if ms.activeRecording.Some? then Outcome(s, ms, [StopAndSaveRecording(ms.activeRecording.value)])
    else Outcome(s, ms.(recordingScreen := false, activeRecording := None), [])
  }

  /** launchEmulator on values. */
  function LaunchOutcome(s: State, avd: Emulator.AVD, launchErr: Option<string>, now: string): (State, seq<Effect>) {
    var base := s.(mode := Core.Menu, err := None, successMsg := "");
    if launchErr.Some? then (base.(err := Some("failed to launch emulator: " + launchErr.value)), [])
    else (Logged(base, "Launched emulator: " + avd.name + " (may take a moment to appear)", Core.LogSuccess, now), [LoadDevices])
  }

  /** What handleTextInputSubmit does for a text-input action. */
  datatype Submission = ApplySetting(settingType: string) | Connect | Disconnect | PairAddress | PairCode | UnknownAction

  /** The setting types are tried first, then the Wi-Fi actions; anything else is unknown. */
  function SubmitRoute(action: string): Submission {
    if action == Setting.SettingTypeDPI || action == Setting.SettingTypeFontSize || action == Setting.SettingTypeScreenSize then
      ApplySetting(action)
    else if action == "wifi_connect" then Connect
    else if action == "wifi_disconnect" then Disconnect
    else if action == "wifi_pair_address" then PairAddress
    else if action == "wifi_pair_code" then PairCode
    else UnknownAction
  }

  /** handleTextInputSubmit on values. */
  function SubmitOutcome(s: State): (State, seq<Effect>) {
    SubmissionOutcome(s, SubmitRoute(s.textInputAction))
  }

  /** executeSettingChange, executeWiFiConnect, executeWiFiDisconnect, handlePairingAddressInput, executeWiFiPair on values. */
  function SubmissionOutcome(s: State, submission: Submission): (State, seq<Effect>) {
    match submission
    case ApplySetting(t) =>
      (s.(textInput := ""), [ChangeSetting(s.selectedDeviceForAction, t, s.textInput)])
    case Connect =>
      (Cleared(InputCleared(s)).(mode := Core.Menu, connectingWiFi := true), [ConnectWiFi(s.textInput), Tick])
    case Disconnect =>
      (Cleared(InputCleared(s)).(mode := Core.Menu, disconnectingWiFi := true), [DisconnectWiFi(s.textInput), Tick])
    case PairAddress =>
      (s.(pairingAddress := s.textInput, textInput := "",
          textInputPrompt := "Enter 6-digit pairing code from phone for " + s.textInput,
          textInputAction := "wifi_pair_code"), [])
    case PairCode =>
      (Cleared(InputCleared(s)).(mode := Core.Menu, pairingWiFi := true, pairingAddress := ""),
       [PairWiFi(s.pairingAddress, s.textInput), Tick])
    case UnknownAction => (InputCleared(s).(mode := Core.Menu), [])
  }

  /**
   * Pairing takes two submissions: the first stores the address and asks for the code without
   * leaving text input; the second pairs that address with the code typed next.
   */
  lemma PairingTwoSteps(s: State, code: string)
    requires s.textInputAction == "wifi_pair_address"
    ensures var first := SubmitOutcome(s).0;
      first.mode == s.mode && first.textInputAction == "wifi_pair_code" && SubmitOutcome(s).1 == []
      && SubmitOutcome(first.(textInput := code)).1 == [PairWiFi(s.textInput, code), Tick]
      && SubmitOutcome(first.(textInput := code)).0.mode == Core.Menu
      && SubmitOutcome(first.(textInput := code)).0.pairingAddress == ""
  {
    assert SubmitRoute(s.textInputAction) == PairAddress;
    var first := SubmissionOutcome(s, PairAddress).0;
    assert SubmitRoute(first.textInputAction) == PairCode;
    assert SubmitOutcome(first.(textInput := code)) == SubmissionOutcome(first.(textInput := code), PairCode);
  }

  // ---------------------------------------------------------------- keys

  /**
   * A key press by the name bubbletea gives it: the named keys the handlers test for, a key
   * whose name is one byte long (typed text), and any other key.
   */
  datatype Key = CtrlC | Esc | Up | Down | Enter | Backspace | Char(c: char) | Other

  /** esc in the menu: a non-empty filter is cleared, its list shown and the top selected. */
  function SearchCleared(s: State, filtered: seq<Core.Command>): State {
    if s.searchFilter != "" then s.(searchFilter := "", filteredCommands := filtered, selectedCommandIndex := 0)
    else s
  }

  /** up and down in the menu: one step, stopping at either end of the list. */
  function SelectionMoved(s: State, up: bool): State {
    if up then s.(selectedCommandIndex := if s.selectedCommandIndex > 0 then s.selectedCommandIndex - 1 else 0)
    else s.(selectedCommandIndex :=
      if s.selectedCommandIndex < |s.filteredCommands| - 1 then s.selectedCommandIndex + 1 else s.selectedCommandIndex)
  }

  /** backspace in the menu: drop the filter's last character; the index resets only if it fell off the list. */
  function SearchShortened(s: State, filtered: seq<Core.Command>): State {
    if |s.searchFilter| > 0 then
      s.(searchFilter := s.searchFilter[..|s.searchFilter| - 1], filteredCommands := filtered,
         selectedCommandIndex := if s.selectedCommandIndex >= |filtered| then 0 else s.selectedCommandIndex)
    else s
  }

  /** A typed character in the menu: extend the filter and select the top. */
  function SearchExtended(s: State, c: char, filtered: seq<Core.Command>): State {
    s.(searchFilter := s.searchFilter + [c], filteredCommands := filtered, selectedCommandIndex := 0)
  }

  /**
   * The menu's keys on values. `filtered` is the list filterCommands returned for the new
   * search filter; it is used only by the keys that change the filter.
   */
  function MenuKeyOutcome(s: State, ms: MediaState, key: Key, filtered: seq<Core.Command>): Outcome {
    match key
    case CtrlC => Outcome(s, ms, [Quit])
    case Esc => Outcome(SearchCleared(s, filtered), ms, [])
    case Up => Outcome(SelectionMoved(s, true), ms, [])
    case Down => Outcome(SelectionMoved(s, false), ms, [])
    case Enter =>
      if |s.filteredCommands| > 0 && s.selectedCommandIndex < |s.filteredCommands| then SelectedOutcome(s, ms)
      else Outcome(s, ms, [])
    case Backspace => Outcome(SearchShortened(s, filtered), ms, [])
    case Char(c) => Outcome(SearchExtended(s, c, filtered), ms, [])
    case Other => Outcome(s, ms, [])
  }

  /**
   * Up and down move the menu index by at most one, stay inside the list and do not wrap:
   * up at the top and down at the bottom leave it where it is.
   */
  lemma MenuMovesWithinList(s: State, ms: MediaState, key: Key, filtered: seq<Core.Command>)
    requires key == Up || key == Down
    requires s.selectedCommandIndex < |s.filteredCommands|
    ensures var i := MenuKeyOutcome(s, ms, key, filtered).state.selectedCommandIndex;
      i < |s.filteredCommands| && -1 <= i - s.selectedCommandIndex <= 1
      && (key == Up && s.selectedCommandIndex == 0 ==> i == 0)
      && (key == Down && s.selectedCommandIndex == |s.filteredCommands| - 1 ==> i == s.selectedCommandIndex)
      && MenuKeyOutcome(s, ms, key, filtered).effects == []
  {
  }

  /** Keys in device selection; "enter" with an index past the list does nothing. */
  function DeviceSelectKeyOutcome(s: State, ms: MediaState, key: Key): Outcome {
    if key == Esc then Outcome(s.(mode := Core.Menu), ms, [])
    else if (key == Up || key == Char('k') || key == Char('h')) then
      Outcome(s.(selectedDevice := if s.selectedDevice > 0 then s.selectedDevice - 1 else 0), ms, [])
    else if (key == Down || key == Char('j') || key == Char('l')) then
      Outcome(s.(selectedDevice := if s.selectedDevice < |s.devices| - 1 then s.selectedDevice + 1 else s.selectedDevice), ms, [])
    else if key == Enter && s.selectedDevice < |s.devices| then DeviceOutcome(s, ms, s.devices[s.selectedDevice])
    else Outcome(s, ms, [])
  }

  /** Keys in emulator selection; "enter" launches the selected AVD. */
  function EmulatorSelectKeyOutcome(s: State, ms: MediaState, key: Key, launchErr: Option<string>, now: string): Outcome {
    if key == Esc then Outcome(s.(mode := Core.Menu), ms, [])
    else if (key == Up || key == Char('k') || key == Char('h')) then
      Outcome(s.(selectedEmulator := if s.selectedEmulator > 0 then s.selectedEmulator - 1 else 0), ms, [])
    else if (key == Down || key == Char('j') || key == Char('l')) then
      Outcome(s.(selectedEmulator := if s.selectedEmulator < |s.avds| - 1 then s.selectedEmulator + 1 else s.selectedEmulator), ms, [])
    else if key == Enter && s.selectedEmulator < |s.avds| then
      var r := LaunchOutcome(s, s.avds[s.selectedEmulator], launchErr, now);
      Outcome(r.0, ms, r.1)
    else Outcome(s, ms, [])
  }

  /** Keys in text input: submit, cancel, delete the last character, or type one. */
  function TextInputKeyOutcome(s: State, ms: MediaState, key: Key): Outcome {
    if key == Enter then Outcome(SubmitOutcome(s).0, ms, SubmitOutcome(s).1)
    else if key == Esc then Outcome(InputCleared(s).(mode := Core.Menu), ms, [])
    else if key == Backspace then
      Outcome(if |s.textInput| > 0 then s.(textInput := s.textInput[..|s.textInput| - 1]) else s, ms, [])
    else if key.Char? then Outcome(s.(textInput := s.textInput + [key.c]), ms, [])
    else Outcome(s, ms, [])
  }

  /** handleKeyPress on values: "esc" during a recording stops it whatever the mode. */
  function KeyOutcome(s: State, ms: MediaState, key: Key, filtered: seq<Core.Command>,
                      launchErr: Option<string>, now: string): Outcome {
    if ms.recordingScreen && key == Esc then StopOutcome(s, ms)
    else ModeKeyOutcome(s, ms, key, filtered, launchErr, now)
  }

  /** The key handling of each mode. */
  function ModeKeyOutcome(s: State, ms: MediaState, key: Key, filtered: seq<Core.Command>,
                          launchErr: Option<string>, now: string): Outcome {
    match s.mode
      case Menu => MenuKeyOutcome(s, ms, key, filtered)
      case DeviceSelect => DeviceSelectKeyOutcome(s, ms, key)
      case EmulatorSelect => EmulatorSelectKeyOutcome(s, ms, key, launchErr, now)
      case TextInput => TextInputKeyOutcome(s, ms, key)
      case CommandMode => Outcome(s, ms, [])
  }

  /** A step keeps the menu when it leaves the filter, its list and the menu index alone and the log bounded. */
  predicate KeepsMenu(s: State, t: State) {
    t.searchFilter == s.searchFilter && t.filteredCommands == s.filteredCommands
    && t.selectedCommandIndex == s.selectedCommandIndex && |t.logHistory| <= MaxLogEntries
  }

  lemma ValidWithIndex(s: State, catalog: seq<Core.Command>, i: nat)
    requires Valid(s, catalog) && (i == 0 || i < |s.filteredCommands|)
    ensures Valid(s.(selectedCommandIndex := i), catalog)
  {
  }

  lemma ValidAfter(s: State, t: State, catalog: seq<Core.Command>)
    requires Valid(s, catalog) && KeepsMenu(s, t)
    ensures Valid(t, catalog)
  {
  }

  lemma ActionKeepsMenu(s: State, ms: MediaState, device: Adb.Device, action: DeviceAction)
    requires |s.logHistory| <= MaxLogEntries
    ensures KeepsMenu(s, ActionOutcome(s, ms, device, action).state)
  {
  }

  lemma DeviceKeepsMenu(s: State, ms: MediaState, device: Adb.Device)
    requires |s.logHistory| <= MaxLogEntries
    ensures KeepsMenu(s, DeviceOutcome(s, ms, device).state)
  {
    if |s.filteredCommands| > 0 && s.selectedCommandIndex < |s.filteredCommands| {
      ActionKeepsMenu(s, ms, device, DeviceRoute(s.filteredCommands[s.selectedCommandIndex].command));
    }
  }

  lemma RouteKeepsMenu(s: State, ms: MediaState, route: Route)
    requires |s.logHistory| <= MaxLogEntries
    ensures KeepsMenu(s, RouteOutcome(s, ms, route).state)
  {
    if route == NeedsDevice && |s.devices| == 1 {
      DeviceKeepsMenu(s, ms, s.devices[0]);
    }
  }

  lemma SelectedKeepsMenu(s: State, ms: MediaState)
    requires |s.logHistory| <= MaxLogEntries
    ensures KeepsMenu(s, SelectedOutcome(s, ms).state)
  {
    if |s.filteredCommands| > 0 && s.selectedCommandIndex < |s.filteredCommands| {
      RouteKeepsMenu(s.(selectedCommand := s.selectedCommandIndex), ms,
                     MenuRoute(s.filteredCommands[s.selectedCommandIndex].command));
    }
  }

  lemma DeviceSelectKeepsMenu(s: State, ms: MediaState, key: Key)
    requires |s.logHistory| <= MaxLogEntries
    ensures KeepsMenu(s, DeviceSelectKeyOutcome(s, ms, key).state)
  {
    if key == Esc {
    } else if key == Up || key == Char('k') || key == Char('h') {
    } else if key == Down || key == Char('j') || key == Char('l') {
    } else if key == Enter && s.selectedDevice < |s.devices| {
      DeviceKeepsMenu(s, ms, s.devices[s.selectedDevice]);
    }
  }

  lemma EmulatorSelectKeepsMenu(s: State, ms: MediaState, key: Key, launchErr: Option<string>, now: string)
    requires |s.logHistory| <= MaxLogEntries
    ensures KeepsMenu(s, EmulatorSelectKeyOutcome(s, ms, key, launchErr, now).state)
  {
    if key == Esc {
    } else if key == Up || key == Char('k') || key == Char('h') {
    } else if key == Down || key == Char('j') || key == Char('l') {
    } else if key == Enter && s.selectedEmulator < |s.avds| {
      LaunchKeepsMenu(s, s.avds[s.selectedEmulator], launchErr, now);
    }
  }

  lemma LaunchKeepsMenu(s: State, avd: Emulator.AVD, launchErr: Option<string>, now: string)
    requires |s.logHistory| <= MaxLogEntries
    ensures KeepsMenu(s, LaunchOutcome(s, avd, launchErr, now).0)
  {
    if launchErr.None? {
      var base := s.(mode := Core.Menu, err := None, successMsg := "");
      LoggedKeepsMenu(base, "Launched emulator: " + avd.name + " (may take a moment to appear)", Core.LogSuccess, now);
    }
  }

  lemma SubmissionKeepsMenu(s: State, submission: Submission)
    requires |s.logHistory| <= MaxLogEntries
    ensures KeepsMenu(s, SubmissionOutcome(s, submission).0)
  {
  }

  lemma TextInputKeepsMenu(s: State, ms: MediaState, key: Key)
    requires |s.logHistory| <= MaxLogEntries
    ensures KeepsMenu(s, TextInputKeyOutcome(s, ms, key).state)
  {
    SubmissionKeepsMenu(s, SubmitRoute(s.textInputAction));
  }

  /** Cancelling text input always returns to the menu with input, prompt and action cleared. */
  lemma EscapeLeavesTextInput(s: State, ms: MediaState, filtered: seq<Core.Command>, launchErr: Option<string>, now: string)
    requires s.mode == Core.TextInput && !ms.recordingScreen
    ensures var o := KeyOutcome(s, ms, Esc, filtered, launchErr, now);
      o.state.mode == Core.Menu && o.state.textInput == "" && o.state.textInputPrompt == ""
      && o.state.textInputAction == "" && o.effects == [] && o.media == ms
  {
  }

  // ---------------------------------------------------------------- messages

  /** The messages Update switches on: a key press, the background commands' results, the tick and quit. */
  datatype Msg =
    | KeyPress(key: Key)
    | DevicesLoaded(devicesMsg: Messaging.DevicesLoadedMsg)
    | AvdsLoaded(avdsMsg: Messaging.AvdsLoadedMsg)
    | ScreenshotDone(result: Messaging.OperationResult)
    | DayNightScreenshotDone(result: Messaging.OperationResult)
    | RecordingStarted(startedMsg: Messaging.RecordingStartedMsg)
    | ScreenRecordDone(result: Messaging.OperationResult)
    | SettingLoaded(loadedMsg: Messaging.SettingLoadedMsg)
    | SettingChanged(changedMsg: Messaging.SettingChangedMsg)
    | WiFiDone(wifiMsg: WiFiTui.WiFiDoneMsg)
    | TickMsg
    | QuitMsg
    | OtherMsg

  /** Init: load the devices and start the progress ticker. */
  function Init(): seq<Effect> {
    [LoadDevices, Tick]
  }

  /** Something the progress ticker waits for: a device load, a media operation or a Wi-Fi operation. */
  predicate Busy(s: State, ms: MediaState) {
    s.loading || ms.takingScreenshot || ms.takingDayNight || ms.recordingScreen
    || s.connectingWiFi || s.disconnectingWiFi || s.pairingWiFi
  }

  /** The success text, or the prefixed error text, of a finished media operation. */
  function DoneTexts(result: Messaging.OperationResult, prefix: string): (string, string) {
    if result.success then (result.message, "") else ("", prefix + result.message)
  }

  /** A media done message's texts, logged as Update does. */
  function DoneState(s: State, result: Messaging.OperationResult, prefix: string, now: string): State {
    var texts := DoneTexts(result, prefix);
    Reported(s, texts.0, texts.1, now)
  }

  /** devicesLoadedMsg: an empty list without an error is reported as an error. */
  function DevicesLoadedState(s: State, m: Messaging.DevicesLoadedMsg): State {
    var err := if |m.devices| == 0 && m.err.None? then Some("no devices connected") else m.err;
    s.(devices := m.devices, err := err, loading := false)
  }

  /** avdsLoadedMsg: a failed load returns to the menu with the error. */
  function AvdsLoadedState(s: State, m: Messaging.AvdsLoadedMsg): State {
    if m.err.Some? then s.(avds := m.avds, err := m.err, mode := Core.Menu) else s.(avds := m.avds)
  }

  /** recordingStartedMsg: a failed start is shown as the error; a started one is kept for stopping. */
  function RecordingStartedOutcome(s: State, ms: MediaState, m: Messaging.RecordingStartedMsg): Outcome {
    if m.err.Some? then
      Outcome(s.(err := Some("Failed to start recording: " + m.err.value), successMsg := ""),
              ms.(recordingScreen := false), [])
    else Outcome(s, ms.(activeRecording := m.recording), [])
  }

  /** A setting's physical and current values, as the prompt shows them. */
  function DisplayInfo(info: Setting.SettingInfo): string {
    "Physical " + info.displayName + ": " + info.dflt + "\nCurrent " + info.displayName + ": " + info.current
  }

  /** The prompt shown once a setting's current value is known. */
  function SettingPrompt(serial: string, info: Setting.SettingInfo): string {
    "Device: " + serial + "\n" + DisplayInfo(info) + "\n\n" + info.inputPrompt
  }

  /** settingLoadedMsg: an error returns to the menu; a value opens text input for the new one. */
  function SettingLoadedState(s: State, m: Messaging.SettingLoadedMsg): State
    requires m.err.Some? || m.settingInfo.Some?
  {
    if m.err.Some? then s.(err := Some("failed to get current setting: " + m.err.value), mode := Core.Menu)
    else
      var info := m.settingInfo.value;
      s.(currentSettingInfo := m.settingInfo, currentSettingType := info.settingType, mode := Core.TextInput,
         textInputPrompt := SettingPrompt(s.selectedDeviceForAction.serial, info))
  }

  /** settingChangedMsg: a success is logged and the setting is read again; a failure is logged. */
  function SettingChangedOutcome(s: State, m: Messaging.SettingChangedMsg, now: string): (State, seq<Effect>) {
    if m.success then
      (Logged(s, m.message, Core.LogSuccess, now), [GetCurrentSetting(s.selectedDeviceForAction, m.settingType)])
    else (Logged(s, "Setting change failed: " + m.message, Core.LogError, now), [])
  }

  /** The in-progress flag of a Wi-Fi operation. */
  function WiFiBusy(s: State, op: WiFiTui.WiFiOperation): bool {
    match op
    case WiFiConnect => s.connectingWiFi
    case WiFiDisconnect => s.disconnectingWiFi
    case WiFiPair => s.pairingWiFi
  }

  function WiFiSettled(s: State, op: WiFiTui.WiFiOperation): State {
    match op
    case WiFiConnect => s.(connectingWiFi := false)
    case WiFiDisconnect => s.(disconnectingWiFi := false)
    case WiFiPair => s.(pairingWiFi := false)
  }

  /** A Wi-Fi done message: its flag is cleared; success is logged, returns to the menu and reloads the devices. */
  function WiFiDoneOutcome(s: State, msg: WiFiTui.WiFiDoneMsg, now: string): (State, seq<Effect>) {
    var s1 := WiFiSettled(s, WiFiTui.OperationOf(msg));
    var texts := WiFiTui.HandleWiFiDone(msg);
    if texts.0 != "" then (Logged(s1, texts.0, Core.LogSuccess, now).(mode := Core.Menu), [LoadDevices])
    else if texts.1 != "" then (Logged(s1, texts.1, Core.LogError, now), [])
    else (s1, [])
  }

  /** The cases of Update other than a key press, on values. */
  function MessageOutcome(s: State, ms: MediaState, msg: Msg, now: string): Outcome
    requires msg.SettingLoaded? ==> msg.loadedMsg.err.Some? || msg.loadedMsg.settingInfo.Some?
  {
    match msg
    case KeyPress(_) => Outcome(s, ms, [])
    case DevicesLoaded(m) => Outcome(DevicesLoadedState(s, m), ms, [])
    case AvdsLoaded(m) => Outcome(AvdsLoadedState(s, m), ms, [])
    case ScreenshotDone(r) =>
      Outcome(DoneState(s, r, "Screenshot failed: ", now), ms.(takingScreenshot := false), [])
    case DayNightScreenshotDone(r) =>
      Outcome(DoneState(s, r, "Day-night screenshots failed: ", now), ms.(takingDayNight := false), [])
    case RecordingStarted(m) => RecordingStartedOutcome(s, ms, m)
    case ScreenRecordDone(r) =>
      Outcome(DoneState(s, r, "Screen recording failed: ", now), ms.(recordingScreen := false, activeRecording := None), [])
    case SettingLoaded(m) => Outcome(SettingLoadedState(s, m), ms, [])
    case SettingChanged(m) =>
      var r := SettingChangedOutcome(s, m, now);
      Outcome(r.0, ms, r.1)
    case WiFiDone(m) =>
      var r := WiFiDoneOutcome(s, m, now);
      Outcome(r.0, ms, r.1)
    case TickMsg =>
      Outcome(s.(progressTicker := s.progressTicker + 1), ms, if Busy(s, ms) then [Tick] else [])
    case QuitMsg => Outcome(s.(quitting := true), ms, [Quit])
    case OtherMsg => Outcome(s, ms, [])
  }

  /** Update on values: a key press goes to handleKeyPress, every other message to its case. */
  function UpdateOutcome(s: State, ms: MediaState, msg: Msg, filtered: seq<Core.Command>,
                         launchErr: Option<string>, now: string): Outcome
    requires msg.SettingLoaded? ==> msg.loadedMsg.err.Some? || msg.loadedMsg.settingInfo.Some?
  {
    if msg.KeyPress? then KeyOutcome(s, ms, msg.key, filtered, launchErr, now) else MessageOutcome(s, ms, msg, now)
  }

  /** No message but a key press touches the search filter, its list or the menu index. */
  lemma MessageKeepsMenu(s: State, ms: MediaState, msg: Msg, now: string)
    requires msg.SettingLoaded? ==> msg.loadedMsg.err.Some? || msg.loadedMsg.settingInfo.Some?
    requires |s.logHistory| <= MaxLogEntries
    ensures KeepsMenu(s, MessageOutcome(s, ms, msg, now).state)
  {
    if msg.ScreenshotDone? || msg.DayNightScreenshotDone? || msg.ScreenRecordDone? {
      MediaMessageKeepsMenu(s, ms, msg, now);
    } else if msg.RecordingStarted? {
      RecordingStartedKeepsMenu(s, ms, msg.startedMsg);
    } else if msg.SettingLoaded? || msg.SettingChanged? || msg.WiFiDone? {
      ReplyKeepsMenu(s, ms, msg, now);
    } else {
      OtherMessageKeepsMenu(s, ms, msg, now);
    }
  }

  lemma RecordingStartedKeepsMenu(s: State, ms: MediaState, m: Messaging.RecordingStartedMsg)
    requires |s.logHistory| <= MaxLogEntries
    ensures KeepsMenu(s, RecordingStartedOutcome(s, ms, m).state)
  {
    if m.err.Some? {
      var t := s.(err := Some("Failed to start recording: " + m.err.value), successMsg := "");
      assert RecordingStartedOutcome(s, ms, m).state == t;
    }
  }

  lemma SettingLoadedKeepsMenu(s: State, m: Messaging.SettingLoadedMsg)
    requires m.err.Some? || m.settingInfo.Some?
    requires |s.logHistory| <= MaxLogEntries
    ensures KeepsMenu(s, SettingLoadedState(s, m))
  {
    if m.err.Some? {
      assert SettingLoadedState(s, m) == s.(err := Some("failed to get current setting: " + m.err.value), mode := Core.Menu);
    }
  }

  lemma MediaMessageKeepsMenu(s: State, ms: MediaState, msg: Msg, now: string)
    requires msg.ScreenshotDone? || msg.DayNightScreenshotDone? || msg.ScreenRecordDone?
    requires |s.logHistory| <= MaxLogEntries
    ensures KeepsMenu(s, MessageOutcome(s, ms, msg, now).state)
  {
    match msg
    case ScreenshotDone(r) => DoneKeepsMenu(s, r, "Screenshot failed: ", now);
    case DayNightScreenshotDone(r) => DoneKeepsMenu(s, r, "Day-night screenshots failed: ", now);
    case ScreenRecordDone(r) => DoneKeepsMenu(s, r, "Screen recording failed: ", now);
  }

  lemma ReplyKeepsMenu(s: State, ms: MediaState, msg: Msg, now: string)
    requires msg.SettingLoaded? || msg.SettingChanged? || msg.WiFiDone?
    requires msg.SettingLoaded? ==> msg.loadedMsg.err.Some? || msg.loadedMsg.settingInfo.Some?
    requires |s.logHistory| <= MaxLogEntries
    ensures KeepsMenu(s, MessageOutcome(s, ms, msg, now).state)
  {
    match msg
    case SettingLoaded(m) => SettingLoadedKeepsMenu(s, m);
    case SettingChanged(m) => SettingChangedKeepsMenu(s, m, now);
    case WiFiDone(m) => WiFiDoneKeepsMenu(s, m, now);
  }

  lemma OtherMessageKeepsMenu(s: State, ms: MediaState, msg: Msg, now: string)
    requires !(msg.ScreenshotDone? || msg.DayNightScreenshotDone? || msg.ScreenRecordDone?)
    requires !(msg.RecordingStarted? || msg.SettingLoaded? || msg.SettingChanged? || msg.WiFiDone?)
    requires |s.logHistory| <= MaxLogEntries
    ensures KeepsMenu(s, MessageOutcome(s, ms, msg, now).state)
  {
    match msg
    case KeyPress(_) =>
    case DevicesLoaded(m) =>
    case AvdsLoaded(m) =>
    case TickMsg =>
    case QuitMsg =>
    case OtherMsg =>
  }


  lemma LoggedKeepsMenu(s: State, message: string, logType: Core.LogType, now: string)
    ensures KeepsMenu(s, Logged(s, message, logType, now))
    ensures KeepsMenu(s, Logged(s, message, logType, now).(mode := Core.Menu))
  {
  }

  lemma DoneKeepsMenu(s: State, r: Messaging.OperationResult, prefix: string, now: string)
    requires |s.logHistory| <= MaxLogEntries
    ensures KeepsMenu(s, DoneState(s, r, prefix, now))
  {
    if !r.success {
      LoggedKeepsMenu(s, prefix + r.message, Core.LogError, now);
    } else if r.message != "" {
      LoggedKeepsMenu(s, r.message, Core.LogSuccess, now);
    }
  }

  lemma SettingChangedKeepsMenu(s: State, m: Messaging.SettingChangedMsg, now: string)
    ensures KeepsMenu(s, SettingChangedOutcome(s, m, now).0)
  {
    LoggedKeepsMenu(s, m.message, Core.LogSuccess, now);
    LoggedKeepsMenu(s, "Setting change failed: " + m.message, Core.LogError, now);
  }

  lemma WiFiDoneKeepsMenu(s: State, m: WiFiTui.WiFiDoneMsg, now: string)
    requires |s.logHistory| <= MaxLogEntries
    ensures KeepsMenu(s, WiFiDoneOutcome(s, m, now).0)
  {
    var s1 := WiFiSettled(s, WiFiTui.OperationOf(m));
    assert KeepsMenu(s, s1) by {
      match WiFiTui.OperationOf(m)
      case WiFiConnect =>
      case WiFiDisconnect =>
      case WiFiPair =>
    }
    var texts := WiFiTui.HandleWiFiDone(m);
    if texts.0 != "" {
      LoggedKeepsMenu(s1, texts.0, Core.LogSuccess, now);
    } else if texts.1 != "" {
      LoggedKeepsMenu(s1, texts.1, Core.LogError, now);
    }
  }

  /**
   * A device load clears the loading flag and never touches the log or the success text; it
   * reports an error exactly when the load failed or found no device.
   */
  lemma DevicesLoadedReports(s: State, m: Messaging.DevicesLoadedMsg)
    ensures var r := DevicesLoadedState(s, m);
      r.devices == m.devices && !r.loading && r.logHistory == s.logHistory && r.successMsg == s.successMsg
      && (r.err.None? <==> m.err.None? && |m.devices| > 0)
      && (m.err.Some? ==> r.err == m.err)
  {
  }

  /**
   * Every operation that starts in the background leaves the model busy and asks for a tick,
   * so the ticker, which stops once nothing is busy, always runs while one is in progress.
   */
  lemma StartedOperationsTick(s: State, ms: MediaState, device: Adb.Device, action: DeviceAction, submission: Submission)
    ensures !action.SettingChange? ==>
      var o := ActionOutcome(s, ms, device, action);
      Busy(o.state, o.media) && Tick in o.effects
    ensures submission == Connect || submission == Disconnect || submission == PairCode ==>
      var r := SubmissionOutcome(s, submission);
      Busy(r.0, ms) && Tick in r.1
  {
  }

  /** The ticker advances on every tick and asks for the next one exactly while something is busy. */
  lemma TickWhileBusy(s: State, ms: MediaState, now: string)
    ensures var o := MessageOutcome(s, ms, TickMsg, now);
      o.state == s.(progressTicker := s.progressTicker + 1) && o.media == ms
      && (o.effects == [Tick] <==> Busy(s, ms)) && (o.effects != [Tick] ==> o.effects == [])
  {
  }

  /** At start-up the first tick keeps ticking, because the first device load is pending. */
  lemma StartupTicks(ms: MediaState, now: string)
    ensures LoadDevices in Init() && Tick in Init()
    ensures MessageOutcome(Initial(), ms, TickMsg, now).effects == [Tick]
  {
  }

  /**
   * A media done message logs a failure as an error with the operation's prefix and a
   * non-empty success message as a success, and changes nothing else.
   */
  lemma DoneStateLogs(s: State, r: Messaging.OperationResult, prefix: string, now: string)
    requires prefix != ""
    ensures !r.success ==> DoneState(s, r, prefix, now) == Logged(s, prefix + r.message, Core.LogError, now)
    ensures r.success && r.message != "" ==> DoneState(s, r, prefix, now) == Logged(s, r.message, Core.LogSuccess, now)
    ensures r.success && r.message == "" ==> DoneState(s, r, prefix, now) == s
  {
    assert |prefix + r.message| > 0;
  }

  /** A Wi-Fi done message always clears its own operation's flag and no other. */
  lemma WiFiDoneSettles(s: State, m: WiFiTui.WiFiDoneMsg, now: string)
    ensures var r := WiFiDoneOutcome(s, m, now);
      !WiFiBusy(r.0, WiFiTui.OperationOf(m))
      && (forall op :: op != WiFiTui.OperationOf(m) ==> WiFiBusy(r.0, op) == WiFiBusy(s, op))
  {
    var op := WiFiTui.OperationOf(m);
    var s1 := WiFiSettled(s, op);
    SettledFlags(s, op);
    var texts := WiFiTui.HandleWiFiDone(m);
    if texts.0 != "" {
      LoggedKeepsFlags(s1, texts.0, Core.LogSuccess, now);
    } else if texts.1 != "" {
      LoggedKeepsFlags(s1, texts.1, Core.LogError, now);
    }
  }

  /**
   * Only a Wi-Fi success with a message returns to the menu and reloads the devices; otherwise
   * the mode stays and nothing is asked for.
   */
  lemma WiFiDoneReloads(s: State, m: WiFiTui.WiFiDoneMsg, now: string)
    ensures var r := WiFiDoneOutcome(s, m, now);
      (r.1 == [LoadDevices] <==> m.result.success && m.result.message != "")
      && (r.1 != [LoadDevices] ==> r.1 == [] && r.0.mode == s.mode)
      && (r.1 == [LoadDevices] ==> r.0.mode == Core.Menu)
  {
    var op := WiFiTui.OperationOf(m);
    var s1 := WiFiSettled(s, op);
    SettledFlags(s, op);
    var texts := WiFiTui.HandleWiFiDone(m);
    if texts.0 != "" {
      assert WiFiDoneOutcome(s, m, now).1 == [LoadDevices];
    } else if texts.1 != "" {
      LoggedKeepsFlags(s1, texts.1, Core.LogError, now);
      assert WiFiDoneOutcome(s, m, now) == (Logged(s1, texts.1, Core.LogError, now), []);
    } else {
      assert m.result.success;
      assert WiFiDoneOutcome(s, m, now) == (s1, []);
    }
  }

  /** A failed Wi-Fi operation is logged as an error, with the operation's prefix before the message. */
  lemma WiFiFailureLogged(s: State, m: WiFiTui.WiFiDoneMsg, now: string)
    requires !m.result.success
    ensures var r := WiFiDoneOutcome(s, m, now);
      r.0.logHistory[|r.0.logHistory| - 1]
        == Core.LogEntry(Normalize(WiFiTui.FailurePrefix(WiFiTui.OperationOf(m)) + m.result.message), Core.LogError, now)
  {
    var op := WiFiTui.OperationOf(m);
    var s1 := WiFiSettled(s, op);
    var texts := WiFiTui.HandleWiFiDone(m);
    assert texts == ("", WiFiTui.FailurePrefix(op) + m.result.message);
    assert texts.1 != "" by {
      match op
      case WiFiConnect =>
      case WiFiDisconnect =>
      case WiFiPair =>
    }
    var t := Logged(s1, texts.1, Core.LogError, now);
    assert WiFiDoneOutcome(s, m, now) == (t, []);
  }

  lemma SettledFlags(s: State, op: WiFiTui.WiFiOperation)
    ensures var s1 := WiFiSettled(s, op);
      !WiFiBusy(s1, op) && s1.mode == s.mode
      && (forall o :: o != op ==> WiFiBusy(s1, o) == WiFiBusy(s, o))
  {
    match op
    case WiFiConnect =>
    case WiFiDisconnect =>
    case WiFiPair =>
  }

  lemma LoggedKeepsFlags(s: State, message: string, logType: Core.LogType, now: string)
    ensures var t := Logged(s, message, logType, now);
      t.mode == s.mode && forall o :: WiFiBusy(t, o) == WiFiBusy(s, o)
  {
    LoggedOnlyLogs(s, message, logType, now);
  }

  /** Logged changes the log, the success text and the error, and nothing else. */
  lemma LoggedOnlyLogs(s: State, message: string, logType: Core.LogType, now: string)
    ensures var t := Logged(s, message, logType, now);
      t == s.(logHistory := t.logHistory, successMsg := "", err := None)
  {
  }


  /**
   * The setting flow: a setting command on a device asks for the current value; once it
   * arrives the model asks for the new value, still bound to that device and type; submitting
   * a value asks to change that setting; and a successful change asks for the current value
   * again without leaving text input.
   */
  lemma SettingFlow(s: State, ms: MediaState, device: Adb.Device, t: string,
                    info: Setting.SettingInfo, value: string, message: string, now: string)
    requires t == Setting.SettingTypeDPI || t == Setting.SettingTypeFontSize || t == Setting.SettingTypeScreenSize
    ensures var o1 := ActionOutcome(s, ms, device, SettingChange(t));
      var s2 := SettingLoadedState(o1.state, Messaging.SettingLoadedMsg(Some(info), None));
      var r3 := SubmitOutcome(s2.(textInput := value));
      var r4 := SettingChangedOutcome(r3.0, Messaging.SettingChangedMsg(t, true, message), now);
      o1.effects == [GetCurrentSetting(device, t)]
      && s2.mode == Core.TextInput && s2.currentSettingInfo == Some(info)
      && s2.textInputPrompt == SettingPrompt(device.serial, info)
      && r3.1 == [ChangeSetting(device, t, value)]
      && r4.1 == [GetCurrentSetting(device, t)] && r4.0.mode == Core.TextInput
  {
    var o1 := ActionOutcome(s, ms, device, SettingChange(t));
    var s2 := SettingLoadedState(o1.state, Messaging.SettingLoadedMsg(Some(info), None));
    assert s2.textInputAction == t && s2.selectedDeviceForAction == device;
    assert SubmitRoute(t) == ApplySetting(t);
  }

  // ---------------------------------------------------------------- the model

  class Model {
    /** The Model's fields; the runtime keeps the value each handler returns. */
    var st: State
    const mediaFeature: Media.MediaFeature
    /** The registry's catalog, which getAvailableCommands returns on every call. */
    const catalog: seq<Core.Command>

    /** NewModel: the menu, loading, an idle media feature and the unfiltered catalog. */
    constructor ()
      ensures st == Initial() && catalog == TuiSearch.Catalog() && Valid(st, catalog)
      ensures fresh(mediaFeature) && MediaOf(mediaFeature) == MediaState(false, false, false, None)
    {
      mediaFeature := new Media.MediaFeature();
      var commands := Core.GetAvailableCommands();
      assert commands == TuiSearch.Catalog();
      catalog := commands;
      var searchFilter := "";
      var filteredCommands := TuiSearch.FilterCatalog(commands, searchFilter);
      st := State([], [], 0, 0, 0, Core.Menu, None, "", false, [], true, "", "", "",
                  Adb.NewDevice("", ""), None, "", false, false, false, "",
                  searchFilter, filteredCommands, 0, 0);
    }

    /** addLogEntry: append the normalised entry and keep the newest five. */
    method AddLogEntry(message: string, logType: Core.LogType, now: string)
      modifies this
      ensures st == Logged(old(st), message, logType, now)
    {
      var normalizedMessage := TrimSpace(ReplaceAllChar(message, '\t', "  "));
      var entry := Core.LogEntry(normalizedMessage, logType, now);
      var history := st.logHistory + [entry];
      if |history| > MaxLogEntries {
        history := history[|history| - MaxLogEntries..];
      }
      LoggedHistory(st, message, logType, now, history);
      st := st.(logHistory := history, successMsg := "", err := None);
    }

    /** clearLogs */
    method ClearLogs()
      modifies this
      ensures st == Cleared(old(st))
    {
      st := st.(logHistory := []);
      st := st.(successMsg := "");
      st := st.(err := None);
    }

    /** executeScreenshot, executeDayNightScreenshots and executeScreenRecord, by action. */
    method StartMediaOperation(device: Adb.Device, action: DeviceAction) returns (effects: seq<Effect>)
      requires !action.SettingChange?
      modifies this, mediaFeature
      ensures st == Cleared(old(st)).(mode := Core.Menu)
      ensures action == Shot ==> (MediaOf(mediaFeature) == old(MediaOf(mediaFeature)).(takingScreenshot := true)
        && effects == [TakeScreenshot(device), Tick])
      ensures action == DayNightShot ==> (MediaOf(mediaFeature) == old(MediaOf(mediaFeature)).(takingDayNight := true)
        && effects == [TakeDayNight(device), Tick])
      ensures action == Record ==> (MediaOf(mediaFeature) == old(MediaOf(mediaFeature)).(recordingScreen := true)
        && effects == [StartRecording(device), Tick])
    {
      st := st.(mode := Core.Menu);
      ClearLogs();
      match action
      case Shot =>
        mediaFeature.StartScreenshot();
        effects := [TakeScreenshot(device), Tick];
      case DayNightShot =>
        mediaFeature.StartDayNightScreenshot();
        effects := [TakeDayNight(device), Tick];
      case Record =>
        mediaFeature.StartRecording();
        effects := [StartRecording(device), Tick];
    }

    /** executeCommandForDevice */
    method ExecuteCommandForDevice(device: Adb.Device) returns (effects: seq<Effect>)
      modifies this, mediaFeature
      ensures Outcome(st, MediaOf(mediaFeature), effects) == DeviceOutcome(old(st), old(MediaOf(mediaFeature)), device)
    {
      if |st.filteredCommands| == 0 || st.selectedCommandIndex >= |st.filteredCommands| {
        return [];
      }
      var selectedCmd := st.filteredCommands[st.selectedCommandIndex];
      var action := DeviceRoute(selectedCmd.command);
      match action
      case SettingChange(t) =>
        st := st.(selectedDeviceForAction := device);
        st := st.(textInputAction := t);
        effects := [GetCurrentSetting(device, t)];
      case _ =>
        effects := StartMediaOperation(device, action);
    }

    /** executeSelectedCommand */
    method ExecuteSelectedCommand() returns (effects: seq<Effect>)
      modifies this, mediaFeature
      ensures Outcome(st, MediaOf(mediaFeature), effects) == SelectedOutcome(old(st), old(MediaOf(mediaFeature)))
    {
      if |st.filteredCommands| == 0 || st.selectedCommandIndex >= |st.filteredCommands| {
        return [];
      }
      var selectedCmd := st.filteredCommands[st.selectedCommandIndex];
      st := st.(selectedCommand := st.selectedCommandIndex);
      match MenuRoute(selectedCmd.command)
      case ToEmulatorSelect =>
        st := st.(mode := Core.EmulatorSelect);
        effects := [LoadAvds];
      case ToTextInput(action, prompt) =>
        st := st.(mode := Core.TextInput);
        st := st.(textInputPrompt := prompt);
        st := st.(textInputAction := action);
        st := st.(textInput := "");
        effects := [];
      case RefreshDevices =>
        ClearLogs();
        effects := [LoadDevices];
      case NeedsDevice =>
        if |st.devices| == 1 {
          effects := ExecuteCommandForDevice(st.devices[0]);
        } else {
          st := st.(mode := Core.DeviceSelect);
          effects := [];
        }
    }

    /** stopRecording */
    method StopRecording() returns (effects: seq<Effect>)
      modifies mediaFeature
      ensures st == old(st)
      ensures Outcome(st, MediaOf(mediaFeature), effects) == StopOutcome(old(st), old(MediaOf(mediaFeature)))
    {
      var activeRecording := mediaFeature.activeRecording;
      if activeRecording.Some? {
        return [StopAndSaveRecording(activeRecording.value)];
      }
      mediaFeature.FinishRecording();
      return [];
    }

    /** launchEmulator; the launch itself is the oracle `launchErr`. */
    method LaunchEmulator(avd: Emulator.AVD, launchErr: Option<string>, now: string) returns (effects: seq<Effect>)
      modifies this
      ensures (st, effects) == LaunchOutcome(old(st), avd, launchErr, now)
    {
      st := st.(mode := Core.Menu, err := None, successMsg := "");
      if launchErr.Some? {
        st := st.(err := Some("failed to launch emulator: " + launchErr.value));
        return [];
      }
      AddLogEntry("Launched emulator: " + avd.name + " (may take a moment to appear)", Core.LogSuccess, now);
      return [LoadDevices];
    }

    /** handleTextInputSubmit: the setting types first, then the Wi-Fi actions, else back to the menu. */
    method HandleTextInputSubmit() returns (effects: seq<Effect>)
      modifies this
      ensures (st, effects) == SubmitOutcome(old(st))
    {
      var settingType := st.textInputAction;
      if settingType == Setting.SettingTypeDPI || settingType == Setting.SettingTypeFontSize
        || settingType == Setting.SettingTypeScreenSize {
        assert SubmitRoute(settingType) == ApplySetting(settingType);
        effects := ExecuteSettingChange(settingType);
      } else {
        effects := SubmitWiFiAction();
      }
    }

    /** The Wi-Fi branches of handleTextInputSubmit, and the fallback for an unknown action. */
    method SubmitWiFiAction() returns (effects: seq<Effect>)
      requires !(st.textInputAction == Setting.SettingTypeDPI || st.textInputAction == Setting.SettingTypeFontSize
        || st.textInputAction == Setting.SettingTypeScreenSize)
      modifies this
      ensures (st, effects) == SubmitOutcome(old(st))
    {
      ghost var s0 := st;
      if st.textInputAction == "wifi_connect" {
        assert SubmitRoute(s0.textInputAction) == Connect;
        effects := ExecuteWiFiConnect();
      } else if st.textInputAction == "wifi_disconnect" {
        assert SubmitRoute(s0.textInputAction) == Disconnect;
        effects := ExecuteWiFiDisconnect();
      } else if st.textInputAction == "wifi_pair_address" {
        assert SubmitRoute(s0.textInputAction) == PairAddress;
        effects := HandlePairingAddressInput();
      } else if st.textInputAction == "wifi_pair_code" {
        assert SubmitRoute(s0.textInputAction) == PairCode;
        effects := ExecuteWiFiPair();
      } else {
        assert SubmitRoute(s0.textInputAction) == UnknownAction;
        st := st.(mode := Core.Menu);
        st := st.(textInput := "", textInputPrompt := "", textInputAction := "");
        effects := [];
      }
    }

    /** executeSettingChange: stay in text input, clear the input and send it. */
    method ExecuteSettingChange(settingType: string) returns (effects: seq<Effect>)
      modifies this
      ensures st == old(st).(textInput := "")
      ensures effects == [ChangeSetting(st.selectedDeviceForAction, settingType, old(st.textInput))]
    {
      var input := st.textInput;
      st := st.(textInput := "");
      return [ChangeSetting(st.selectedDeviceForAction, settingType, input)];
    }

    /** executeWiFiConnect */
    method ExecuteWiFiConnect() returns (effects: seq<Effect>)
      modifies this
      ensures st == Cleared(InputCleared(old(st))).(mode := Core.Menu, connectingWiFi := true)
      ensures effects == [ConnectWiFi(old(st.textInput)), Tick]
    {
      st := st.(mode := Core.Menu);
      ClearLogs();
      st := st.(connectingWiFi := true);
      var input := st.textInput;
      st := st.(textInput := "", textInputPrompt := "", textInputAction := "");
      return [ConnectWiFi(input), Tick];
    }

    /** executeWiFiDisconnect */
    method ExecuteWiFiDisconnect() returns (effects: seq<Effect>)
      modifies this
      ensures st == Cleared(InputCleared(old(st))).(mode := Core.Menu, disconnectingWiFi := true)
      ensures effects == [DisconnectWiFi(old(st.textInput)), Tick]
    {
      st := st.(mode := Core.Menu);
      ClearLogs();
      st := st.(disconnectingWiFi := true);
      var input := st.textInput;
      st := st.(textInput := "", textInputPrompt := "", textInputAction := "");
      return [DisconnectWiFi(input), Tick];
    }

    /** handlePairingAddressInput: keep the address and ask for the code, still in text input. */
    method HandlePairingAddressInput() returns (effects: seq<Effect>)
      modifies this
      ensures st == old(st).(pairingAddress := old(st.textInput), textInput := "",
        textInputPrompt := "Enter 6-digit pairing code from phone for " + old(st.textInput),
        textInputAction := "wifi_pair_code")
      ensures effects == []
    {
      st := st.(pairingAddress := st.textInput);
      st := st.(textInput := "");
      st := st.(textInputPrompt := "Enter 6-digit pairing code from phone for " + st.pairingAddress);
      st := st.(textInputAction := "wifi_pair_code");
      return [];
    }

    /** executeWiFiPair: pair the stored address with the typed code. */
    method ExecuteWiFiPair() returns (effects: seq<Effect>)
      modifies this
      ensures st == Cleared(InputCleared(old(st))).(mode := Core.Menu, pairingWiFi := true, pairingAddress := "")
      ensures effects == [PairWiFi(old(st.pairingAddress), old(st.textInput)), Tick]
    {
      st := st.(mode := Core.Menu);
      ClearLogs();
      st := st.(pairingWiFi := true);
      var pairingCode := st.textInput;
      var address := st.pairingAddress;
      st := st.(textInput := "", textInputPrompt := "", textInputAction := "");
      st := st.(pairingAddress := "");
      return [PairWiFi(address, pairingCode), Tick];
    }

    /** A new search filter and the command list filterCommands computes for it. */
    method Refilter(newFilter: string)
      modifies this
      ensures st == old(st).(searchFilter := newFilter, filteredCommands := st.filteredCommands)
      ensures TuiSearch.FilteredFrom(catalog, st.filteredCommands, newFilter)
    {
      var filtered := TuiSearch.FilterCatalog(catalog, newFilter);
      st := st.(searchFilter := newFilter, filteredCommands := filtered);
    }

    /** esc in the menu. */
    method ClearSearch()
      requires Valid(st, catalog)
      modifies this
      ensures Valid(st, catalog)
      ensures st == SearchCleared(old(st), st.filteredCommands)
    {
      if st.searchFilter != "" {
        Refilter("");
        st := st.(selectedCommandIndex := 0);
      }
    }

    /** up and down in the menu. */
    method MoveSelection(up: bool)
      requires Valid(st, catalog)
      modifies this
      ensures Valid(st, catalog)
      ensures st == SelectionMoved(old(st), up)
    {
      if up {
        if st.selectedCommandIndex > 0 {
          ValidWithIndex(st, catalog, st.selectedCommandIndex - 1);
          st := st.(selectedCommandIndex := st.selectedCommandIndex - 1);
        }
      } else {
        if st.selectedCommandIndex < |st.filteredCommands| - 1 {
          ValidWithIndex(st, catalog, st.selectedCommandIndex + 1);
          st := st.(selectedCommandIndex := st.selectedCommandIndex + 1);
        }
      }
    }

    /** backspace in the menu. */
    method ShortenSearch()
      requires Valid(st, catalog)
      modifies this
      ensures Valid(st, catalog)
      ensures st == SearchShortened(old(st), st.filteredCommands)
    {
      if |st.searchFilter| > 0 {
        Refilter(st.searchFilter[..|st.searchFilter| - 1]);
        if st.selectedCommandIndex >= |st.filteredCommands| {
          st := st.(selectedCommandIndex := 0);
        }
      }
    }

    /** A typed character in the menu. */
    method ExtendSearch(c: char)
      requires Valid(st, catalog)
      modifies this
      ensures Valid(st, catalog)
      ensures st == SearchExtended(old(st), c, st.filteredCommands)
    {
      Refilter(st.searchFilter + [c]);
      st := st.(selectedCommandIndex := 0);
    }

    /** The menu's keys. */
    method HandleMenuKey(key: Key) returns (effects: seq<Effect>)
      requires Valid(st, catalog)
      modifies this, mediaFeature
      ensures Valid(st, catalog)
      ensures Outcome(st, MediaOf(mediaFeature), effects)
        == MenuKeyOutcome(old(st), old(MediaOf(mediaFeature)), key, st.filteredCommands)
    {
      effects := [];
      match key
      case CtrlC =>
        effects := [Quit];
      case Esc =>
        ClearSearch();
      case Up =>
        MoveSelection(true);
      case Down =>
        MoveSelection(false);
      case Enter =>
        if |st.filteredCommands| > 0 && st.selectedCommandIndex < |st.filteredCommands| {
          ghost var s0, ms0 := st, MediaOf(mediaFeature);
          effects := ExecuteSelectedCommand();
          SelectedKeepsMenu(s0, ms0);
          ValidAfter(s0, st, catalog);
        }
      case Backspace =>
        ShortenSearch();
      case Char(c) =>
        ExtendSearch(c);
      case Other =>
    }

    /** The keys of device selection. */
    method HandleDeviceSelectKey(key: Key) returns (effects: seq<Effect>)
      modifies this, mediaFeature
      ensures Outcome(st, MediaOf(mediaFeature), effects) == DeviceSelectKeyOutcome(old(st), old(MediaOf(mediaFeature)), key)
    {
      if key == Esc {
        st := st.(mode := Core.Menu);
        return [];
      } else if key == Up || key == Char('k') || key == Char('h') {
        if st.selectedDevice > 0 {
          st := st.(selectedDevice := st.selectedDevice - 1);
        }
        return [];
      } else if key == Down || key == Char('j') || key == Char('l') {
        if st.selectedDevice < |st.devices| - 1 {
          st := st.(selectedDevice := st.selectedDevice + 1);
        }
        return [];
      } else if key == Enter && st.selectedDevice < |st.devices| {
        effects := ExecuteCommandForDevice(st.devices[st.selectedDevice]);
        return;
      }
      return [];
    }

    /** The keys of emulator selection. */
    method HandleEmulatorSelectKey(key: Key, launchErr: Option<string>, now: string) returns (effects: seq<Effect>)
      modifies this
      ensures Outcome(st, MediaOf(mediaFeature), effects)
        == EmulatorSelectKeyOutcome(old(st), old(MediaOf(mediaFeature)), key, launchErr, now)
    {
      ghost var s0, ms0 := st, MediaOf(mediaFeature);
      effects := [];
      if key == Esc {
        st := st.(mode := Core.Menu);
      } else if key == Up || key == Char('k') || key == Char('h') {
        if st.selectedEmulator > 0 {
          st := st.(selectedEmulator := st.selectedEmulator - 1);
        }
      } else if key == Down || key == Char('j') || key == Char('l') {
        if st.selectedEmulator < |st.avds| - 1 {
          st := st.(selectedEmulator := st.selectedEmulator + 1);
        }
      } else if key == Enter && st.selectedEmulator < |st.avds| {
        effects := LaunchEmulator(st.avds[st.selectedEmulator], launchErr, now);
      }
      assert Outcome(st, ms0, effects) == EmulatorSelectKeyOutcome(s0, ms0, key, launchErr, now);
      assert MediaOf(mediaFeature) == ms0;
    }

    /** The keys of text input. */
    method HandleTextInputKey(key: Key) returns (effects: seq<Effect>)
      modifies this
      ensures Outcome(st, MediaOf(mediaFeature), effects) == TextInputKeyOutcome(old(st), old(MediaOf(mediaFeature)), key)
    {
      if key == Enter {
        effects := HandleTextInputSubmit();
        return;
      } else if key == Esc {
        st := st.(mode := Core.Menu);
        st := st.(textInput := "", textInputPrompt := "", textInputAction := "");
        return [];
      } else if key == Backspace {
        if |st.textInput| > 0 {
          st := st.(textInput := st.textInput[..|st.textInput| - 1]);
        }
        return [];
      } else {
        if key.Char? {
          st := st.(textInput := st.textInput + [key.c]);
        }
        return [];
      }
    }

    /** handleKeyPress */
    method HandleKeyPress(key: Key, launchErr: Option<string>, now: string) returns (effects: seq<Effect>)
      requires Valid(st, catalog)
      modifies this, mediaFeature
      ensures Valid(st, catalog)
      ensures Outcome(st, MediaOf(mediaFeature), effects)
        == KeyOutcome(old(st), old(MediaOf(mediaFeature)), key, st.filteredCommands, launchErr, now)
    {
      if mediaFeature.recordingScreen && key == Esc {
        effects := StopRecording();
      } else {
        effects := HandleModeKey(key, launchErr, now);
      }
    }

    /** handleKeyPress's switch on the mode. */
    method HandleModeKey(key: Key, launchErr: Option<string>, now: string) returns (effects: seq<Effect>)
      requires Valid(st, catalog)
      modifies this, mediaFeature
      ensures Valid(st, catalog)
      ensures Outcome(st, MediaOf(mediaFeature), effects)
        == ModeKeyOutcome(old(st), old(MediaOf(mediaFeature)), key, st.filteredCommands, launchErr, now)
    {
      ghost var s0, ms0 := st, MediaOf(mediaFeature);
      match st.mode
      case Menu =>
        effects := HandleMenuKey(key);
      case DeviceSelect =>
        effects := HandleDeviceSelectKey(key);
        DeviceSelectKeepsMenu(s0, ms0, key);
        ValidAfter(s0, st, catalog);
      case EmulatorSelect =>
        effects := HandleEmulatorSelectKey(key, launchErr, now);
        EmulatorSelectKeepsMenu(s0, ms0, key, launchErr, now);
        ValidAfter(s0, st, catalog);
      case TextInput =>
        effects := HandleTextInputKey(key);
        TextInputKeepsMenu(s0, ms0, key);
        ValidAfter(s0, st, catalog);
      case CommandMode =>
        effects := [];
    }

    /** Update: a key press goes to handleKeyPress, every other message to its case. */
    method Update(msg: Msg, launchErr: Option<string>, now: string) returns (effects: seq<Effect>)
      requires Valid(st, catalog)
      requires msg.SettingLoaded? ==> msg.loadedMsg.err.Some? || msg.loadedMsg.settingInfo.Some?
      modifies this, mediaFeature
      ensures Valid(st, catalog)
      ensures Outcome(st, MediaOf(mediaFeature), effects)
        == UpdateOutcome(old(st), old(MediaOf(mediaFeature)), msg, st.filteredCommands, launchErr, now)
    {
      if msg.KeyPress? {
        effects := HandleKeyPress(msg.key, launchErr, now);
        return;
      }
      ghost var s0, ms0 := st, MediaOf(mediaFeature);
      effects := HandleMessage(msg, now);
      MessageKeepsMenu(s0, ms0, msg, now);
      ValidAfter(s0, st, catalog);
    }

    /** Update's cases other than a key press. */
    method HandleMessage(msg: Msg, now: string) returns (effects: seq<Effect>)
      requires msg.SettingLoaded? ==> msg.loadedMsg.err.Some? || msg.loadedMsg.settingInfo.Some?
      modifies this, mediaFeature
      ensures Outcome(st, MediaOf(mediaFeature), effects)
        == MessageOutcome(old(st), old(MediaOf(mediaFeature)), msg, now)
    {
      if msg.ScreenshotDone? || msg.DayNightScreenshotDone? || msg.RecordingStarted? || msg.ScreenRecordDone? {
        HandleMediaMessage(msg, now);
        effects := [];
      } else {
        effects := HandleOtherMessage(msg, now);
      }
    }

    /** The media feature's messages. */
    method HandleMediaMessage(msg: Msg, now: string)
      requires msg.ScreenshotDone? || msg.DayNightScreenshotDone? || msg.RecordingStarted? || msg.ScreenRecordDone?
      modifies this, mediaFeature
      ensures Outcome(st, MediaOf(mediaFeature), [])
        == MessageOutcome(old(st), old(MediaOf(mediaFeature)), msg, now)
    {
      match msg
      case ScreenshotDone(r) => HandleScreenshotDone(r, now);
      case DayNightScreenshotDone(r) => HandleDayNightScreenshotDone(r, now);
      case RecordingStarted(m) => HandleRecordingStarted(m);
      case ScreenRecordDone(r) => HandleScreenRecordDone(r, now);
    }

    /** The messages that leave the media feature alone. */
    method HandleOtherMessage(msg: Msg, now: string) returns (effects: seq<Effect>)
      requires !(msg.ScreenshotDone? || msg.DayNightScreenshotDone? || msg.RecordingStarted? || msg.ScreenRecordDone?)
      requires msg.SettingLoaded? ==> msg.loadedMsg.err.Some? || msg.loadedMsg.settingInfo.Some?
      modifies this
      ensures Outcome(st, MediaOf(mediaFeature), effects)
        == MessageOutcome(old(st), MediaOf(mediaFeature), msg, now)
    {
      effects := [];
      match msg
      case KeyPress(_) =>
      case DevicesLoaded(m) => HandleDevicesLoaded(m);
      case AvdsLoaded(m) => HandleAvdsLoaded(m);
      case SettingLoaded(m) => HandleSettingLoaded(m);
      case SettingChanged(m) => effects := HandleSettingChanged(m, now);
      case WiFiDone(m) => effects := HandleWiFiDone(m, now);
      case TickMsg => effects := HandleTick();
      case QuitMsg => effects := HandleQuit();
      case OtherMsg =>
    }

    /** devicesLoadedMsg; the selection is left as it was. */
    method HandleDevicesLoaded(m: Messaging.DevicesLoadedMsg)
      modifies this
      ensures st == DevicesLoadedState(old(st), m)
    {
      st := st.(devices := m.devices);
      st := st.(err := m.err);
      st := st.(loading := false);
      if |st.devices| == 0 && st.err.None? {
        st := st.(err := Some("no devices connected"));
      }
    }

    /** avdsLoadedMsg */
    method HandleAvdsLoaded(m: Messaging.AvdsLoadedMsg)
      modifies this
      ensures st == AvdsLoadedState(old(st), m)
    {
      st := st.(avds := m.avds);
      if m.err.Some? {
        st := st.(err := m.err);
        st := st.(mode := Core.Menu);
      }
    }

    /** Log a media handler's texts: the success text, then the error text, each when non-empty. */
    method Report(successText: string, errorText: string, now: string)
      modifies this
      ensures st == Reported(old(st), successText, errorText, now)
    {
      if successText != "" {
        AddLogEntry(successText, Core.LogSuccess, now);
      }
      if errorText != "" {
        AddLogEntry(errorText, Core.LogError, now);
      }
    }

    /** screenshotDoneMsg */
    method HandleScreenshotDone(r: Messaging.OperationResult, now: string)
      modifies this, mediaFeature
      ensures st == DoneState(old(st), r, "Screenshot failed: ", now)
      ensures MediaOf(mediaFeature) == old(MediaOf(mediaFeature)).(takingScreenshot := false)
    {
      var successText, errorText := mediaFeature.HandleScreenshotDone(r);
      Report(successText, errorText, now);
    }

    /** dayNightScreenshotDoneMsg */
    method HandleDayNightScreenshotDone(r: Messaging.OperationResult, now: string)
      modifies this, mediaFeature
      ensures st == DoneState(old(st), r, "Day-night screenshots failed: ", now)
      ensures MediaOf(mediaFeature) == old(MediaOf(mediaFeature)).(takingDayNight := false)
    {
      var successText, errorText := mediaFeature.HandleDayNightScreenshotDone(r);
      Report(successText, errorText, now);
    }

    /** screenRecordDoneMsg */
    method HandleScreenRecordDone(r: Messaging.OperationResult, now: string)
      modifies this, mediaFeature
      ensures st == DoneState(old(st), r, "Screen recording failed: ", now)
      ensures MediaOf(mediaFeature) == old(MediaOf(mediaFeature)).(recordingScreen := false, activeRecording := None)
    {
      var successText, errorText := mediaFeature.HandleScreenRecordDone(r);
      Report(successText, errorText, now);
    }

    /** recordingStartedMsg: the error replaces the success text rather than being logged. */
    method HandleRecordingStarted(m: Messaging.RecordingStartedMsg)
      modifies this, mediaFeature
      ensures Outcome(st, MediaOf(mediaFeature), [])
        == RecordingStartedOutcome(old(st), old(MediaOf(mediaFeature)), m)
    {
      var successText, errorText := mediaFeature.HandleRecordingStarted(m);
      if errorText != "" {
        st := st.(err := Some(errorText));
        st := st.(successMsg := "");
      }
    }

    /** settingLoadedMsg; a message without an error carries the setting's values. */
    method HandleSettingLoaded(m: Messaging.SettingLoadedMsg)
      requires m.err.Some? || m.settingInfo.Some?
      modifies this
      ensures st == SettingLoadedState(old(st), m)
    {
      if m.err.Some? {
        st := st.(err := Some("failed to get current setting: " + m.err.value));
        st := st.(mode := Core.Menu);
      } else {
        var info := m.settingInfo.value;
        st := st.(currentSettingInfo := m.settingInfo);
        st := st.(currentSettingType := info.settingType);
        st := st.(mode := Core.TextInput);
        var displayInfo := "Physical " + info.displayName + ": " + info.dflt
          + "\nCurrent " + info.displayName + ": " + info.current;
        st := st.(textInputPrompt := "Device: " + st.selectedDeviceForAction.serial + "\n" + displayInfo + "\n\n" + info.inputPrompt);
      }
    }

    /** settingChangedMsg */
    method HandleSettingChanged(m: Messaging.SettingChangedMsg, now: string) returns (effects: seq<Effect>)
      modifies this
      ensures (st, effects) == SettingChangedOutcome(old(st), m, now)
    {
      if m.success {
        AddLogEntry(m.message, Core.LogSuccess, now);
        return [GetCurrentSetting(st.selectedDeviceForAction, m.settingType)];
      }
      AddLogEntry("Setting change failed: " + m.message, Core.LogError, now);
      return [];
    }

    /** wifiConnectDoneMsg, wifiDisconnectDoneMsg and wifiPairDoneMsg. */
    method HandleWiFiDone(m: WiFiTui.WiFiDoneMsg, now: string) returns (effects: seq<Effect>)
      modifies this
      ensures (st, effects) == WiFiDoneOutcome(old(st), m, now)
    {
      SettleWiFi(WiFiTui.OperationOf(m));
      var texts := WiFiTui.HandleWiFiDone(m);
      if texts.0 != "" {
        AddLogEntry(texts.0, Core.LogSuccess, now);
        st := st.(mode := Core.Menu);
        return [LoadDevices];
      } else if texts.1 != "" {
        AddLogEntry(texts.1, Core.LogError, now);
      }
      return [];
    }

    /** The first step of each Wi-Fi done case: the operation is no longer in progress. */
    method SettleWiFi(op: WiFiTui.WiFiOperation)
      modifies this
      ensures st == WiFiSettled(old(st), op)
    {
      match op
      case WiFiConnect => st := st.(connectingWiFi := false);
      case WiFiDisconnect => st := st.(disconnectingWiFi := false);
      case WiFiPair => st := st.(pairingWiFi := false);
    }

    /** tickMsg: advance the ticker; tick again while anything is in progress. */
    method HandleTick() returns (effects: seq<Effect>)
      modifies this
      ensures st == old(st).(progressTicker := old(st.progressTicker) + 1)
      ensures effects == if Busy(old(st), MediaOf(mediaFeature)) then [Tick] else []
    {
      st := st.(progressTicker := st.progressTicker + 1);
      if st.loading || mediaFeature.IsActive() || st.connectingWiFi || st.disconnectingWiFi || st.pairingWiFi {
        return [Tick];
      }
      return [];
    }

    /** tea.QuitMsg */
    method HandleQuit() returns (effects: seq<Effect>)
      modifies this
      ensures st == old(st).(quitting := true) && effects == [Quit]
    {
      st := st.(quitting := true);
      effects := [Quit];
    }
  }
}
