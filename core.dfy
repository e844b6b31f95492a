/*
 * Shared types and helpers of the terminal UI (internal/tui/core): the UI's own copy of
 * the command catalog, and the path and message formatting helpers.
 */
module Core {
  import opened Wrappers
  import opened Text
  import Registry

  /** The UI modes. `CommandMode` ("command") is declared but never entered. */
  datatype Mode = Menu | DeviceSelect | EmulatorSelect | CommandMode | TextInput

  datatype LogType = LogSuccess | LogError | LogInfo

  /** A line of the activity log; the timestamp is opaque. */
  datatype LogEntry = LogEntry(message: string, logType: LogType, timestamp: string)

  datatype Command = Command(command: string, name: string, description: string, category: string)

  datatype CommandCategory = CommandCategory(name: string, commands: seq<Command>)

  /** The UI's catalog: a field-by-field copy of the registry's CLI catalog. */
  method GetAvailableCommands() returns (commands: seq<Command>)
    ensures |commands| == |Registry.GetAvailableCommands()|
    ensures forall i :: 0 <= i < |commands| ==>
      var c := Registry.GetAvailableCommands()[i];
      commands[i] == Command(c.command, c.name, c.description, c.category)
  {
    var registryCommands := Registry.GetAvailableCommands();
    var arr := new Command[|registryCommands|](_ => Command("", "", "", ""));
    var i := 0;
    while i < |registryCommands|
      invariant 0 <= i <= |registryCommands|
      invariant forall k :: 0 <= k < i ==>
        arr[k] == Command(registryCommands[k].command, registryCommands[k].name,
                          registryCommands[k].description, registryCommands[k].category)
    {
      var cmd := registryCommands[i];
      arr[i] := Command(cmd.command, cmd.name, cmd.description, cmd.category);
      i := i + 1;
    }
    commands := arr[..];
  }

  /** The core copy of one registry command. */
  function FromRegistry(c: Registry.Command): (r: Command)
    ensures r.command == c.command && r.name == c.name
    ensures r.description == c.description && r.category == c.category
  {
    Command(c.command, c.name, c.description, c.category)
  }

  /**
   * A field-by-field copy of a registry category list. The registry function it reads from
   * does not exist in the registry package, so the list is a parameter here.
   */
  method GetCommandCategories(registryCategories: seq<Registry.CommandCategory>)
    returns (categories: seq<CommandCategory>)
    ensures |categories| == |registryCategories|
    ensures forall i :: 0 <= i < |categories| ==>
      categories[i].name == registryCategories[i].name
      && |categories[i].commands| == |registryCategories[i].commands|
      && forall j :: 0 <= j < |categories[i].commands| ==>
           categories[i].commands[j] == FromRegistry(registryCategories[i].commands[j])
  {
    var arr := new CommandCategory[|registryCategories|](_ => CommandCategory("", []));
    var i := 0;
    while i < |registryCategories|
      invariant 0 <= i <= |registryCategories|
      invariant forall k :: 0 <= k < i ==>
        arr[k].name == registryCategories[k].name
        && |arr[k].commands| == |registryCategories[k].commands|
        && forall j :: 0 <= j < |arr[k].commands| ==>
             arr[k].commands[j] == FromRegistry(registryCategories[k].commands[j])
    {
      var cat := registryCategories[i];
      var cmds := new Command[|cat.commands|](_ => Command("", "", "", ""));
      var j := 0;
      while j < |cat.commands|
        modifies cmds
        invariant 0 <= j <= |cat.commands|
        invariant forall q :: 0 <= q < j ==> cmds[q] == FromRegistry(cat.commands[q])
      {
        var cmd := cat.commands[j];
        cmds[j] := Command(cmd.command, cmd.name, cmd.description, cmd.category);
        j := j + 1;
      }
      arr[i] := CommandCategory(cat.name, cmds[..]);
      i := i + 1;
    }
    categories := arr[..];
  }

  /**
   * Replaces a leading home directory by "~". `home` is the result of the home-directory
   * lookup; when the lookup fails the path is kept.
   */
  function ShortenHomePath(path: string, home: Result<string>): (r: string)
    ensures home.Err? ==> r == path
    ensures home.Ok? && HasPrefix(path, home.value) ==> r == "~" + path[|home.value|..]
    ensures home.Ok? && !HasPrefix(path, home.value) ==> r == path
  {
    if home.Err? then path
    else if HasPrefix(path, home.value) then ReplaceFirst(path, home.value, "~")
    else path
  }

  /** Expanding "~" back into the home directory gives the original path. */
  lemma ShortenHomePathRoundTrip(path: string, home: string)
    requires HasPrefix(path, home)
    ensures var r := ShortenHomePath(path, Ok(home)); r[0] == '~' && home + r[1..] == path
  {
    var r := ShortenHomePath(path, Ok(home));
    assert r[1..] == path[|home|..];
    assert path == path[..|home|] + path[|home|..];
  }

  /** "<operation> failed on <serial>: <error>" */
  function FormatErrorMessage(operation: string, deviceSerial: string, err: string): (r: string)
    ensures HasPrefix(r, operation + " failed on " + deviceSerial) && HasSuffix(r, ": " + err)
  {
    operation + " failed on " + deviceSerial + ": " + err
  }

  /** "<operation> completed on <serial>", followed by "\n<details>" only when there are details. */
  function FormatSuccessMessage(operation: string, deviceSerial: string, details: string): (r: string)
    ensures details == "" ==> r == operation + " completed on " + deviceSerial
    ensures details != "" ==> r == operation + " completed on " + deviceSerial + "\n" + details
  {
    if details != "" then operation + " completed on " + deviceSerial + "\n" + details
    else operation + " completed on " + deviceSerial
  }
}
