/*
 * The command catalog shared by the CLI and the terminal UI
 * (internal/registry/commands.go).
 */
module Registry {
  /** A menu command: its kebab-case CLI name, display name, description and category. */
  datatype Command = Command(command: string, name: string, description: string, category: string)

  datatype CommandCategory = CommandCategory(name: string, commands: seq<Command>)

  /** No two entries share a CLI name. */
  predicate DistinctNames(cmds: seq<Command>) {
    forall i, j :: 0 <= i < j < |cmds| ==> cmds[i].command != cmds[j].command
  }

  /** The fixed order in which categories are listed. */
  const CategoryOrder: seq<string> := ["Media", "Device settings", "WiFi", "Devices/emulators"]

  /** The CLI catalog: nine commands, every category one of the listed four. */
  function GetAvailableCommands(): (r: seq<Command>)
    ensures |r| == 9
    ensures forall i :: 0 <= i < |r| ==> r[i].category in CategoryOrder
  {
    [ Command("screenshot", "Screenshot", "Take a screenshot", "Media"),
      Command("screenshot-day-night", "Screenshot day-night", "Take screenshots in day and night mode", "Media"),
      Command("screen-record", "Screen record", "Record the screen", "Media"),
      Command("dpi", "DPI", "View or change device DPI", "Device settings"),
      Command("font-size", "Font size", "View or change device font size", "Device settings"),
      Command("screen-size", "Screen size", "View or change device screen size", "Device settings"),
      Command("wifi", "WiFi", "Manage WiFi device connections", "WiFi"),
      Command("emulator", "Emulator", "Manage Android emulators", "Devices/emulators"),
      Command("refresh-devices", "Refresh devices", "Refresh the device list", "Devices/emulators") ]
  }

  /** The finer-grained catalog of the terminal UI: twelve commands in the listed categories. */
  function GetTUICommands(): (r: seq<Command>)
    ensures |r| == 12
    ensures forall i :: 0 <= i < |r| ==> r[i].category in CategoryOrder
    ensures r[..6] == GetAvailableCommands()[..6]
  {
    [ Command("screenshot", "Screenshot", "Take a screenshot", "Media"),
      Command("screenshot-day-night", "Screenshot day-night", "Take screenshots in day and night mode", "Media"),
      Command("screen-record", "Screen record", "Record the screen", "Media"),
      Command("dpi", "DPI", "View or change device DPI", "Device settings"),
      Command("font-size", "Font size", "View or change device font size", "Device settings"),
      Command("screen-size", "Screen size", "View or change device screen size", "Device settings"),
      Command("pair-wifi", "Pair WiFi device", "Pair with a new WiFi device", "WiFi"),
      Command("connect-wifi", "Connect WiFi device", "Connect to a WiFi device", "WiFi"),
      Command("disconnect-wifi", "Disconnect WiFi device", "Disconnect from a WiFi device", "WiFi"),
      Command("launch-emulator", "Launch emulator", "Start an Android emulator", "Devices/emulators"),
      Command("configure-emulator", "Configure emulator", "Edit emulator configuration", "Devices/emulators"),
      Command("refresh-devices", "Refresh devices", "Refresh the device list", "Devices/emulators") ]
  }

  /** No two commands of the CLI catalog share a CLI name. */
  lemma AvailableNamesDistinct()
    ensures DistinctNames(GetAvailableCommands())
  {
    var r := GetAvailableCommands();
    forall i, j | 0 <= i < j < |r|
      ensures r[i].command != r[j].command
    {
      assert |r[i].command| != |r[j].command|;
    }
  }

  /** No two commands of the terminal UI's catalog share a CLI name. */
  lemma TUINamesDistinct()
    ensures DistinctNames(GetTUICommands())
  {
    var r := GetTUICommands();
    AvailableNamesDistinct();
    TUILaterNamesDistinct();
    TUICrossNamesDistinct();
    forall i, j | 0 <= i < j < 6
      ensures r[i].command != r[j].command
    {
      assert r[i] == r[..6][i] && r[j] == r[..6][j];
      assert GetAvailableCommands()[i] == GetAvailableCommands()[..6][i];
      assert GetAvailableCommands()[j] == GetAvailableCommands()[..6][j];
    }
  }

  /** The six commands only the terminal UI lists have distinct names. */
  lemma TUILaterNamesDistinct()
    ensures var r := GetTUICommands();
      forall i, j :: 6 <= i < j < |r| ==> r[i].command != r[j].command
  {
    var r := GetTUICommands();
    forall i, j | 6 <= i < j < |r|
      ensures r[i].command != r[j].command
    {
      assert |r[i].command| != |r[j].command| || r[i].command[0] != r[j].command[0];
    }
  }

  /** No command only the terminal UI lists shares a name with one of the six shared ones. */
  lemma TUICrossNamesDistinct()
    ensures var r := GetTUICommands();
      forall i, j :: 0 <= i < 6 <= j < |r| ==> r[i].command != r[j].command
  {
    var r := GetTUICommands();
    forall i, j | 0 <= i < 6 <= j < |r|
      ensures r[i].command != r[j].command
    {
      assert |r[i].command| != |r[j].command| || r[i].command[0] != r[j].command[0];
    }
  }

  /** The commands of `cmds` whose category is `cat`, in their original order. */
  function CommandsIn(cmds: seq<Command>, cat: string): seq<Command> {
    if cmds == [] then []
    else
      var last := cmds[|cmds| - 1];
      CommandsIn(cmds[..|cmds| - 1], cat) + (if last.category == cat then [last] else [])
  }

  /** One category per name of `order` that has at least one command, in the order of `order`. */
  function Grouped(cmds: seq<Command>, order: seq<string>): seq<CommandCategory> {
    if order == [] then []
    else
      var name := order[|order| - 1];
      var members := CommandsIn(cmds, name);
      Grouped(cmds, order[..|order| - 1]) + (if members != [] then [CommandCategory(name, members)] else [])
  }

  /** Groups the terminal UI's commands by category, in the fixed category order. */
  method GetTUICommandCategories() returns (categories: seq<CommandCategory>)
    ensures categories == Grouped(GetTUICommands(), CategoryOrder)
  {
    categories := GroupByCategory(GetTUICommands(), CategoryOrder);
  }

  /** The two loops of GetTUICommandCategories: bucket by category, then emit in `order`. */
  method GroupByCategory(commands: seq<Command>, order: seq<string>) returns (categories: seq<CommandCategory>)
    ensures categories == Grouped(commands, order)
  {
    var categoryMap := BucketByCategory(commands);
    categories := [];
    var j := 0;
    while j < |order|
      invariant 0 <= j <= |order|
      invariant categories == Grouped(commands, order[..j])
    {
      var name := order[j];
      if name in categoryMap {
        categories := categories + [CommandCategory(name, categoryMap[name])];
      }
      assert order[..j + 1][..j] == order[..j];
      j := j + 1;
    }
    assert order[..j] == order;
  }

  /** The first loop of GetTUICommandCategories: each category's commands, in their original order. */
  method BucketByCategory(commands: seq<Command>) returns (categoryMap: map<string, seq<Command>>)
    ensures forall cat :: cat in categoryMap <==> CommandsIn(commands, cat) != []
    ensures forall cat :: cat in categoryMap ==> categoryMap[cat] == CommandsIn(commands, cat)
  {
    categoryMap := map[];
    var i := 0;
    while i < |commands|
      invariant 0 <= i <= |commands|
      invariant forall cat :: cat in categoryMap <==> CommandsIn(commands[..i], cat) != []
      invariant forall cat :: cat in categoryMap ==> categoryMap[cat] == CommandsIn(commands[..i], cat)
    {
      var cmd := commands[i];
      var existing := if cmd.category in categoryMap then categoryMap[cmd.category] else [];
      CommandsInStep(commands, i);
      categoryMap := categoryMap[cmd.category := existing + [cmd]];
      i := i + 1;
    }
    assert commands[..i] == commands;
  }

  lemma CommandsInStep(cmds: seq<Command>, i: nat)
    requires i < |cmds|
    ensures forall cat ::
      CommandsIn(cmds[..i + 1], cat) == CommandsIn(cmds[..i], cat) + (if cmds[i].category == cat then [cmds[i]] else [])
  {
    assert cmds[..i + 1][..i] == cmds[..i];
  }

  /** CommandsIn keeps exactly the commands of the given category. */
  lemma {:induction false} CommandsInMembers(cmds: seq<Command>, cat: string)
    ensures forall c :: c in CommandsIn(cmds, cat) <==> c in cmds && c.category == cat
  {
    if cmds != [] {
      CommandsInMembers(cmds[..|cmds| - 1], cat);
      assert cmds == cmds[..|cmds| - 1] + [cmds[|cmds| - 1]];
    }
  }

  /**
   * Every group is named after a listed category and holds exactly that category's
   * commands (never none), and the groups appear in the listed order.
   */
  lemma {:induction false} GroupedShape(cmds: seq<Command>, order: seq<string>)
    ensures |Grouped(cmds, order)| <= |order|
    ensures forall k :: 0 <= k < |Grouped(cmds, order)| ==>
      Grouped(cmds, order)[k].name in order
      && Grouped(cmds, order)[k].commands == CommandsIn(cmds, Grouped(cmds, order)[k].name)
      && Grouped(cmds, order)[k].commands != []
    ensures forall k1, k2 :: 0 <= k1 < k2 < |Grouped(cmds, order)| ==>
      exists p1, p2 :: 0 <= p1 < p2 < |order| && order[p1] == Grouped(cmds, order)[k1].name
                       && order[p2] == Grouped(cmds, order)[k2].name
  {
    if order != [] {
      var prefix := order[..|order| - 1];
      GroupedShape(cmds, prefix);
      var g := Grouped(cmds, order);
      var gp := Grouped(cmds, prefix);
      forall k1, k2 | 0 <= k1 < k2 < |g|
        ensures exists p1, p2 :: 0 <= p1 < p2 < |order| && order[p1] == g[k1].name && order[p2] == g[k2].name
      {
        if k2 < |gp| {
          var p1, p2 :| 0 <= p1 < p2 < |prefix| && prefix[p1] == gp[k1].name && prefix[p2] == gp[k2].name;
          assert order[p1] == g[k1].name && order[p2] == g[k2].name;
        } else {
          var p1 :| 0 <= p1 < |prefix| && prefix[p1] == gp[k1].name;
          assert order[p1] == g[k1].name && order[|order| - 1] == g[k2].name;
        }
      }
    }
  }

  /** A command whose category is listed lands in the group of that category. */
  lemma {:induction false} GroupedComplete(cmds: seq<Command>, order: seq<string>, c: Command)
    requires c in cmds && c.category in order
    ensures exists k :: (0 <= k < |Grouped(cmds, order)| && Grouped(cmds, order)[k].name == c.category
                         && c in Grouped(cmds, order)[k].commands)
  {
    CommandsInMembers(cmds, c.category);
    var prefix := order[..|order| - 1];
    if order[|order| - 1] == c.category {
      var k := |Grouped(cmds, order)| - 1;
      assert Grouped(cmds, order)[k].name == c.category;
    } else {
      assert c.category in prefix;
      GroupedComplete(cmds, prefix, c);
      var k :| 0 <= k < |Grouped(cmds, prefix)| && Grouped(cmds, prefix)[k].name == c.category
               && c in Grouped(cmds, prefix)[k].commands;
      assert Grouped(cmds, order)[k] == Grouped(cmds, prefix)[k];
    }
  }

  /** Every terminal UI command is listed under its own category. */
  lemma TUICategoriesCoverCatalog(c: Command)
    requires c in GetTUICommands()
    ensures exists k :: (0 <= k < |Grouped(GetTUICommands(), CategoryOrder)|
      && Grouped(GetTUICommands(), CategoryOrder)[k].name == c.category
      && c in Grouped(GetTUICommands(), CategoryOrder)[k].commands)
  {
    GroupedComplete(GetTUICommands(), CategoryOrder, c);
  }

  /** The CLI names of the catalog, position by position. */
  method GetAvailableCommandNames() returns (names: seq<string>)
    ensures |names| == |GetAvailableCommands()|
    ensures forall i :: 0 <= i < |names| ==> names[i] == GetAvailableCommands()[i].command
  {
    var commands := GetAvailableCommands();
    var arr := new string[|commands|];
    var i := 0;
    while i < |commands|
      invariant 0 <= i <= |commands|
      invariant forall k :: 0 <= k < i ==> arr[k] == commands[k].command
    {
      arr[i] := commands[i].command;
      i := i + 1;
    }
    names := arr[..];
  }
}
