/*
 * Android Virtual Devices (internal/emulator/emulator.go): discovery from the AVD
 * directory, the `.ini` and `config.ini` key parsing, and the list entry string.
 * The file system is an oracle: a directory listing and a map from path to file lines
 * (a path missing from the map is a file that cannot be opened).
 */
module Emulator {
  import opened Wrappers
  import opened Text

  datatype AVD = AVD(
    name: string, target: string, path: string, displayName: string,
    architecture: string, resolution: string, apiLevel: string)

  const Bullet: string := " \U{2022} "

  /** API level, architecture and resolution, in that order, each only when known. */
  function AvdDetailParts(a: AVD): (details: seq<string>)
    ensures |details| <= 3
    ensures details == [] <==> a.apiLevel == "" && a.architecture == "" && a.resolution == ""
  {
    (if a.apiLevel != "" then ["API " + a.apiLevel] else [])
    + (if a.architecture != "" then [a.architecture] else [])
    + (if a.resolution != "" then [a.resolution] else [])
  }

  /** The list entry: the display name (or the name), then the details in parentheses if any. */
  function AvdString(a: AVD): (r: string)
    ensures var name := if a.displayName != "" then a.displayName else a.name;
      HasPrefix(r, name)
      && (AvdDetailParts(a) == [] <==> r == name)
      && (AvdDetailParts(a) != [] ==> r == name + " (" + Join(AvdDetailParts(a), Bullet) + ")")
  {
    var name := if a.displayName != "" then a.displayName else a.name;
    var details := AvdDetailParts(a);
    var parts := [name] + (if |details| > 0 then ["(" + Join(details, Bullet) + ")"] else []);
    Join(parts, " ")
  }

  /** One line of an AVD's `.ini` file: "target=" and "path=" lines set their value. */
  function IniStep(acc: (string, string), line: string): (string, string) {
    if HasPrefix(line, "target=") then (TrimPrefix(line, "target="), acc.1)
    else if HasPrefix(line, "path=") then (acc.0, TrimPrefix(line, "path="))
    else acc
  }

  function IniValues(lines: seq<string>): (string, string) {
    if lines == [] then ("", "") else IniStep(IniValues(lines[..|lines| - 1]), lines[|lines| - 1])
  }

  /** readTargetAndPathFromIni; an unreadable file gives two empty strings. */
  method ReadTargetAndPathFromIni(file: Option<seq<string>>) returns (target: string, path: string)
    ensures file.None? ==> target == "" && path == ""
    ensures file.Some? ==> (target, path) == IniValues(file.value)
  {
    if file.None? {
      return "", "";
    }
    var lines := file.value;
    target, path := "", "";
    var i := 0;
    while i < |lines|
      invariant 0 <= i <= |lines|
      invariant (target, path) == IniValues(lines[..i])
    {
      assert lines[..i + 1][..i] == lines[..i];
      var line := lines[i];
      if HasPrefix(line, "target=") {
        target := TrimPrefix(line, "target=");
      } else if HasPrefix(line, "path=") {
        path := TrimPrefix(line, "path=");
      }
      i := i + 1;
    }
    assert lines[..i] == lines;
  }

  /** The last "target=" line and the last "path=" line win; every other line is ignored. */
  lemma {:induction false} IniValuesLastWins(lines: seq<string>)
    ensures IniValues(lines).0 == ValueOr(LastValue(lines, "target="), "")
    ensures IniValues(lines).1 == ValueOr(LastValue(lines, "path="), "")
  {
    if lines != [] {
      IniValuesLastWins(lines[..|lines| - 1]);
      var l := lines[|lines| - 1];
      if HasPrefix(l, "target=") {
        assert l[0] == 't';
        assert !HasPrefix(l, "path=");
      }
    }
  }

  /** readTargetFromIni: the target alone; it never fails. */
  method ReadTargetFromIni(file: Option<seq<string>>) returns (target: string, err: Option<string>)
    ensures err.None?
    ensures file.Some? ==> target == ValueOr(LastValue(file.value, "target="), "")
    ensures file.None? ==> target == ""
  {
    var path;
    target, path := ReadTargetAndPathFromIni(file);
    if file.Some? {
      IniValuesLastWins(file.value);
    }
    err := None;
  }

  /** The key and value of a `config.ini` line "key = value"; blank and '#' lines have none. */
  function KeyValue(raw: string): (r: Option<(string, string)>)
    ensures r.Some? ==> TrimSpace(raw) != "" && !HasPrefix(TrimSpace(raw), "#") && Contains(TrimSpace(raw), " = ")
    ensures TrimSpace(raw) != "" && !HasPrefix(TrimSpace(raw), "#") && Contains(TrimSpace(raw), " = ") ==> r.Some?
  {
    var line := TrimSpace(raw);
    if line == "" || HasPrefix(line, "#") then None
    else
      var parts := SplitOnce(line, " = ");
      if |parts| != 2 then None else Some((TrimSpace(parts[0]), TrimSpace(parts[1])))
  }

  /** The API level in an image directory value such as "system-images/android-34/...". */
  function ApiFromSysdir(parts: seq<string>): (r: Option<string>)
    ensures r.Some? ==> exists k :: 0 <= k < |parts| && HasPrefix(parts[k], "android-") && r.value == TrimPrefix(parts[k], "android-")
    ensures r.None? ==> forall k :: 0 <= k < |parts| ==> !HasPrefix(parts[k], "android-")
  {
    if parts == [] then None
    else if HasPrefix(parts[0], "android-") then Some(TrimPrefix(parts[0], "android-"))
    else
      var r := ApiFromSysdir(parts[1..]);
      assert r.Some? ==> exists k :: 0 <= k < |parts| && HasPrefix(parts[k], "android-") && r.value == TrimPrefix(parts[k], "android-") by {
        if r.Some? {
          var k :| 0 <= k < |parts[1..]| && HasPrefix(parts[1..][k], "android-") && r.value == TrimPrefix(parts[1..][k], "android-");
          assert parts[k + 1] == parts[1..][k];
        }
      }
      r
  }

  /** What readAVDDetails accumulates while it scans `config.ini`. */
  datatype ConfigScan = ConfigScan(displayName: string, architecture: string, apiLevel: string, width: string, height: string)

  /** The switch on the key: display name, first architecture, width and height. */
  function KeyStep(st: ConfigScan, key: string, value: string): (r: ConfigScan)
    ensures r.apiLevel == st.apiLevel
    ensures r.architecture == (if st.architecture == "" && (key == "abi.type" || key == "hw.cpu.arch") then value else st.architecture)
  {
    if key == "avd.ini.displayname" then st.(displayName := value)
    else if key == "abi.type" || key == "hw.cpu.arch" then
      (if st.architecture == "" then st.(architecture := value) else st)
    else if key == "hw.lcd.width" then st.(width := value)
    else if key == "hw.lcd.height" then st.(height := value)
    else st
  }

  /** The API level taken from an "image.sysdir*" value naming an "android-" directory. */
  function ApiStep(st: ConfigScan, key: string, value: string): (r: ConfigScan)
    ensures r.(apiLevel := st.apiLevel) == st
  {
    if HasPrefix(key, "image.sysdir") && Contains(value, "android-") && ApiFromSysdir(Split(value, '/')).Some? then
      st.(apiLevel := ApiFromSysdir(Split(value, '/')).value)
    else st
  }

  /** The effect of one parsed key/value pair. */
  function ConfigStep(st: ConfigScan, key: string, value: string): ConfigScan {
    ApiStep(KeyStep(st, key, value), key, value)
  }

  function LineStep(st: ConfigScan, raw: string): ConfigScan {
    match KeyValue(raw)
    case None => st
    case Some(kv) => ConfigStep(st, kv.0, kv.1)
  }

  function ScanConfig(lines: seq<string>): ConfigScan {
    if lines == [] then ConfigScan("", "", "", "", "")
    else LineStep(ScanConfig(lines[..|lines| - 1]), lines[|lines| - 1])
  }

  lemma ScanConfigStep(lines: seq<string>, i: nat)
    requires i < |lines|
    ensures ScanConfig(lines[..i + 1]) == LineStep(ScanConfig(lines[..i]), lines[i])
  {
    assert lines[..i + 1][..i] == lines[..i];
  }

  datatype AVDDetails = AVDDetails(displayName: string, architecture: string, resolution: string, apiLevel: string)

  /** The details a `config.ini` yields; the resolution needs both a width and a height. */
  function DetailsOf(lines: seq<string>): (d: AVDDetails)
    ensures var st := ScanConfig(lines);
      d.resolution == (if st.width != "" && st.height != "" then st.width + "x" + st.height else "")
  {
    var st := ScanConfig(lines);
    AVDDetails(st.displayName, st.architecture,
               if st.width != "" && st.height != "" then st.width + "x" + st.height else "",
               st.apiLevel)
  }

  /** readAVDDetails: None for an unreadable file, else the scan of its lines. */
  method ReadAVDDetails(file: Option<seq<string>>) returns (details: Option<AVDDetails>)
    ensures file.None? ==> details.None?
    ensures file.Some? ==> details == Some(DetailsOf(file.value))
  {
    if file.None? {
      return None;
    }
    var lines := file.value;
    var st := ConfigScan("", "", "", "", "");
    var i := 0;
    while i < |lines|
      invariant 0 <= i <= |lines|
      invariant st == ScanConfig(lines[..i])
    {
      ScanConfigStep(lines, i);
      st := ApplyConfigLine(st, lines[i]);
      i := i + 1;
    }
    assert lines[..i] == lines;
    assert st == ScanConfig(lines);
    var resolution := "";
    if st.width != "" && st.height != "" {
      resolution := st.width + "x" + st.height;
    }
    details := Some(AVDDetails(st.displayName, st.architecture, resolution, st.apiLevel));
  }

  /** The body of readAVDDetails' scan loop for one line. */
  method ApplyConfigLine(st0: ConfigScan, raw: string) returns (st: ConfigScan)
    ensures st == LineStep(st0, raw)
  {
    st := st0;
    var kv := KeyValue(raw);
    if kv.None? {
      return;
    }
    var key, value := kv.value.0, kv.value.1;
    st := KeyStep(st, key, value);
    if HasPrefix(key, "image.sysdir") && Contains(value, "android-") {
      var api := FindApiLevel(Split(value, '/'));
      if api.Some? {
        st := st.(apiLevel := api.value);
      }
    }
  }

  /** The search for the first "android-" path segment. */
  method FindApiLevel(parts: seq<string>) returns (api: Option<string>)
    ensures api == ApiFromSysdir(parts)
  {
    var j := 0;
    while j < |parts|
      invariant 0 <= j <= |parts|
      invariant ApiFromSysdir(parts) == ApiFromSysdir(parts[j..])
    {
      if HasPrefix(parts[j], "android-") {
        return Some(TrimPrefix(parts[j], "android-"));
      }
      assert parts[j..][1..] == parts[j + 1..];
      j := j + 1;
    }
    return None;
  }

  /** Only "abi.type" and "hw.cpu.arch" touch the architecture, and only while it is unset. */
  lemma LineStepArchitecture(st: ConfigScan, raw: string)
    ensures LineStep(st, raw).architecture ==
      (if st.architecture == "" && IsArchKey(KeyValue(raw)) then KeyValue(raw).value.1 else st.architecture)
  {
    var kv := KeyValue(raw);
    if kv.Some? {
      var k := KeyStep(st, kv.value.0, kv.value.1);
      assert ApiStep(k, kv.value.0, kv.value.1).architecture == k.architecture;
    }
  }

  predicate IsArchKey(kv: Option<(string, string)>) {
    kv.Some? && (kv.value.0 == "abi.type" || kv.value.0 == "hw.cpu.arch")
  }

  /** The first non-empty value given to "abi.type" or "hw.cpu.arch", if any. */
  function FirstArch(lines: seq<string>): string {
    if lines == [] then ""
    else
      var before := FirstArch(lines[..|lines| - 1]);
      var kv := KeyValue(lines[|lines| - 1]);
      if before == "" && IsArchKey(kv) then kv.value.1 else before
  }

  /** The architecture is the first one given, under either key; later ones never replace it. */
  lemma {:induction false} ArchitectureFirstWins(lines: seq<string>)
    ensures ScanConfig(lines).architecture == FirstArch(lines)
  {
    if lines != [] {
      ArchitectureFirstWins(lines[..|lines| - 1]);
      LineStepArchitecture(ScanConfig(lines[..|lines| - 1]), lines[|lines| - 1]);
    }
  }

  /** The AVD a `.ini` directory entry describes. */
  function AvdFromEntry(avdDir: string, entry: string, files: map<string, seq<string>>): (a: AVD)
    requires HasSuffix(entry, ".ini")
    ensures a.name + ".ini" == entry
    ensures var ini := PathJoin(avdDir, entry);
      var p := if ini in files then IniValues(files[ini]).1 else "";
      a.path == (if p == "" then PathJoin(avdDir, a.name + ".avd") else p)
  {
    var avdName := TrimSuffix(entry, ".ini");
    var iniPath := PathJoin(avdDir, entry);
    var tp := if iniPath in files then IniValues(files[iniPath]) else ("", "");
    var actualPath := if tp.1 == "" then PathJoin(avdDir, avdName + ".avd") else tp.1;
    var configPath := PathJoin(actualPath, "config.ini");
    var avd := AVD(avdName, tp.0, actualPath, "", "", "", "");
    if configPath in files then
      var d := DetailsOf(files[configPath]);
      avd.(displayName := d.displayName, architecture := d.architecture,
           resolution := d.resolution, apiLevel := d.apiLevel)
    else avd
  }

  /** The AVDs of a directory listing, one per `.ini` entry, in listing order. */
  function AvdsOf(avdDir: string, entries: seq<string>, files: map<string, seq<string>>): seq<AVD> {
    if entries == [] then []
    else
      var prev := AvdsOf(avdDir, entries[..|entries| - 1], files);
      var e := entries[|entries| - 1];
      if HasSuffix(e, ".ini") then prev + [AvdFromEntry(avdDir, e, files)] else prev
  }

  /** Exactly the `.ini` entries become AVDs: each AVD's name plus ".ini" is an entry. */
  lemma {:induction false} AvdsOfNames(avdDir: string, entries: seq<string>, files: map<string, seq<string>>)
    ensures forall a :: a in AvdsOf(avdDir, entries, files) ==> a.name + ".ini" in entries
    ensures |AvdsOf(avdDir, entries, files)| == CountIni(entries)
  {
    if entries != [] {
      AvdsOfNames(avdDir, entries[..|entries| - 1], files);
    }
  }

  function CountIni(entries: seq<string>): nat {
    if entries == [] then 0
    else CountIni(entries[..|entries| - 1]) + (if HasSuffix(entries[|entries| - 1], ".ini") then 1 else 0)
  }

  /**
   * getAVDsFromDirectory over the home directory lookup, the listing of
   * <home>/.android/avd and the readable files.
   */
  method GetAVDsFromDirectory(home: Result<string>, entries: Result<seq<string>>, files: map<string, seq<string>>)
    returns (r: Result<seq<AVD>>)
    ensures home.Err? ==> r == Err("failed to get home directory: " + home.error)
    ensures home.Ok? && entries.Err? ==> r == Err("failed to read AVD directory: " + entries.error)
    ensures home.Ok? && entries.Ok? ==>
      r == Ok(AvdsOf(PathJoin(PathJoin(home.value, ".android"), "avd"), entries.value, files))
  {
    if home.Err? {
      return Err("failed to get home directory: " + home.error);
    }
    var avdDir := PathJoin(PathJoin(home.value, ".android"), "avd");
    if entries.Err? {
      return Err("failed to read AVD directory: " + entries.error);
    }
    var names := entries.value;
    var avds: seq<AVD> := [];
    var i := 0;
    while i < |names|
      invariant 0 <= i <= |names|
      invariant avds == AvdsOf(avdDir, names[..i], files)
    {
      assert names[..i + 1][..i] == names[..i];
      var entry := names[i];
      if HasSuffix(entry, ".ini") {
        var avdName := TrimSuffix(entry, ".ini");
        var iniPath := PathJoin(avdDir, entry);
        var target, actualPath := ReadTargetAndPathFromIni(if iniPath in files then Some(files[iniPath]) else None);
        var configPath := PathJoin(actualPath, "config.ini");
        if actualPath == "" {
          actualPath := PathJoin(avdDir, avdName + ".avd");
          configPath := PathJoin(actualPath, "config.ini");
        }
        var avdDetails := ReadAVDDetails(if configPath in files then Some(files[configPath]) else None);
        var avd := AVD(avdName, target, actualPath, "", "", "", "");
        if avdDetails.Some? {
          avd := avd.(displayName := avdDetails.value.displayName, architecture := avdDetails.value.architecture,
                      resolution := avdDetails.value.resolution, apiLevel := avdDetails.value.apiLevel);
        }
        avds := avds + [avd];
      }
      i := i + 1;
    }
    assert names[..i] == names;
    return Ok(avds);
  }

  /** GetAvailableAVDs delegates to the directory scan. */
  method GetAvailableAVDs(home: Result<string>, entries: Result<seq<string>>, files: map<string, seq<string>>)
    returns (r: Result<seq<AVD>>)
    ensures home.Ok? && entries.Ok? ==>
      r == Ok(AvdsOf(PathJoin(PathJoin(home.value, ".android"), "avd"), entries.value, files))
    ensures home.Err? || entries.Err? ==> r.Err?
  {
    r := GetAVDsFromDirectory(home, entries, files);
  }

  /** LaunchEmulator: the command line it starts, and the error when the start fails. */
  function LaunchArgs(emulatorPath: string, avd: AVD): (argv: seq<string>)
    ensures |argv| == 5 && argv[0] == emulatorPath && argv[2] == avd.name
  {
    [emulatorPath, "-avd", avd.name, "-dns-server", "8.8.8.8"]
  }

  function LaunchEmulator(startErr: Option<string>): (err: Option<string>)
    ensures err.Some? <==> startErr.Some?
    ensures startErr.Some? ==> err.value == "failed to launch emulator: " + startErr.value
  {
    if startErr.Some? then Some("failed to launch emulator: " + startErr.value) else None
  }
}
