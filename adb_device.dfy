/*
 * Devices as reported by `adb devices -l`, their display strings, and the parsing of the
 * shell outputs that fill in the extended information (internal/adb/device.go).
 * Every adb invocation is an oracle: its output or its error text is a parameter.
 */
module Adb {
  import opened Wrappers
  import opened Text
  import Display

  datatype Device = Device(
    serial: string, status: string, product: string, model: string,
    deviceType: string, transportID: string,
    batteryLevel: int, androidVersion: string, screenRes: string,
    cpuArchitecture: string, apiLevel: int, ipAddress: string)

  /** A device with only serial and status set; every other field has its zero value. */
  function NewDevice(serial: string, status: string): (d: Device)
    ensures d.serial == serial && d.status == status
    ensures d.model == d.product == d.deviceType == d.transportID == ""
  {
    Device(serial, status, "", "", "", "", 0, "", "", "", 0, "")
  }

  /** The arguments ExecuteCommand and ExecuteCommandWithOutput pass to adb for one device. */
  function DeviceArgs(serial: string, args: seq<string>): (argv: seq<string>)
    ensures |argv| == |args| + 2 && argv[..2] == ["-s", serial] && argv[2..] == args
  {
    ["-s", serial] + args
  }

  datatype ConnectionType = Physical | Emulator | WiFi

  /** "emulator-" serials are emulators, other serials with a ':' are Wi-Fi, the rest physical. */
  function GetConnectionType(d: Device): (r: ConnectionType)
    ensures r == Emulator <==> HasPrefix(d.serial, "emulator-")
    ensures r == WiFi <==> !HasPrefix(d.serial, "emulator-") && Contains(d.serial, ":")
  {
    if HasPrefix(d.serial, "emulator-") then Emulator
    else if Contains(d.serial, ":") then WiFi
    else Physical
  }

  /** A coloured dot per connection type: yellow emulator, green Wi-Fi, blue physical. */
  function GetStatusIndicator(d: Device): (r: string)
    ensures |r| == 1
  {
    match GetConnectionType(d)
    case Emulator => "\U{1F7E1}"
    case WiFi => "\U{1F7E2}"
    case Physical => "\U{1F535}"
  }

  /** Two devices show the same dot exactly when they have the same connection type. */
  lemma StatusIndicatorDistinguishes(d1: Device, d2: Device)
    ensures GetStatusIndicator(d1) == GetStatusIndicator(d2) <==> GetConnectionType(d1) == GetConnectionType(d2)
  {
    var a, b := GetStatusIndicator(d1), GetStatusIndicator(d2);
    if GetConnectionType(d1) != GetConnectionType(d2) {
      assert a[0] != b[0];
    }
  }

  /** The running emulator's AVD display name; no mapping exists, so it is always empty. */
  function AvdDisplayNameForEmulator(serial: string): (r: string)
    ensures r == ""
  {
    ""
  }

  const Bullet: string := " \U{2022} "

  /** "sdk_gphone64_x86_64" reads as "gphone64 x86 64"; other product names are kept. */
  function CleanProductName(product: string): (r: string)
    ensures !HasPrefix(product, "sdk_") ==> r == product
    ensures HasPrefix(product, "sdk_") ==> '_' !in r && |r| <= |product|
  {
    if HasPrefix(product, "sdk_") then ReplaceAllCharSpace(TrimPrefix(product, "sdk_")) else product
  }

  function ReplaceAllCharSpace(s: string): (r: string)
    ensures |r| == |s| && '_' !in r
  {
    if s == [] then [] else [if s[0] == '_' then ' ' else s[0]] + ReplaceAllCharSpace(s[1..])
  }

  /** The details shown for an emulator: a model or cleaned product name when known, then "Emulator". */
  function EmulatorDetails(d: Device): (details: seq<string>)
    ensures |details| >= 1 && details[|details| - 1] == "Emulator"
  {
    var avdDisplayName := AvdDisplayNameForEmulator(d.serial);
    var first :=
      if avdDisplayName != "" then [avdDisplayName]
      else if d.model != "" && !Contains(d.model, "sdk_gphone") then [d.model]
      else if d.product != "" then [CleanProductName(d.product)]
      else [];
    first + ["Emulator"]
  }

  /** The device list entry: "serial (details)". */
  function DeviceString(d: Device): (r: string)
    ensures HasPrefix(r, d.serial + " (") && HasSuffix(r, ")")
    ensures HasPrefix(d.serial, "emulator-") ==> HasSuffix(r, "Emulator)")
    ensures !HasPrefix(d.serial, "emulator-") && d.model != "" && d.product != "" ==>
      r == d.serial + " (" + d.model + " - " + d.product + ")"
    ensures !HasPrefix(d.serial, "emulator-") && (d.model == "" || d.product == "") ==>
      r == d.serial + " (" + d.status + ")"
  {
    if HasPrefix(d.serial, "emulator-") && |EmulatorDetails(d)| > 0 then
      var details := EmulatorDetails(d);
      JoinEndsWithLast(details, Bullet);
      d.serial + " (" + Join(details, Bullet) + ")"
    else if d.model != "" && d.product != "" then d.serial + " (" + d.model + " - " + d.product + ")"
    else d.serial + " (" + d.status + ")"
  }

  lemma {:induction false} JoinEndsWithLast(parts: seq<string>, sep: string)
    requires |parts| >= 1
    ensures HasSuffix(Join(parts, sep), parts[|parts| - 1])
  {
    if |parts| > 1 {
      JoinEndsWithLast(parts[1..], sep);
    }
  }

  /** Applies one `key:value` token of an `adb devices -l` line; unknown tokens change nothing. */
  function ApplyToken(d: Device, tok: string): Device {
    if HasPrefix(tok, "model:") then d.(model := TrimPrefix(tok, "model:"))
    else if HasPrefix(tok, "product:") then d.(product := TrimPrefix(tok, "product:"))
    else if HasPrefix(tok, "device:") then d.(deviceType := TrimPrefix(tok, "device:"))
    else if HasPrefix(tok, "transport_id:") then d.(transportID := TrimPrefix(tok, "transport_id:"))
    else d
  }

  /** Applies the tokens left to right. */
  function ApplyTokens(d: Device, toks: seq<string>): Device {
    if toks == [] then d else ApplyToken(ApplyTokens(d, toks[..|toks| - 1]), toks[|toks| - 1])
  }

  /** The device a line describes, or None for a line with fewer than two fields. */
  function DeviceFromLine(line: string): Option<Device> {
    var parts := Fields(line);
    if |parts| < 2 then None else Some(ApplyTokens(NewDevice(parts[0], parts[1]), parts[2..]))
  }

  /** parseDeviceLine: serial and status from the first two fields, then the key tokens in order. */
  method ParseDeviceLine(line: string) returns (device: Option<Device>)
    ensures device == DeviceFromLine(line)
    ensures device.None? <==> |Fields(line)| < 2
    ensures device.Some? ==> device.value.serial == Fields(line)[0] && device.value.status == Fields(line)[1]
  {
    var parts := Fields(line);
    if |parts| < 2 {
      return None;
    }
    var d := NewDevice(parts[0], parts[1]);
    var i := 2;
    while i < |parts|
      invariant 2 <= i <= |parts|
      invariant d == ApplyTokens(NewDevice(parts[0], parts[1]), parts[2..i])
    {
      assert parts[2..i + 1][..i - 2] == parts[2..i];
      if HasPrefix(parts[i], "model:") {
        d := d.(model := TrimPrefix(parts[i], "model:"));
      } else if HasPrefix(parts[i], "product:") {
        d := d.(product := TrimPrefix(parts[i], "product:"));
      } else if HasPrefix(parts[i], "device:") {
        d := d.(deviceType := TrimPrefix(parts[i], "device:"));
      } else if HasPrefix(parts[i], "transport_id:") {
        d := d.(transportID := TrimPrefix(parts[i], "transport_id:"));
      }
      i := i + 1;
    }
    ApplyTokensKeepsSerial(NewDevice(parts[0], parts[1]), parts[2..]);
    assert parts[2..i] == parts[2..];
    return Some(d);
  }

  lemma {:induction false} ApplyTokensKeepsSerial(d: Device, toks: seq<string>)
    ensures ApplyTokens(d, toks).serial == d.serial && ApplyTokens(d, toks).status == d.status
  {
    if toks != [] {
      ApplyTokensKeepsSerial(d, toks[..|toks| - 1]);
    }
  }

  /**
   * Each key field ends up with the value of the LAST token carrying its prefix, and keeps
   * its old value when no token carries it; serial and status never change.
   */
  lemma {:induction false} ApplyTokensLastWins(d: Device, toks: seq<string>)
    ensures ApplyTokens(d, toks).model == ValueOr(LastValue(toks, "model:"), d.model)
    ensures ApplyTokens(d, toks).product == ValueOr(LastValue(toks, "product:"), d.product)
    ensures ApplyTokens(d, toks).deviceType == ValueOr(LastValue(toks, "device:"), d.deviceType)
    ensures ApplyTokens(d, toks).transportID == ValueOr(LastValue(toks, "transport_id:"), d.transportID)
    ensures ApplyTokens(d, toks).serial == d.serial && ApplyTokens(d, toks).status == d.status
  {
    if toks != [] {
      ApplyTokensLastWins(d, toks[..|toks| - 1]);
      var t := toks[|toks| - 1];
      if HasPrefix(t, "model:") {
        assert t[0] == 'm';
        assert !HasPrefix(t, "product:") && !HasPrefix(t, "device:") && !HasPrefix(t, "transport_id:");
      } else if HasPrefix(t, "product:") {
        assert t[0] == 'p';
        assert !HasPrefix(t, "device:") && !HasPrefix(t, "transport_id:");
      } else if HasPrefix(t, "device:") {
        assert t[0] == 'd';
        assert !HasPrefix(t, "transport_id:");
      }
    }
  }

  /** The device list of `adb devices -l` output lines after the header. */
  function DevicesFromLines(lines: seq<string>): seq<Device> {
    if lines == [] then []
    else DevicesFromLines(lines[..|lines| - 1]) + LineDevices(lines[|lines| - 1])
  }

  /** What one raw line adds to the list: nothing when blank or unparsable, else its device. */
  function LineDevices(raw: string): seq<Device> {
    var line := TrimSpace(raw);
    if line == "" then []
    else match DeviceFromLine(line)
      case None => []
      case Some(d) => [d]
  }

  lemma LineDevicesSource(raw: string)
    ensures |LineDevices(raw)| <= 1
    ensures forall d :: d in LineDevices(raw) ==> DeviceFromLine(TrimSpace(raw)) == Some(d)
  {
    var line := TrimSpace(raw);
    if line == "" {
      assert LineDevices(raw) == [];
    } else if DeviceFromLine(line).None? {
      assert LineDevices(raw) == [];
    } else {
      assert LineDevices(raw) == [DeviceFromLine(line).value];
    }
  }

  /** One more line adds that line's device, if any, at the end. */
  lemma DevicesFromLinesStep(lines: seq<string>, i: nat)
    requires i < |lines|
    ensures DevicesFromLines(lines[..i + 1]) == DevicesFromLines(lines[..i]) + LineDevices(lines[i])
  {
    assert lines[..i + 1][..i] == lines[..i];
  }

  /** Line order is kept: the devices of two blocks of lines are the devices of each, concatenated. */
  lemma {:induction false} DevicesFromLinesAppend(a: seq<string>, b: seq<string>)
    ensures DevicesFromLines(a + b) == DevicesFromLines(a) + DevicesFromLines(b)
    decreases |b|
  {
    if b != [] {
      assert (a + b)[..|a + b| - 1] == a + b[..|b| - 1];
      DevicesFromLinesAppend(a, b[..|b| - 1]);
    } else {
      assert a + b == a;
    }
  }

  /** Each listed device comes from a line, and blank or unparsable lines contribute nothing. */
  lemma {:induction false} DevicesFromLinesSources(lines: seq<string>)
    ensures |DevicesFromLines(lines)| <= |lines|
    ensures forall d :: d in DevicesFromLines(lines) ==>
      exists k :: 0 <= k < |lines| && DeviceFromLine(TrimSpace(lines[k])) == Some(d)
  {
    if lines != [] {
      var init := lines[..|lines| - 1];
      DevicesFromLinesSources(init);
      var prev := DevicesFromLines(init);
      forall d | d in prev
        ensures exists k :: 0 <= k < |lines| && DeviceFromLine(TrimSpace(lines[k])) == Some(d)
      {
        var k :| 0 <= k < |init| && DeviceFromLine(TrimSpace(init[k])) == Some(d);
        assert lines[k] == init[k];
      }
      var last := lines[|lines| - 1];
      LineDevicesSource(last);
      forall d | d in LineDevices(last)
        ensures exists k :: 0 <= k < |lines| && DeviceFromLine(TrimSpace(lines[k])) == Some(d)
      {
        assert DeviceFromLine(TrimSpace(lines[|lines| - 1])) == Some(d);
      }
      assert DevicesFromLines(lines) == prev + LineDevices(last);
    }
  }

  /** GetConnectedDevices: the header line is skipped, then each non-blank line that parses. */
  method GetConnectedDevices(output: Result<string>) returns (r: Result<seq<Device>>)
    ensures output.Err? ==> r == Err("failed to get devices: " + output.error)
    ensures output.Ok? ==> r == Ok(DevicesFromLines(Split(output.value, '\n')[1..]))
  {
    if output.Err? {
      return Err("failed to get devices: " + output.error);
    }
    var lines := Split(output.value, '\n')[1..];
    var devices: seq<Device> := [];
    var i := 0;
    while i < |lines|
      invariant 0 <= i <= |lines|
      invariant devices == DevicesFromLines(lines[..i])
    {
      DevicesFromLinesStep(lines, i);
      var line := TrimSpace(lines[i]);
      if line != "" {
        var device := ParseDeviceLine(line);
        if device.Some? {
          devices := devices + [device.value];
        }
      }
      i := i + 1;
    }
    assert lines[..i] == lines;
    return Ok(devices);
  }

  /** The battery level of the first trimmed line containing "level:" whose value parses. */
  function BatteryLevelIn(lines: seq<string>): Option<int> {
    if lines == [] then None
    else
      var line := TrimSpace(lines[0]);
      var parts := Split(line, ':');
      if Contains(line, "level:") && |parts| >= 2 && Atoi(TrimSpace(parts[1])).Some? then
        Atoi(TrimSpace(parts[1]))
      else BatteryLevelIn(lines[1..])
  }

  method ScanBatteryLevel(lines: seq<string>) returns (level: Option<int>)
    ensures level == BatteryLevelIn(lines)
  {
    var i := 0;
    while i < |lines|
      invariant 0 <= i <= |lines|
      invariant BatteryLevelIn(lines) == BatteryLevelIn(lines[i..])
    {
      var line := TrimSpace(lines[i]);
      if Contains(line, "level:") {
        var parts := Split(line, ':');
        if |parts| >= 2 {
          var v := Atoi(TrimSpace(parts[1]));
          if v.Some? {
            return v;
          }
        }
      }
      assert lines[i..][1..] == lines[i + 1..];
      i := i + 1;
    }
    return None;
  }

  /** The resolution after the first line containing "Physical size:". */
  function PhysicalSizeIn(lines: seq<string>): Option<string> {
    if lines == [] then None
    else if Contains(lines[0], "Physical size:") && |Split(lines[0], ':')| >= 2 then
      Some(TrimSpace(Split(lines[0], ':')[1]))
    else PhysicalSizeIn(lines[1..])
  }

  method ScanPhysicalSize(lines: seq<string>) returns (res: Option<string>)
    ensures res == PhysicalSizeIn(lines)
  {
    var i := 0;
    while i < |lines|
      invariant 0 <= i <= |lines|
      invariant PhysicalSizeIn(lines) == PhysicalSizeIn(lines[i..])
    {
      if Contains(lines[i], "Physical size:") {
        var parts := Split(lines[i], ':');
        if |parts| >= 2 {
          return Some(TrimSpace(parts[1]));
        }
      }
      assert lines[i..][1..] == lines[i + 1..];
      i := i + 1;
    }
    return None;
  }

  /** The field after the first "inet" field, if there is one. */
  function InetToken(parts: seq<string>): Option<string> {
    if |parts| < 2 then None
    else if parts[0] == "inet" then Some(parts[1])
    else InetToken(parts[1..])
  }

  /** An address with its "/prefix-length" suffix removed. */
  function CutAtSlash(s: string): (r: string)
    ensures '/' !in r && HasPrefix(s, r)
  {
    var i := Index(s, "/");
    if i == -1 then
      assert '/' !in s by {
        if '/' in s {
          var k :| 0 <= k < |s| && s[k] == '/';
          assert MatchAt(s, "/", k);
        }
      }
      s
    else
      assert '/' !in s[..i] by {
        if '/' in s[..i] {
          var k :| 0 <= k < i && s[k] == '/';
          assert MatchAt(s, "/", k);
        }
      }
      s[..i]
  }

  /** Method 1 of the IP lookup: an "inet" address on a non-loopback `ip addr` line. */
  function InetIn(lines: seq<string>): Option<string> {
    if lines == [] then None
    else
      var line := TrimSpace(lines[0]);
      if Contains(line, "inet ") && !Contains(line, "127.0.0.1") && InetToken(Fields(line)).Some? then
        Some(CutAtSlash(InetToken(Fields(line)).value))
      else InetIn(lines[1..])
  }

  /** Method 2 of the IP lookup: the text after "inet addr:" up to the next space. */
  function InetAddrIn(lines: seq<string>): Option<string> {
    if lines == [] then None
    else
      var line := TrimSpace(lines[0]);
      if Contains(line, "inet addr:") then
        var remaining := line[Index(line, "inet addr:") + 10..];
        var sp := Index(remaining, " ");
        Some(if sp != -1 then remaining[..sp] else remaining)
      else InetAddrIn(lines[1..])
  }

  method ScanInet(lines: seq<string>) returns (ip: Option<string>)
    ensures ip == InetIn(lines)
  {
    var i := 0;
    while i < |lines|
      invariant 0 <= i <= |lines|
      invariant InetIn(lines) == InetIn(lines[i..])
    {
      var line := TrimSpace(lines[i]);
      if Contains(line, "inet ") && !Contains(line, "127.0.0.1") {
        var parts := Fields(line);
        var j := 0;
        while j < |parts|
          invariant 0 <= j <= |parts|
          invariant InetToken(parts) == InetToken(parts[j..])
        {
          if parts[j] == "inet" && j + 1 < |parts| {
            return Some(CutAtSlash(parts[j + 1]));
          }
          assert parts[j..][1..] == parts[j + 1..];
          j := j + 1;
        }
      }
      assert lines[i..][1..] == lines[i + 1..];
      i := i + 1;
    }
    return None;
  }

  method ScanInetAddr(lines: seq<string>) returns (ip: Option<string>)
    ensures ip == InetAddrIn(lines)
  {
    var i := 0;
    while i < |lines|
      invariant 0 <= i <= |lines|
      invariant InetAddrIn(lines) == InetAddrIn(lines[i..])
    {
      var line := TrimSpace(lines[i]);
      if Contains(line, "inet addr:") {
        var remaining := line[Index(line, "inet addr:") + 10..];
        var sp := Index(remaining, " ");
        if sp != -1 {
          return Some(remaining[..sp]);
        }
        return Some(remaining);
      }
      assert lines[i..][1..] == lines[i + 1..];
      i := i + 1;
    }
    return None;
  }

  /** The outputs (or errors) of the shell commands LoadExtendedInfo and loadIPAddress run. */
  datatype ExtendedOutputs = ExtendedOutputs(
    battery: Result<string>, version: Result<string>, size: Result<string>,
    cpu: Result<string>, api: Result<string>, ipAddr: Result<string>, ifconfig: Result<string>)

  /** The address loadIPAddress settles on, in its order of preference; None keeps the old one. */
  function LoadedIP(d: Device, out: ExtendedOutputs): Option<string> {
    if out.ipAddr.Ok? && InetIn(OutputLines(out.ipAddr.value)).Some? then InetIn(OutputLines(out.ipAddr.value))
    else if out.ifconfig.Ok? && InetAddrIn(OutputLines(out.ifconfig.value)).Some? then
      InetAddrIn(OutputLines(out.ifconfig.value))
    else if GetConnectionType(d) == WiFi && Contains(d.serial, ":") && |Split(d.serial, ':')| >= 2 then
      Some(Split(d.serial, ':')[0])
    else None
  }

  /** loadIPAddress: the three lookup methods in order; the first that finds an address wins. */
  method LoadIPAddress(d: Device, out: ExtendedOutputs) returns (r: Device)
    ensures r == d.(ipAddress := ValueOr(LoadedIP(d, out), d.ipAddress))
  {
    r := d;
    if out.ipAddr.Ok? {
      var ip := ScanInet(OutputLines(out.ipAddr.value));
      if ip.Some? {
        return d.(ipAddress := ip.value);
      }
    }
    if out.ifconfig.Ok? {
      var ip := ScanInetAddr(OutputLines(out.ifconfig.value));
      if ip.Some? {
        return d.(ipAddress := ip.value);
      }
    }
    if GetConnectionType(d) == WiFi && Contains(d.serial, ":") {
      var parts := Split(d.serial, ':');
      if |parts| >= 2 {
        r := d.(ipAddress := parts[0]);
      }
    }
  }

  /** The battery level after loading: the first parsable "level:" value, with 0 read as unknown (-1). */
  function LoadedBattery(d: Device, out: ExtendedOutputs): (b: int)
    ensures b != 0
    ensures out.battery.Ok? && BatteryLevelIn(OutputLines(out.battery.value)).Some?
            && BatteryLevelIn(OutputLines(out.battery.value)).value != 0 ==>
            b == BatteryLevelIn(OutputLines(out.battery.value)).value
    ensures (out.battery.Err? || BatteryLevelIn(OutputLines(out.battery.value)).None?) && d.batteryLevel != 0 ==>
            b == d.batteryLevel
  {
    var v := if out.battery.Ok? && BatteryLevelIn(OutputLines(out.battery.value)).Some? then
      BatteryLevelIn(OutputLines(out.battery.value)).value else d.batteryLevel;
    if v == 0 then -1 else v
  }

  /** The API level after loading: the parsed SDK version, or -1 when the query fails or does not parse. */
  function LoadedApi(out: ExtendedOutputs): (a: int)
    ensures out.api.Err? ==> a == -1
    ensures out.api.Ok? && Atoi(TrimSpace(out.api.value)).Some? ==> a == Atoi(TrimSpace(out.api.value)).value
  {
    if out.api.Ok? && Atoi(TrimSpace(out.api.value)).Some? then Atoi(TrimSpace(out.api.value)).value else -1
  }

  /** The screen resolution after loading: the "Physical size:" value when one is found. */
  function LoadedScreenRes(d: Device, out: ExtendedOutputs): string {
    if out.size.Ok? && PhysicalSizeIn(OutputLines(out.size.value)).Some? then
      PhysicalSizeIn(OutputLines(out.size.value)).value
    else d.screenRes
  }

  /** The device after LoadExtendedInfo; only devices in state "device" are queried. */
  function LoadedDevice(d: Device, out: ExtendedOutputs): (r: Device)
    ensures d.status != "device" ==> r == d
    ensures d.status == "device" ==> r.batteryLevel != 0
    ensures d.status == "device" && out.api.Err? ==> r.apiLevel == -1
    ensures r.serial == d.serial && r.status == d.status && r.model == d.model && r.product == d.product
    ensures r.deviceType == d.deviceType && r.transportID == d.transportID
  {
    if d.status != "device" then d
    else
      d.(batteryLevel := LoadedBattery(d, out),
         androidVersion := if out.version.Ok? then TrimSpace(out.version.value) else d.androidVersion,
         screenRes := LoadedScreenRes(d, out),
         cpuArchitecture := if out.cpu.Ok? then TrimSpace(out.cpu.value) else d.cpuArchitecture,
         apiLevel := LoadedApi(out),
         ipAddress := ValueOr(LoadedIP(d, out), d.ipAddress))
  }

  /**
   * LoadExtendedInfo: battery, version, resolution, ABI, API level and IP address from the
   * command outputs, in that order; a failed query leaves its field as it was.
   */
  method LoadExtendedInfo(d: Device, out: ExtendedOutputs) returns (r: Device)
    ensures r == LoadedDevice(d, out)
  {
    if d.status != "device" {
      return d;
    }
    var battery := LoadBattery(d, out);
    var version := if out.version.Ok? then TrimSpace(out.version.value) else d.androidVersion;
    var res := LoadScreenRes(d, out);
    var cpu := if out.cpu.Ok? then TrimSpace(out.cpu.value) else d.cpuArchitecture;
    var api := LoadedApi(out);
    r := d.(batteryLevel := battery, androidVersion := version, screenRes := res,
            cpuArchitecture := cpu, apiLevel := api);
    assert r.serial == d.serial;
    assert LoadedIP(r, out) == LoadedIP(d, out);
    r := LoadIPAddress(r, out);
  }

  /** The battery query of LoadExtendedInfo, with its 0-means-unknown fix-up. */
  method LoadBattery(d: Device, out: ExtendedOutputs) returns (level: int)
    ensures level == LoadedBattery(d, out)
  {
    level := d.batteryLevel;
    if out.battery.Ok? {
      var found := ScanBatteryLevel(OutputLines(out.battery.value));
      if found.Some? {
        level := found.value;
      }
    }
    if level == 0 {
      level := -1;
    }
  }

  /** The screen-size query of LoadExtendedInfo. */
  method LoadScreenRes(d: Device, out: ExtendedOutputs) returns (res: string)
    ensures res == LoadedScreenRes(d, out)
  {
    res := d.screenRes;
    if out.size.Ok? {
      var found := ScanPhysicalSize(OutputLines(out.size.value));
      if found.Some? {
        res := found.value;
      }
    }
  }

  /** An address found on an "inet" line never carries a "/prefix-length" part. */
  lemma {:induction false} InetHasNoSlash(lines: seq<string>)
    ensures InetIn(lines).Some? ==> '/' !in InetIn(lines).value
  {
    if lines != [] {
      InetHasNoSlash(lines[1..]);
    }
  }

  /** The version part of the extended info, when there is one. */
  function VersionPart(d: Device): Option<string> {
    if d.androidVersion != "" && d.apiLevel > 0 then Some("Android " + d.androidVersion + " (API " + Itoa(d.apiLevel) + ")")
    else if d.androidVersion != "" then Some("Android " + d.androidVersion)
    else if d.apiLevel > 0 then Some("API " + Itoa(d.apiLevel))
    else None
  }

  function OptionList(o: Option<string>): seq<string> { if o.Some? then [o.value] else [] }

  /** The components of the extended info line, each present only when its field is known. */
  function ExtendedInfoParts(d: Device): (parts: seq<string>)
    ensures forall k :: 0 <= k < |parts| ==> parts[k] != ""
  {
    OptionList(VersionPart(d))
    + (if d.cpuArchitecture != "" then ["\U{1F527} " + Display.NormalizeCPUArchitecture(d.cpuArchitecture)] else [])
    + (if d.screenRes != "" then ["\U{1F4F1} " + d.screenRes] else [])
    + (if d.ipAddress != "" then ["\U{1F310} " + d.ipAddress] else [])
  }

  /** The extended info line: the known components joined by bullets; empty when none is known. */
  function GetExtendedInfo(d: Device): (r: string)
    ensures r == "" <==>
      d.androidVersion == "" && d.apiLevel <= 0 && d.cpuArchitecture == "" && d.screenRes == "" && d.ipAddress == ""
    ensures d.androidVersion != "" && d.apiLevel > 0 ==>
      HasPrefix(r, "Android " + d.androidVersion + " (API " + Itoa(d.apiLevel) + ")")
    ensures d.androidVersion == "" && d.apiLevel > 0 ==> HasPrefix(r, "API " + Itoa(d.apiLevel))
  {
    var parts := ExtendedInfoParts(d);
    if |parts| == 0 then ""
    else
      JoinStartsWithFirst(parts, Bullet);
      Join(parts, Bullet)
  }

  lemma {:induction false} JoinStartsWithFirst(parts: seq<string>, sep: string)
    requires |parts| >= 1
    ensures HasPrefix(Join(parts, sep), parts[0])
  {
  }
}
