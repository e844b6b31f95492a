/*
 * The device parser the CLI tests carry as their own copy (test/cli/cli_test.go, repeated
 * verbatim in test/cli/devices_test.go). Where internal/adb matches a token by the prefixes
 * "model:", "product:", ... this copy splits it at its first ':' and switches on the key.
 * The two readings agree on every token, so the copy parses every output exactly as
 * Adb.GetConnectedDevices does.
 */
module CliTest {
  import opened Wrappers
  import opened Text
  import Adb
  import Fakes

  /** The test copy's token rule: split at the first ':' and set the field the key names. */
  function TestApplyToken(d: Adb.Device, tok: string): Adb.Device {
    if !Contains(tok, ":") then d
    else
      var kv := SplitOnce(tok, ":");
      if |kv| != 2 then d
      else if kv[0] == "product" then d.(product := kv[1])
      else if kv[0] == "model" then d.(model := kv[1])
      else if kv[0] == "device" then d.(deviceType := kv[1])
      else if kv[0] == "transport_id" then d.(transportID := kv[1])
      else d
  }

  /** When a colon-free key followed by ':' starts the token, its first ':' comes right after the key. */
  lemma FirstColonAfterKey(tok: string, key: string)
    requires ':' !in key && HasPrefix(tok, key + ":")
    ensures Index(tok, ":") == |key|
  {
    assert tok[..|key| + 1] == key + ":";
    forall k | 0 <= k < |key|
      ensures !MatchAt(tok, ":", k)
    {
      assert tok[k..k + 1] == [key[k]];
    }
    assert tok[|key|..|key| + 1] == ":";
    assert MatchAt(tok, ":", |key|);
  }

  /**
   * For a colon-free key, "the token starts with key + ':'" and "the token's first ':' ends
   * the key" are the same condition, and the text after the colon is the same in both readings.
   */
  lemma KeySplit(tok: string, key: string)
    requires ':' !in key
    ensures HasPrefix(tok, key + ":") <==> (Contains(tok, ":") && SplitOnce(tok, ":")[0] == key)
    ensures HasPrefix(tok, key + ":") ==>
      (|SplitOnce(tok, ":")| == 2 && SplitOnce(tok, ":")[1] == TrimPrefix(tok, key + ":"))
  {
    var r := SplitOnce(tok, ":");
    if HasPrefix(tok, key + ":") {
      FirstColonAfterKey(tok, key);
      assert tok[..|key|] == key;
    }
    if Contains(tok, ":") && r[0] == key {
      assert (r[0] + ":" + r[1])[..|key| + 1] == key + ":";
    }
  }

  /** The test copy and internal/adb read every token the same way. */
  lemma TokenParsersAgree(d: Adb.Device, tok: string)
    ensures TestApplyToken(d, tok) == Adb.ApplyToken(d, tok)
  {
    if HasPrefix(tok, "model:") {
      KeySplit(tok, "model");
    } else if HasPrefix(tok, "product:") {
      KeySplit(tok, "model");
      KeySplit(tok, "product");
    } else if HasPrefix(tok, "device:") {
      KeySplit(tok, "model");
      KeySplit(tok, "product");
      KeySplit(tok, "device");
    } else {
      KeySplit(tok, "model");
      KeySplit(tok, "product");
      KeySplit(tok, "device");
      KeySplit(tok, "transport_id");
    }
  }

  /**
   * parseDeviceLine (test copy): no device for fewer than two fields; otherwise serial and
   * status from the first two fields and the key tokens applied in order. It returns what
   * internal/adb's parser returns for the same line.
   */
  method ParseDeviceLine(line: string) returns (device: Option<Adb.Device>)
    ensures device == Adb.DeviceFromLine(line)
    ensures device.None? <==> |Fields(line)| < 2
  {
    var parts := Fields(line);
    if |parts| < 2 {
      return None;
    }
    var d := Adb.NewDevice(parts[0], parts[1]);
    var i := 2;
    while i < |parts|
      invariant 2 <= i <= |parts|
      invariant d == Adb.ApplyTokens(Adb.NewDevice(parts[0], parts[1]), parts[2..i])
    {
      assert parts[2..i + 1][..i - 2] == parts[2..i];
      TokenParsersAgree(d, parts[i]);
      d := TestApplyToken(d, parts[i]);
      i := i + 1;
    }
    assert parts[2..i] == parts[2..];
    return Some(d);
  }

  /**
   * parseADBDevicesOutput (test copy): every line after the header, trimmed, blank ones
   * skipped, unparsable ones dropped. It never reports an error, and its list is the one
   * internal/adb builds from the same output.
   */
  method ParseADBDevicesOutput(output: string) returns (devices: seq<Adb.Device>, err: Option<string>)
    ensures err.None?
    ensures devices == Adb.DevicesFromLines(Split(output, '\n')[1..])
  {
    devices := [];
    var lines := Split(output, '\n');
    ghost var rest := lines[1..];
    var i := 1;
    while i < |lines|
      invariant 1 <= i <= |lines|
      invariant devices == Adb.DevicesFromLines(rest[..i - 1])
    {
      Adb.DevicesFromLinesStep(rest, i - 1);
      assert rest[i - 1] == lines[i];
      var line := TrimSpace(lines[i]);
      if line != "" {
        var device := ParseDeviceLine(line);
        if device.Some? {
          devices := devices + [device.value];
        }
      }
      i := i + 1;
    }
    assert rest[..i - 1] == rest;
    return devices, None;
  }

  /**
   * getConnectedDevicesWithFake: the faked `adb devices -l` run either fails, and the error
   * is wrapped as adb.GetConnectedDevices wraps it, or its output goes to the test parser.
   */
  method GetConnectedDevicesWithFake(output: Result<string>) returns (r: Result<seq<Adb.Device>>)
    ensures output.Err? ==> r == Err("failed to get devices: " + output.error)
    ensures output.Ok? ==> r == Ok(Adb.DevicesFromLines(Split(output.value, '\n')[1..]))
  {
    if output.Err? {
      return Err("failed to get devices: " + output.error);
    }
    var devices, parseErr := ParseADBDevicesOutput(output.value);
    return Ok(devices);
  }

  /** A line of the listing and the rest of the output: Split takes the line off first. */
  lemma SplitLine(line: string, rest: string)
    requires '\n' !in line
    ensures Split(line + "\n" + rest, '\n') == [line] + Split(rest, '\n')
  {
    var s := line + "\n" + rest;
    assert s[..|line|] == line;
    SplitFirst(s, '\n', |line|);
    assert s[|line| + 1..] == rest;
    assert Split(s, '\n') == [Split(s, '\n')[0]] + Split(s, '\n')[1..];
  }

  /** A word followed by the end or by whitespace is the word Fields reads first. */
  lemma {:induction false} WordOf(w: string, rest: string)
    requires w != [] && NoSpace(w) && (rest == [] || IsSpace(rest[0]))
    ensures Word(w + rest) == w
    decreases |w|
  {
    var s := w + rest;
    assert s[0] == w[0];
    assert s[1..] == w[1..] + rest;
    if |w| > 1 {
      WordOf(w[1..], rest);
    } else {
      assert s[1..] == rest;
    }
  }

  /** Fields of a word, one blank and the rest: the word, then the fields of the rest. */
  lemma FieldsToken(w: string, c: char, rest: string)
    requires w != [] && NoSpace(w) && IsSpace(c)
    ensures Fields(w + [c] + rest) == [w] + Fields(rest)
  {
    var s := w + [c] + rest;
    WordOf(w, [c] + rest);
    assert s == w + ([c] + rest);
    assert s[|w|..] == [c] + rest;
    assert TrimLeftSpace(s[|w|..]) == TrimLeftSpace(rest) by {
      assert s[|w|..][1..] == rest;
    }
  }

  /** Fields of a single word. */
  lemma FieldsWord(w: string)
    requires w != [] && NoSpace(w)
    ensures Fields(w) == [w]
  {
    WordOf(w, []);
    assert w + [] == w;
    assert w[|w|..] == [];
  }

  /** The four property tokens adb prints for a device, in its order. */
  function Props(product: string, model: string, deviceType: string, transportID: string): seq<string> {
    ["product:" + product, "model:" + model, "device:" + deviceType, "transport_id:" + transportID]
  }

  /** Each property token sets the field its key names and only that field. */
  lemma ApplyProps(d: Adb.Device, product: string, model: string, deviceType: string, transportID: string)
    ensures Adb.ApplyToken(d, "product:" + product) == d.(product := product)
    ensures Adb.ApplyToken(d, "model:" + model) == d.(model := model)
    ensures Adb.ApplyToken(d, "device:" + deviceType) == d.(deviceType := deviceType)
    ensures Adb.ApplyToken(d, "transport_id:" + transportID) == d.(transportID := transportID)
  {
    assert ("product:" + product)[0] == 'p' && ("product:" + product)[..8] == "product:";
    assert ("product:" + product)[8..] == product;
    assert ("model:" + model)[..6] == "model:" && ("model:" + model)[6..] == model;
    assert ("device:" + deviceType)[0] == 'd' && ("device:" + deviceType)[..7] == "device:";
    assert ("device:" + deviceType)[7..] == deviceType;
    assert ("transport_id:" + transportID)[0] == 't';
    assert ("transport_id:" + transportID)[..13] == "transport_id:";
    assert ("transport_id:" + transportID)[13..] == transportID;
  }

  /** The properties, applied in order, set exactly the four fields they name. */
  lemma PropsApplied(d: Adb.Device, product: string, model: string, deviceType: string, transportID: string)
    ensures Adb.ApplyTokens(d, Props(product, model, deviceType, transportID))
      == d.(product := product, model := model, deviceType := deviceType, transportID := transportID)
  {
    var p1 := ["product:" + product];
    var p2 := p1 + ["model:" + model];
    var p3 := p2 + ["device:" + deviceType];
    var p4 := p3 + ["transport_id:" + transportID];
    var d1 := d.(product := product);
    var d2 := d1.(model := model);
    var d3 := d2.(deviceType := deviceType);
    ApplyProps(d, product, model, deviceType, transportID);
    ApplyProps(d1, product, model, deviceType, transportID);
    ApplyProps(d2, product, model, deviceType, transportID);
    ApplyProps(d3, product, model, deviceType, transportID);
    assert p1[..0] == [];
    assert Adb.ApplyTokens(d, p1) == d1;
    assert p2[..1] == p1;
    assert Adb.ApplyTokens(d, p2) == d2;
    assert p3[..2] == p2;
    assert Adb.ApplyTokens(d, p3) == d3;
    assert p4[..3] == p3;
    assert p4 == Props(product, model, deviceType, transportID);
  }

  /** A key followed by a blank-free, non-empty value is a blank-free token. */
  lemma KeyToken(key: string, value: string)
    requires NoSpace(key) && NoSpace(value) && value != []
    ensures NoSpace(key + value) && (key + value) != [] && (key + value)[|key + value| - 1] == value[|value| - 1]
  {
    assert forall i :: 0 <= i < |key + value| ==> (key + value)[i] == if i < |key| then key[i] else value[i - |key|];
  }

  /** Non-empty, blank-free words joined by single blanks split back into the same words. */
  lemma {:induction false} JoinedFields(ws: seq<string>)
    requires forall k :: 0 <= k < |ws| ==> ws[k] != [] && NoSpace(ws[k])
    ensures Fields(Join(ws, " ")) == ws
    decreases |ws|
  {
    if |ws| == 1 {
      FieldsWord(ws[0]);
    } else if |ws| > 1 {
      JoinedFields(ws[1..]);
      FieldsToken(ws[0], ' ', Join(ws[1..], " "));
      assert ws == [ws[0]] + ws[1..];
    }
  }

  /** Joined words end with the last word. */
  lemma {:induction false} JoinedLast(ws: seq<string>, sep: string)
    requires ws != [] && ws[|ws| - 1] != []
    ensures Join(ws, sep) != [] && Join(ws, sep)[|Join(ws, sep)| - 1] == ws[|ws| - 1][|ws[|ws| - 1]| - 1]
    decreases |ws|
  {
    if |ws| > 1 {
      JoinedLast(ws[1..], sep);
      assert ws[1..][|ws| - 2] == ws[|ws| - 1];
    }
  }

  /** A character found neither in the words nor in the separator is not in their join. */
  lemma {:induction false} JoinedWithout(ws: seq<string>, sep: string, c: char)
    requires c !in sep && forall k :: 0 <= k < |ws| ==> c !in ws[k]
    ensures c !in Join(ws, sep)
    decreases |ws|
  {
    if |ws| > 1 {
      JoinedWithout(ws[1..], sep, c);
      assert c !in ws[0];
    }
  }

  /** The four property tokens are non-empty and blank-free when the values are. */
  lemma PropsWords(product: string, model: string, deviceType: string, transportID: string)
    requires product != [] && NoSpace(product) && model != [] && NoSpace(model)
    requires deviceType != [] && NoSpace(deviceType) && transportID != [] && NoSpace(transportID)
    ensures var ps := Props(product, model, deviceType, transportID);
      forall k :: 0 <= k < |ps| ==> ps[k] != [] && NoSpace(ps[k])
  {
    KeyToken("product:", product);
    KeyToken("model:", model);
    KeyToken("device:", deviceType);
    KeyToken("transport_id:", transportID);
  }

  /** The fields of a device's listing line: the serial, its state and the four properties. */
  lemma ListingLineFields(serial: string, product: string, model: string, deviceType: string, transportID: string)
    requires serial != [] && NoSpace(serial)
    requires product != [] && NoSpace(product) && model != [] && NoSpace(model)
    requires deviceType != [] && NoSpace(deviceType) && transportID != [] && NoSpace(transportID)
    ensures Fields(Fakes.ListingLine(serial, product, model, deviceType, transportID))
      == [serial] + (["device"] + Props(product, model, deviceType, transportID))
  {
    var ps := Props(product, model, deviceType, transportID);
    var ws := ["device"] + ps;
    PropsWords(product, model, deviceType, transportID);
    assert forall k :: 1 <= k < |ws| ==> ws[k] == ps[k - 1];
    assert NoSpace(ws[0]);
    JoinedFields(ws);
    FieldsToken(serial, '\t', Join(ws, " "));
  }

  /** A device's listing line starts with its serial and ends with its transport id, so trimming keeps it. */
  lemma ListingLineTrimmed(serial: string, product: string, model: string, deviceType: string, transportID: string)
    requires serial != [] && NoSpace(serial) && transportID != [] && NoSpace(transportID)
    ensures TrimSpace(Fakes.ListingLine(serial, product, model, deviceType, transportID))
      == Fakes.ListingLine(serial, product, model, deviceType, transportID)
  {
    var line := Fakes.ListingLine(serial, product, model, deviceType, transportID);
    var ws := ["device"] + Props(product, model, deviceType, transportID);
    KeyToken("transport_id:", transportID);
    JoinedLast(ws, " ");
    assert line[0] == serial[0];
    assert line[|line| - 1] == transportID[|transportID| - 1];
    TrimSpaceKeeps(line);
  }

  /** A device's listing line is a single line. */
  lemma ListingNoNewline(serial: string, product: string, model: string, deviceType: string, transportID: string)
    requires NoSpace(serial) && product != [] && NoSpace(product) && model != [] && NoSpace(model)
    requires deviceType != [] && NoSpace(deviceType) && transportID != [] && NoSpace(transportID)
    ensures '\n' !in Fakes.ListingLine(serial, product, model, deviceType, transportID)
  {
    var ws := ["device"] + Props(product, model, deviceType, transportID);
    assert IsSpace('\n');
    forall k | 0 <= k < |ws|
      ensures '\n' !in ws[k]
    {
      KeyToken("product:", product);
      KeyToken("model:", model);
      KeyToken("device:", deviceType);
      KeyToken("transport_id:", transportID);
    }
    JoinedWithout(ws, " ", '\n');
  }

  /**
   * A trimmed line whose fields are a serial, the state "device" and some property tokens parses
   * to the device those tokens build up from the serial and the state.
   */
  lemma LineOfFields(line: string, serial: string, props: seq<string>)
    requires TrimSpace(line) == line && Fields(line) == [serial, "device"] + props
    ensures Adb.LineDevices(line) == [Adb.ApplyTokens(Adb.NewDevice(serial, "device"), props)]
  {
    var parts := Fields(line);
    assert line != [] by {
      assert parts != [];
    }
    assert parts[0] == serial && parts[1] == "device" && parts[2..] == props;
  }

  /**
   * The listing line of a device whose serial and property values are blank-free and non-empty
   * parses to exactly one device carrying those values.
   */
  lemma ListingParses(serial: string, product: string, model: string, deviceType: string, transportID: string)
    requires serial != [] && NoSpace(serial)
    requires product != [] && NoSpace(product) && model != [] && NoSpace(model)
    requires deviceType != [] && NoSpace(deviceType) && transportID != [] && NoSpace(transportID)
    ensures Adb.LineDevices(Fakes.ListingLine(serial, product, model, deviceType, transportID))
      == [Adb.NewDevice(serial, "device").(product := product, model := model,
                                           deviceType := deviceType, transportID := transportID)]
    ensures '\n' !in Fakes.ListingLine(serial, product, model, deviceType, transportID)
  {
    var line := Fakes.ListingLine(serial, product, model, deviceType, transportID);
    ListingNoNewline(serial, product, model, deviceType, transportID);
    ListingLineFields(serial, product, model, deviceType, transportID);
    ListingLineTrimmed(serial, product, model, deviceType, transportID);
    var props := Props(product, model, deviceType, transportID);
    assert [serial] + (["device"] + props) == [serial, "device"] + props;
    LineOfFields(line, serial, props);
    PropsApplied(Adb.NewDevice(serial, "device"), product, model, deviceType, transportID);
  }

  /** Printable ASCII text other than the blank holds no whitespace. */
  lemma Printable(w: string)
    requires forall i :: 0 <= i < |w| ==> '!' <= w[i] <= '~'
    ensures NoSpace(w)
  {
  }

  /** The emulator of the fixtures, as the tests expect it. */
  const FixtureEmulator: Adb.Device := Adb.NewDevice("emulator-5554", "device").(
    product := "sdk_gphone64_x86_64", model := "sdk_gphone64_x86_64",
    deviceType := "generic_x86_64", transportID := "1")

  /** The Wi-Fi device of the two-device fixture. */
  const FixtureWiFiDevice: Adb.Device := Adb.NewDevice("192.168.1.100:5555", "device").(
    product := "OnePlus7Pro", model := "GM1913", deviceType := "OnePlus7Pro", transportID := "2")

  /** The fixture's emulator line parses to the fixture's emulator. */
  lemma EmulatorLine()
    ensures Adb.LineDevices(Fakes.EmulatorListing) == [FixtureEmulator]
    ensures '\n' !in Fakes.EmulatorListing
  {
    Printable("emulator-5554");
    Printable("sdk_gphone64_x86_64");
    Printable("generic_x86_64");
    Printable("1");
    ListingParses("emulator-5554", "sdk_gphone64_x86_64", "sdk_gphone64_x86_64", "generic_x86_64", "1");
  }

  /** The fixture's Wi-Fi line parses to the fixture's Wi-Fi device. */
  lemma WiFiLine()
    ensures Adb.LineDevices(Fakes.WiFiListing) == [FixtureWiFiDevice]
    ensures '\n' !in Fakes.WiFiListing
  {
    Printable("192.168.1.100:5555");
    Printable("OnePlus7Pro");
    Printable("GM1913");
    Printable("2");
    ListingParses("192.168.1.100:5555", "OnePlus7Pro", "GM1913", "OnePlus7Pro", "2");
  }

  /** A header line alone lists no device. */
  lemma HeaderOnly(header: string)
    requires '\n' !in header
    ensures Adb.DevicesFromLines(Split(header + "\n", '\n')[1..]) == []
  {
    SplitLine(header, "");
    assert header + "\n" + "" == header + "\n";
    assert Split("", '\n') == [""];
  }

  /** One newline-terminated line splits into the line and an empty tail. */
  lemma SplitEnd(a: string)
    requires '\n' !in a
    ensures Split(a + "\n", '\n') == [a, ""]
  {
    SplitLine(a, "");
    assert a + "\n" + "" == a + "\n";
  }

  /** A header and one newline-terminated line split into the two lines and an empty tail. */
  lemma SplitOne(header: string, a: string)
    requires '\n' !in header && '\n' !in a
    ensures Split(header + "\n" + a + "\n", '\n') == [header, a, ""]
  {
    SplitEnd(a);
    SplitLine(header, a + "\n");
    assert header + "\n" + a + "\n" == header + "\n" + (a + "\n");
  }

  /** A header and two newline-terminated lines split into the three lines and an empty tail. */
  lemma SplitTwo(header: string, a: string, b: string)
    requires '\n' !in header && '\n' !in a && '\n' !in b
    ensures Split(header + "\n" + a + "\n" + b + "\n", '\n') == [header, a, b, ""]
  {
    SplitOne(a, b);
    SplitLine(header, a + "\n" + b + "\n");
    assert header + "\n" + a + "\n" + b + "\n" == header + "\n" + (a + "\n" + b + "\n");
  }

  /** A further line adds its devices after those of the lines before it. */
  lemma DevicesSnoc(lines: seq<string>, l: string)
    ensures Adb.DevicesFromLines(lines + [l]) == Adb.DevicesFromLines(lines) + Adb.LineDevices(l)
  {
    assert (lines + [l])[..|lines|] == lines;
  }

  /** A line followed by the empty tail lists the devices of that line. */
  lemma OneLineDevices(a: string)
    ensures Adb.DevicesFromLines([a, ""]) == Adb.LineDevices(a)
  {
    DevicesSnoc([], a);
    DevicesSnoc([a], "");
    assert [] + [a] == [a] && [a] + [""] == [a, ""];
    assert Adb.LineDevices("") == [];
  }

  /** Two lines followed by the empty tail list the devices of each line in order. */
  lemma TwoLineDevices(a: string, b: string)
    ensures Adb.DevicesFromLines([a, b, ""]) == Adb.LineDevices(a) + Adb.LineDevices(b)
  {
    OneLineDevices(a);
    DevicesSnoc([a], b);
    DevicesSnoc([a, b], "");
    assert [a] + [b] == [a, b] && [a, b] + [""] == [a, b, ""];
    assert Adb.DevicesFromLines([a]) == Adb.LineDevices(a) by {
      assert [a][..0] == [];
    }
    assert Adb.LineDevices("") == [];
  }

  /** The empty listing of the fakes holds no device, as the tests that refresh with it expect. */
  lemma EmptyFixture()
    ensures Adb.DevicesFromLines(Split(Fakes.EmptyDevicesOutput, '\n')[1..]) == []
  {
    HeaderOnly(Fakes.DevicesHeader);
  }

  /** The single-device listing of the fakes holds the emulator the tests check field by field. */
  lemma SingleFixture()
    ensures var single := Adb.DevicesFromLines(Split(Fakes.SingleDeviceOutput, '\n')[1..]);
      single == [FixtureEmulator] && single[0].serial == "emulator-5554"
      && single[0].status == "device" && single[0].product == "sdk_gphone64_x86_64"
  {
    var header, emu := Fakes.DevicesHeader, Fakes.EmulatorListing;
    assert '\n' !in header;
    EmulatorLine();
    SplitOne(header, emu);
    assert Split(Fakes.SingleDeviceOutput, '\n')[1..] == [emu, ""];
    OneLineDevices(emu);
  }

  /** The two-device listing of the fakes is the header, the emulator's line and the Wi-Fi device's line. */
  lemma MultipleLines()
    ensures Split(Fakes.MultipleDevicesOutput, '\n')[1..] == [Fakes.EmulatorListing, Fakes.WiFiListing, ""]
  {
    assert '\n' !in Fakes.DevicesHeader;
    EmulatorLine();
    WiFiLine();
    SplitTwo(Fakes.DevicesHeader, Fakes.EmulatorListing, Fakes.WiFiListing);
  }

  /** The two-device listing of the fakes holds the emulator and then the Wi-Fi device. */
  lemma MultipleFixture()
    ensures var multiple := Adb.DevicesFromLines(Split(Fakes.MultipleDevicesOutput, '\n')[1..]);
      multiple == [FixtureEmulator, FixtureWiFiDevice] && multiple[1].serial == "192.168.1.100:5555"
  {
    MultipleLines();
    EmulatorLine();
    WiFiLine();
    TwoLineDevices(Fakes.EmulatorListing, Fakes.WiFiListing);
  }
}
