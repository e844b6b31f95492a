/*
 * Wi-Fi connections (internal/commands/wifi.go) and pairing (internal/commands/pair.go).
 * Every adb call is an oracle; the methods return the argument lists of the global adb
 * commands they run, in order, and the error they return (None for Go's nil).
 * Log lines and printed hints are not modelled.
 */
module WiFiCmd {
  import opened Wrappers
  import opened Text

  const DefaultWiFiPort: int := 4444

  /** ParseIPAndPort: "ip" gives port 0; "ip:port" needs a port in [1, 65535]; more colons are rejected. */
  function ParseIPAndPort(input: string): (r: Result<(string, int)>)
    ensures |Split(input, ':')| == 1 ==> r == Ok((input, 0))
    ensures |Split(input, ':')| == 2 ==>
      var portText := Split(input, ':')[1];
      (Atoi(portText).None? ==> r == Err("invalid port number: " + portText))
      && (Atoi(portText).Some? && !(1 <= Atoi(portText).value <= 65535) ==>
            r == Err("port number out of range: " + Itoa(Atoi(portText).value)))
      && (Atoi(portText).Some? && 1 <= Atoi(portText).value <= 65535 ==>
            r == Ok((Split(input, ':')[0], Atoi(portText).value)))
    ensures |Split(input, ':')| > 2 ==> r == Err("invalid IP address format: " + input)
    ensures r.Ok? ==> ':' !in r.value.0 && (r.value.1 == 0 || 1 <= r.value.1 <= 65535)
  {
    var parts := Split(input, ':');
    if |parts| == 1 then
      JoinSplit(input, ':');
      Ok((parts[0], 0))
    else if |parts| == 2 then
      var port := Atoi(parts[1]);
      if port.None? then Err("invalid port number: " + parts[1])
      else if port.value < 1 || port.value > 65535 then Err("port number out of range: " + Itoa(port.value))
      else Ok((parts[0], port.value))
    else Err("invalid IP address format: " + input)
  }

  /** An address written as ip:port parses back to that ip and port. */
  lemma ParseIPAndPortRoundTrip(ip: string, port: int)
    requires ':' !in ip && 1 <= port <= 65535
    ensures ParseIPAndPort(ip + ":" + Itoa(port)) == Ok((ip, port))
  {
    var s := ip + ":" + Itoa(port);
    assert Itoa(port) == NatToString(port);
    assert ':' !in Itoa(port) by {
      var t := Itoa(port);
      assert forall k :: 0 <= k < |t| ==> IsDigit(t[k]);
    }
    assert s[|ip|] == ':' && s[..|ip|] == ip && s[|ip| + 1..] == Itoa(port);
    SplitFirst(s, ':', |ip|);
    SplitNoSep(Itoa(port), ':');
    ItoaAtoi(port);
  }

  /** The default port as Sprintf("%d") writes it. */
  lemma DefaultPortText()
    ensures Itoa(DefaultWiFiPort) == "4444"
  {
    assert NatToString(4) == "4";
    assert NatToString(44) == NatToString(4) + [DigitChar(4)];
    assert NatToString(444) == NatToString(44) + [DigitChar(4)];
    assert NatToString(4444) == NatToString(444) + [DigitChar(4)];
  }

  /** The address used after parsing: a missing port becomes the default port 4444. */
  function NormalizedAddress(input: string, ip: string, port: int): (addr: string)
    ensures port == 0 ==> addr == ip + ":4444"
    ensures port != 0 ==> addr == input
  {
    DefaultPortText();
    if port == 0 then ip + ":" + Itoa(DefaultWiFiPort) else input
  }

  predicate Parsed(ipAndPort: string) { ParseIPAndPort(ipAndPort).Ok? }

  /** The address connect and disconnect use for a parsable input. */
  function Addr(ipAndPort: string): string
    requires Parsed(ipAndPort)
  {
    NormalizedAddress(ipAndPort, ParseIPAndPort(ipAndPort).value.0, ParseIPAndPort(ipAndPort).value.1)
  }

  /** The input names a port other than the default one. */
  predicate NonDefaultPort(ipAndPort: string)
    requires Parsed(ipAndPort)
  {
    ParseIPAndPort(ipAndPort).value.1 != 0 && ParseIPAndPort(ipAndPort).value.1 != DefaultWiFiPort
  }

  /** A connect attempt succeeded: no error and "connected to" in its output. */
  predicate Connected(out: Result<string>) {
    out.Ok? && Contains(out.value, "connected to")
  }

  /** A stale mDNS entry of `adb devices`: a trimmed line naming the TLS connect service. */
  predicate IsStaleLine(line: string) {
    Contains(line, "_adb-tls-connect._tcp") && Contains(line, "device") && |Fields(line)| >= 2
  }

  /** The identifiers CleanupStaleWiFiConnections disconnects, in line order. */
  function StaleIds(lines: seq<string>): (ids: seq<string>)
    ensures |ids| <= |lines|
  {
    if lines == [] then []
    else StaleIds(lines[..|lines| - 1]) + StaleId(lines[|lines| - 1])
  }

  /** The identifier a single listing line contributes: its first field when the trimmed line is stale. */
  function StaleId(line: string): (ids: seq<string>)
    ensures |ids| <= 1
    ensures |ids| == 1 <==> IsStaleLine(TrimSpace(line))
  {
    var t := TrimSpace(line);
    if IsStaleLine(t) then [Fields(t)[0]] else []
  }

  function DisconnectCalls(ids: seq<string>): (calls: seq<seq<string>>)
    ensures |calls| == |ids|
  {
    if ids == [] then [] else [["disconnect", ids[0]]] + DisconnectCalls(ids[1..])
  }

  /** One `adb disconnect` per identifier, in order. */
  lemma {:induction false} DisconnectCallsShape(ids: seq<string>)
    ensures forall k :: 0 <= k < |ids| ==> DisconnectCalls(ids)[k] == ["disconnect", ids[k]]
  {
    if ids != [] {
      DisconnectCallsShape(ids[1..]);
    }
  }

  /** `line` is a stale entry whose identifier is `id`. */
  predicate StaleLineOf(line: string, id: string) {
    IsStaleLine(TrimSpace(line)) && Fields(TrimSpace(line))[0] == id
  }

  /** Each disconnected identifier is the first field of a stale line of the listing. */
  lemma {:induction false} StaleIdsFromStaleLines(lines: seq<string>)
    ensures forall id :: id in StaleIds(lines) ==> exists k :: 0 <= k < |lines| && StaleLineOf(lines[k], id)
  {
    if lines != [] {
      var init := lines[..|lines| - 1];
      StaleIdsFromStaleLines(init);
      var last := lines[|lines| - 1];
      assert StaleIds(lines) == StaleIds(init) + StaleId(last);
      forall id | id in StaleIds(lines)
        ensures exists k :: 0 <= k < |lines| && StaleLineOf(lines[k], id)
      {
        if id in StaleIds(init) {
          var k :| 0 <= k < |init| && StaleLineOf(init[k], id);
          assert lines[k] == init[k];
        } else {
          StaleIdSource(last, id);
          assert lines[|lines| - 1] == last;
        }
      }
    }
  }

  /** The identifier of a stale line is its first field. */
  lemma StaleIdSource(line: string, id: string)
    requires id in StaleId(line)
    ensures StaleLineOf(line, id)
  {
  }

  /** The calls CleanupStaleWiFiConnections makes for a given `adb devices` result. */
  function CleanupCalls(devicesOut: Result<string>): seq<seq<string>> {
    [["devices"]] + (if devicesOut.Ok? then DisconnectCalls(StaleIds(Split(devicesOut.value, '\n'))) else [])
  }

  /** CleanupStaleWiFiConnections: list devices, then disconnect every stale mDNS entry; errors are ignored. */
  method CleanupStaleWiFiConnections(devicesOut: Result<string>) returns (calls: seq<seq<string>>)
    ensures calls == CleanupCalls(devicesOut)
  {
    calls := [["devices"]];
    if devicesOut.Err? {
      return;
    }
    var disconnects := DisconnectStale(Split(devicesOut.value, '\n'));
    calls := calls + disconnects;
  }

  /** The loop of CleanupStaleWiFiConnections over the lines of the listing. */
  method DisconnectStale(lines: seq<string>) returns (calls: seq<seq<string>>)
    ensures calls == DisconnectCalls(StaleIds(lines))
  {
    calls := [];
    var i := 0;
    while i < |lines|
      invariant 0 <= i <= |lines|
      invariant calls == DisconnectCalls(StaleIds(lines[..i]))
    {
      ghost var before, step := StaleIds(lines[..i]), StaleId(lines[i]);
      StaleIdsStep(lines, i);
      var disconnect := CleanupLine(lines[i]);
      DisconnectCallsAppend(before, step);
      calls := calls + disconnect;
      i := i + 1;
    }
    assert lines[..i] == lines;
  }

  lemma StaleIdsStep(lines: seq<string>, i: nat)
    requires i < |lines|
    ensures StaleIds(lines[..i + 1]) == StaleIds(lines[..i]) + StaleId(lines[i])
  {
    assert lines[..i + 1][..i] == lines[..i];
  }

  /** One line of CleanupStaleWiFiConnections: the disconnect call for a stale entry, if any. */
  method CleanupLine(raw: string) returns (calls: seq<seq<string>>)
    ensures calls == DisconnectCalls(StaleId(raw))
  {
    calls := [];
    var line := TrimSpace(raw);
    if Contains(line, "_adb-tls-connect._tcp") && Contains(line, "device") {
      var parts := Fields(line);
      if |parts| >= 2 {
        calls := [["disconnect", parts[0]]];
      }
    }
  }

  lemma {:induction false} DisconnectCallsAppend(a: seq<string>, b: seq<string>)
    ensures DisconnectCalls(a + b) == DisconnectCalls(a) + DisconnectCalls(b)
  {
    if a != [] {
      assert (a + b)[0] == a[0] && (a + b)[1..] == a[1..] + b;
      DisconnectCallsAppend(a[1..], b);
      var head := [["disconnect", a[0]]];
      assert DisconnectCalls(a + b) == head + (DisconnectCalls(a[1..]) + DisconnectCalls(b));
      assert head + (DisconnectCalls(a[1..]) + DisconnectCalls(b)) == (head + DisconnectCalls(a[1..])) + DisconnectCalls(b);
    } else {
      assert a + b == b;
    }
  }

  /**
   * ConnectWiFi. After a successful connect on a non-default port the device is switched to
   * port 4444 and reconnected there; if that reconnect works the temporary address is
   * disconnected and nothing else runs, otherwise stale entries are cleaned up as after any
   * successful connect. A failed switch keeps the original connection and returns nil.
   */
  method ConnectWiFi(ipAndPort: string, connectOut: Result<string>, switchErr: Option<string>,
                     standardOut: Result<string>, devicesOut: Result<string>)
    returns (err: Option<string>, calls: seq<seq<string>>)
    ensures ParseIPAndPort(ipAndPort).Err? ==> err == Some(ParseIPAndPort(ipAndPort).error) && calls == []
    ensures Parsed(ipAndPort) ==> |calls| >= 1 && calls[0] == ["connect", Addr(ipAndPort)]
    ensures Parsed(ipAndPort) ==> (err.None? <==> Connected(connectOut))
    ensures Parsed(ipAndPort) && !Connected(connectOut) ==>
      err == Some("failed to connect to " + Addr(ipAndPort) + ". Device may need pairing first")
      && calls == [["connect", Addr(ipAndPort)]]
    ensures Parsed(ipAndPort) && Connected(connectOut) && !NonDefaultPort(ipAndPort) ==>
      calls == [["connect", Addr(ipAndPort)]] + CleanupCalls(devicesOut)
    ensures Parsed(ipAndPort) && Connected(connectOut) && NonDefaultPort(ipAndPort) && switchErr.Some? ==>
      calls == [["connect", ipAndPort], ["-s", ipAndPort, "tcpip", "4444"]]
    ensures Parsed(ipAndPort) && Connected(connectOut) && NonDefaultPort(ipAndPort) && switchErr.None? && Connected(standardOut) ==>
      calls == [["connect", ipAndPort], ["-s", ipAndPort, "tcpip", "4444"],
                ["connect", ParseIPAndPort(ipAndPort).value.0 + ":4444"], ["disconnect", ipAndPort]]
    ensures Parsed(ipAndPort) && Connected(connectOut) && NonDefaultPort(ipAndPort) && switchErr.None? && !Connected(standardOut) ==>
      calls == [["connect", ipAndPort], ["-s", ipAndPort, "tcpip", "4444"],
                ["connect", ParseIPAndPort(ipAndPort).value.0 + ":4444"]] + CleanupCalls(devicesOut)
  {
    var parsed := ParseIPAndPort(ipAndPort);
    if parsed.Err? {
      return Some(parsed.error), [];
    }
    DefaultPortText();
    var ip, port := parsed.value.0, parsed.value.1;
    var addr := ipAndPort;
    if port == 0 {
      port := DefaultWiFiPort;
      addr := ip + ":" + Itoa(port);
    }
    assert addr == Addr(ipAndPort);
    assert port != DefaultWiFiPort <==> NonDefaultPort(ipAndPort);
    var connect := ["connect", addr];
    if connectOut.Ok? && Contains(connectOut.value, "connected to") {
      if port != DefaultWiFiPort {
        assert addr == ipAndPort && ip == ParseIPAndPort(ipAndPort).value.0;
        var portText := Itoa(DefaultWiFiPort);
        var tcpip := ["-s", addr, "tcpip", portText];
        if switchErr.Some? {
          return None, [connect, tcpip];
        }
        var standardAddress := ip + ":" + portText;
        assert standardAddress == ip + ":4444";
        var reconnect := ["connect", standardAddress];
        if standardOut.Ok? && Contains(standardOut.value, "connected to") {
          return None, [connect, tcpip, reconnect, ["disconnect", addr]];
        }
        var cleanup := CleanupStaleWiFiConnections(devicesOut);
        return None, [connect, tcpip, reconnect] + cleanup;
      }
      var cleanup := CleanupStaleWiFiConnections(devicesOut);
      return None, [connect] + cleanup;
    }
    return Some("failed to connect to " + addr + ". Device may need pairing first"), [connect];
  }

  /** The error DisconnectWiFi reports for a failed `adb disconnect`. */
  function DisconnectError(addr: string, e: string): (r: string)
    ensures Contains(e, "exit status 1") ==> r == "device " + addr + " was not connected"
    ensures !Contains(e, "exit status 1") ==> r == "failed to disconnect from " + addr + ": " + e
  {
    if Contains(e, "exit status 1") then "device " + addr + " was not connected"
    else "failed to disconnect from " + addr + ": " + e
  }

  /** DisconnectWiFi: list devices (for the log), disconnect, and clean up stale entries on success. */
  method DisconnectWiFi(ipAndPort: string, disconnectErr: Option<string>, devicesOut: Result<string>)
    returns (err: Option<string>, calls: seq<seq<string>>)
    ensures ParseIPAndPort(ipAndPort).Err? ==> err == Some(ParseIPAndPort(ipAndPort).error) && calls == []
    ensures ParseIPAndPort(ipAndPort).Ok? ==>
      var (ip, port) := ParseIPAndPort(ipAndPort).value;
      var addr := NormalizedAddress(ipAndPort, ip, port);
      (disconnectErr.Some? ==> err == Some(DisconnectError(addr, disconnectErr.value))
                               && calls == [["devices"], ["disconnect", addr]])
      && (disconnectErr.None? ==> err.None? && calls == [["devices"], ["disconnect", addr]] + CleanupCalls(devicesOut))
  {
    var parsed := ParseIPAndPort(ipAndPort);
    if parsed.Err? {
      return Some(parsed.error), [];
    }
    var ip, port := parsed.value.0, parsed.value.1;
    var addr := ipAndPort;
    if port == 0 {
      addr := ip + ":" + Itoa(DefaultWiFiPort);
    }
    calls := [["devices"], ["disconnect", addr]];
    if disconnectErr.Some? {
      return Some(DisconnectError(addr, disconnectErr.value)), calls;
    }
    var cleanup := CleanupStaleWiFiConnections(devicesOut);
    return None, calls + cleanup;
  }

  /** The line PairWiFiDevice prints before it runs `adb pair`. */
  function PairingLine(ipAndPort: string, pairingCode: string): string {
    "Pairing with " + ipAndPort + " using code " + pairingCode + "..."
  }

  /** The instructions PairWiFiDevice prints after a successful pairing. */
  function PairedInstructions(ipAndPort: string): seq<string> {
    ["Successfully paired with " + ipAndPort,
     "\nPairing successful! Now you need to:",
     "1. Check the main 'IP address & Port' on your phone (not the pairing section)",
     "2. Use the Connect WiFi command (menu 8) with that address",
     "3. The tool will then set it to use port " + Itoa(DefaultWiFiPort) + " permanently\n"]
  }

  /**
   * PairWiFiDevice: `adb pair`; success needs "Successfully paired" in the output, and only then
   * is cleanup run and the next steps printed.
   */
  method PairWiFiDevice(ipAndPort: string, pairingCode: string, pairOut: Result<string>, devicesOut: Result<string>)
    returns (err: Option<string>, calls: seq<seq<string>>, printed: seq<string>)
    ensures pairOut.Err? ==> err == Some("pairing command failed: " + pairOut.error) && calls == [["pair", ipAndPort, pairingCode]]
    ensures pairOut.Ok? && Contains(pairOut.value, "Successfully paired") ==>
      err.None? && calls == [["pair", ipAndPort, pairingCode]] + CleanupCalls(devicesOut)
    ensures pairOut.Ok? && !Contains(pairOut.value, "Successfully paired") ==>
      err == Some("pairing failed: " + TrimSpace(pairOut.value)) && calls == [["pair", ipAndPort, pairingCode]]
    ensures printed == [PairingLine(ipAndPort, pairingCode)] + if err.None? then PairedInstructions(ipAndPort) else []
  {
    var announced := [PairingLine(ipAndPort, pairingCode)];
    calls := [["pair", ipAndPort, pairingCode]];
    if pairOut.Err? {
      return Some("pairing command failed: " + pairOut.error), calls, announced + [];
    }
    if Contains(pairOut.value, "Successfully paired") {
      var cleanup := CleanupStaleWiFiConnections(devicesOut);
      return None, calls + cleanup, announced + PairedInstructions(ipAndPort);
    }
    return Some("pairing failed: " + TrimSpace(pairOut.value)), calls, announced + [];
  }
}
