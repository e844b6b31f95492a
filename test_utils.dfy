/*
 * The test suite's process fakes (test/cli/util/exec_faker.go, test/cli/fake.go) and
 * string helpers (test/cli/util/helpers.go). A faked command is answered by the first
 * stub that matches it; the helper process it would start is described by its arguments
 * and environment, which are returned rather than run.
 */
module TestHelpers {
  import opened Text

  /** An executed command as the fakes record it. */
  datatype ExecutionRecord = ExecutionRecord(command: string, args: seq<string>)

  /** Join extended by one element on the right: the step joinArgs takes. */
  lemma {:induction false} JoinSnoc(xs: seq<string>, x: string, sep: string)
    requires xs != []
    ensures Join(xs + [x], sep) == Join(xs, sep) + sep + x
    decreases |xs|
  {
    if |xs| == 1 {
      assert xs + [x] == [xs[0], x];
      assert ([xs[0], x])[1..] == [x];
    } else {
      assert (xs + [x])[1..] == xs[1..] + [x];
      JoinSnoc(xs[1..], x, sep);
    }
  }

  /** joinArgs: the arguments separated by single spaces, "" for none. */
  method JoinArgs(args: seq<string>) returns (result: string)
    ensures result == Join(args, " ")
    ensures args == [] ==> result == ""
  {
    if |args| == 0 {
      return "";
    }
    result := args[0];
    var i := 1;
    while i < |args|
      invariant 1 <= i <= |args|
      invariant result == Join(args[..i], " ")
    {
      JoinSnoc(args[..i], args[i], " ");
      assert args[..i + 1] == args[..i] + [args[i]];
      result := result + " " + args[i];
      i := i + 1;
    }
    assert args[..i] == args;
  }

  /** containsSubstring: tries every start index from 0 to len(s) - len(substr). */
  method ContainsSubstring(s: string, substr: string) returns (found: bool)
    ensures found <==> exists k :: MatchAt(s, substr, k)
  {
    var i := 0;
    while i <= |s| - |substr|
      invariant 0 <= i
      invariant forall k :: 0 <= k < i ==> !MatchAt(s, substr, k)
      decreases |s| - |substr| - i
    {
      if s[i..i + |substr|] == substr {
        assert MatchAt(s, substr, i);
        return true;
      }
      i := i + 1;
    }
    return false;
  }

  /**
   * containsPattern: equality, suffix, prefix or substring. The first three are instances
   * of the fourth, so the test is just strings.Contains.
   */
  predicate ContainsPattern(fullCommand: string, pattern: string) {
    |fullCommand| >= |pattern|
    && (fullCommand == pattern
        || fullCommand[|fullCommand| - |pattern|..] == pattern
        || fullCommand[..|pattern|] == pattern
        || exists k :: 0 <= k <= |fullCommand| - |pattern| && MatchAt(fullCommand, pattern, k))
  }

  lemma ContainsPatternIsContains(fullCommand: string, pattern: string)
    ensures ContainsPattern(fullCommand, pattern) <==> Contains(fullCommand, pattern)
  {
    ContainsIff(fullCommand, pattern);
    if ContainsPattern(fullCommand, pattern) {
      if fullCommand[|fullCommand| - |pattern|..] == pattern {
        assert MatchAt(fullCommand, pattern, |fullCommand| - |pattern|);
      } else if fullCommand[..|pattern|] == pattern {
        assert MatchAt(fullCommand, pattern, 0);
      }
    } else {
      forall k | MatchAt(fullCommand, pattern, k)
        ensures false
      {
      }
    }
  }

  /** The command line a record stands for: the command, then its arguments joined by spaces. */
  function FullCommand(r: ExecutionRecord): (s: string)
    ensures r.args == [] ==> s == r.command
    ensures r.args != [] ==> HasPrefix(s, r.command + " ")
  {
    if |r.args| > 0 then r.command + " " + Join(r.args, " ") else r.command
  }

  /** MatchesCommandPattern: the pattern occurs somewhere in the full command line. */
  predicate MatchesCommandPattern(executed: ExecutionRecord, pattern: string) {
    ContainsPattern(FullCommand(executed), pattern)
  }

  /** A record's own command name always matches it as a pattern. */
  lemma MatchesOwnCommand(executed: ExecutionRecord)
    ensures MatchesCommandPattern(executed, executed.command)
  {
    ContainsPatternIsContains(FullCommand(executed), executed.command);
    ContainsIff(FullCommand(executed), executed.command);
    assert MatchAt(FullCommand(executed), executed.command, 0);
  }

  /** FormatExecutedCommands: one full command line per record, in order. */
  method FormatExecutedCommands(commands: seq<ExecutionRecord>) returns (formatted: seq<string>)
    ensures |formatted| == |commands|
    ensures forall i :: 0 <= i < |commands| ==> formatted[i] == FullCommand(commands[i])
  {
    formatted := [];
    for i := 0 to |commands|
      invariant |formatted| == i
      invariant forall k :: 0 <= k < i ==> formatted[k] == FullCommand(commands[k])
    {
      var fullCmd := commands[i].command;
      if |commands[i].args| > 0 {
        var joined := JoinArgs(commands[i].args);
        fullCmd := fullCmd + " " + joined;
      }
      formatted := formatted + [fullCmd];
    }
  }
}

/*
 * The two fakes. GenericExecFaker (exec_faker.go) records every execution and holds stubs;
 * ExecFaker (fake.go) holds the same kind of entries under the name "fakes" and records
 * nothing. Both answer with the first entry whose command is a suffix of the executed one
 * and whose arguments are equal.
 */
module Fakes {
  import opened Wrappers
  import opened Text
  import TestHelpers
  import Adb
  import Density

  /** A stubbed (or faked) command and its canned response. */
  datatype Stub = Stub(command: string, args: seq<string>, stdout: string, stderr: string, exitCode: int)

  /** The matching rule: the executed command ends with (or is) the stub's, and the arguments are equal. */
  predicate Matches(stub: Stub, command: string, args: seq<string>) {
    (HasSuffix(command, stub.command) || command == stub.command) && args == stub.args
  }

  /** The equality test is redundant: every string ends with itself. */
  lemma MatchesIsSuffix(stub: Stub, command: string, args: seq<string>)
    ensures Matches(stub, command, args) <==> HasSuffix(command, stub.command) && args == stub.args
  {
    if command == stub.command {
      assert command[|command| - |stub.command|..] == command;
    }
  }

  /** The index of the first matching stub, or -1. */
  function FirstStub(stubs: seq<Stub>, command: string, args: seq<string>): (i: int)
    ensures -1 <= i < |stubs|
    ensures i >= 0 ==> Matches(stubs[i], command, args)
    ensures forall k :: 0 <= k < |stubs| && (i < 0 || k < i) ==> !Matches(stubs[k], command, args)
    decreases |stubs|
  {
    if stubs == [] then -1
    else
      var i := FirstStub(stubs[..|stubs| - 1], command, args);
      if i >= 0 then i
      else if Matches(stubs[|stubs| - 1], command, args) then |stubs| - 1
      else -1
  }

  /** The environment of the helper process: the helper flag, then the matched stub's response. */
  function HelperEnv(stubs: seq<Stub>, command: string, args: seq<string>): (env: seq<string>)
    ensures |env| >= 1 && env[0] == "GO_TEST_HELPER_PROCESS=1"
    ensures |env| == 1 <==> FirstStub(stubs, command, args) < 0
  {
    var i := FirstStub(stubs, command, args);
    ["GO_TEST_HELPER_PROCESS=1"]
    + (if i < 0 then []
       else ["TEST_STDOUT=" + stubs[i].stdout, "TEST_STDERR=" + stubs[i].stderr,
             "TEST_EXIT_CODE=" + Itoa(stubs[i].exitCode)])
  }

  /** The arguments the helper process is started with. */
  function HelperArgs(command: string, args: seq<string>): (cs: seq<string>)
    ensures |cs| == |args| + 3 && cs[..3] == ["-test.run=TestHelperProcess", "--", command] && cs[3..] == args
  {
    ["-test.run=TestHelperProcess", "--", command] + args
  }

  /**
   * An entry added after a matching one is never used: the answer for a command only
   * depends on the stubs up to and including its first match.
   */
  lemma EarlierStubWins(stubs: seq<Stub>, extra: Stub, command: string, args: seq<string>)
    requires FirstStub(stubs, command, args) >= 0
    ensures FirstStub(stubs + [extra], command, args) == FirstStub(stubs, command, args)
    ensures HelperEnv(stubs + [extra], command, args) == HelperEnv(stubs, command, args)
  {
    assert (stubs + [extra])[..|stubs|] == stubs;
  }

  /** The first matching stub, with a loop that stops at it. */
  method FindStub(stubs: seq<Stub>, command: string, args: seq<string>) returns (i: int)
    ensures i == FirstStub(stubs, command, args)
  {
    i := 0;
    while i < |stubs|
      invariant 0 <= i <= |stubs|
      invariant FirstStub(stubs[..i], command, args) < 0
    {
      assert stubs[..i + 1][..i] == stubs[..i];
      var matched := ArgsMatch(args, stubs[i].args);
      if (HasSuffix(command, stubs[i].command) || command == stubs[i].command) && matched {
        FirstStubPrefix(stubs, i + 1, command, args);
        return i;
      }
      i := i + 1;
    }
    assert stubs[..i] == stubs;
    return -1;
  }

  /** The first match within a prefix is the first match overall. */
  lemma FirstStubPrefix(stubs: seq<Stub>, n: nat, command: string, args: seq<string>)
    requires n <= |stubs|
    requires FirstStub(stubs[..n], command, args) >= 0
    ensures FirstStub(stubs, command, args) == FirstStub(stubs[..n], command, args)
  {
    var i := FirstStub(stubs[..n], command, args);
    var j := FirstStub(stubs, command, args);
    assert stubs[..n][i] == stubs[i];
    assert forall k :: 0 <= k < i ==> stubs[..n][k] == stubs[k];
  }

  /** argsMatch: equal lengths and equal elements. */
  method ArgsMatch(actual: seq<string>, expected: seq<string>) returns (b: bool)
    ensures b <==> actual == expected
  {
    if |actual| != |expected| {
      return false;
    }
    for i := 0 to |actual|
      invariant actual[..i] == expected[..i]
    {
      if actual[i] != expected[i] {
        return false;
      }
      assert actual[..i + 1] == actual[..i] + [actual[i]];
      assert expected[..i + 1] == expected[..i] + [expected[i]];
    }
    assert actual[..|actual|] == actual && expected[..|expected|] == expected;
    return true;
  }

  /** The response a stub gives, as the helper environment. */
  method ResponseEnv(stubs: seq<Stub>, command: string, args: seq<string>) returns (env: seq<string>)
    ensures env == HelperEnv(stubs, command, args)
  {
    env := ["GO_TEST_HELPER_PROCESS=1"];
    var i := FindStub(stubs, command, args);
    if i >= 0 {
      env := env + ["TEST_STDOUT=" + stubs[i].stdout];
      env := env + ["TEST_STDERR=" + stubs[i].stderr];
      env := env + ["TEST_EXIT_CODE=" + Itoa(stubs[i].exitCode)];
    }
  }

  const DevicesArgs: seq<string> := ["devices", "-l"]

  /** The header line of `adb devices -l`. */
  const DevicesHeader: string := "List of devices attached"
  /**
   * The line `adb devices -l` prints for a ready device: the serial, a tab, the state and the
   * four properties, blank-separated.
   */
  function ListingLine(serial: string, product: string, model: string, deviceType: string,
                       transportID: string): string
  {
    serial + "\t" + Join(["device", "product:" + product, "model:" + model, "device:" + deviceType,
                          "transport_id:" + transportID], " ")
  }

  /** The listing lines of the fixtures' emulator and Wi-Fi device. */
  const EmulatorListing: string :=
    ListingLine("emulator-5554", "sdk_gphone64_x86_64", "sdk_gphone64_x86_64", "generic_x86_64", "1")
  const WiFiListing: string := ListingLine("192.168.1.100:5555", "OnePlus7Pro", "GM1913", "OnePlus7Pro", "2")

  const EmptyDevicesOutput: string := DevicesHeader + "\n"
  const SingleDeviceOutput: string := DevicesHeader + "\n" + EmulatorListing + "\n"
  const MultipleDevicesOutput: string := DevicesHeader + "\n" + EmulatorListing + "\n" + WiFiListing + "\n"

  /** The adb arguments of a shell command on one device. */
  function ShellArgs(serial: string, shellCommand: seq<string>): (args: seq<string>)
    ensures args == Adb.DeviceArgs(serial, ["shell"] + shellCommand)
  {
    ["-s", serial, "shell"] + shellCommand
  }

  /** GenericExecFaker: the stub table and the log of executed commands. */
  class GenericExecFaker {
    var stubs: seq<Stub>
    var executedCommands: seq<TestHelpers.ExecutionRecord>

    constructor ()
      ensures stubs == [] && executedCommands == []
    {
      stubs := [];
      executedCommands := [];
    }

    /** AddStub: one more stub at the end. */
    method AddStub(command: string, args: seq<string>, stdout: string, stderr: string, exitCode: int)
      modifies this
      ensures stubs == old(stubs) + [Stub(command, args, stdout, stderr, exitCode)]
      ensures executedCommands == old(executedCommands)
    {
      stubs := stubs + [Stub(command, args, stdout, stderr, exitCode)];
    }

    /**
     * FakeExecCommand: logs the call, then answers it from the first matching stub. The
     * helper process's arguments and environment are the result.
     */
    method FakeExecCommand(command: string, args: seq<string>) returns (cs: seq<string>, env: seq<string>)
      modifies this
      ensures executedCommands == old(executedCommands) + [TestHelpers.ExecutionRecord(command, args)]
      ensures stubs == old(stubs)
      ensures cs == HelperArgs(command, args)
      ensures env == HelperEnv(stubs, command, args)
    {
      executedCommands := executedCommands + [TestHelpers.ExecutionRecord(command, args)];
      cs := ["-test.run=TestHelperProcess", "--", command] + args;
      env := ResponseEnv(stubs, command, args);
    }

    /** FindExecutedCommand: the first logged call whose command ends with the suffix and whose arguments fit. */
    method FindExecutedCommand(commandSuffix: string, args: seq<string>) returns (r: Option<TestHelpers.ExecutionRecord>)
      ensures r == FirstExecuted(executedCommands, commandSuffix, args)
    {
      var i := 0;
      while i < |executedCommands|
        invariant 0 <= i <= |executedCommands|
        invariant FirstExecuted(executedCommands[..i], commandSuffix, args).None?
      {
        assert executedCommands[..i + 1][..i] == executedCommands[..i];
        var record := executedCommands[i];
        if HasSuffix(record.command, commandSuffix) {
          var matched := ArgsMatch(record.args, args);
          if |args| == 0 || matched {
            FirstExecutedPrefix(executedCommands, i + 1, commandSuffix, args);
            return Some(record);
          }
        }
        i := i + 1;
      }
      assert executedCommands[..i] == executedCommands;
      return None;
    }

    /** StubADBDevicesCommand: `adb devices -l` answers with the given listing. */
    method StubADBDevicesCommand(adbPath: string, response: string)
      modifies this
      ensures stubs == old(stubs) + [Stub(adbPath, DevicesArgs, response, "", 0)]
      ensures executedCommands == old(executedCommands)
    {
      AddStub(adbPath, ["devices", "-l"], response, "", 0);
    }

    /** StubADBShellCommand: a shell command on one device. */
    method StubADBShellCommand(adbPath: string, deviceSerial: string, shellCommand: seq<string>,
                               stdout: string, stderr: string, exitCode: int)
      modifies this
      ensures stubs == old(stubs) + [Stub(adbPath, ShellArgs(deviceSerial, shellCommand), stdout, stderr, exitCode)]
      ensures executedCommands == old(executedCommands)
    {
      var args := ["-s", deviceSerial, "shell"];
      args := args + shellCommand;
      AddStub(adbPath, args, stdout, stderr, exitCode);
    }

    method StubSingleDevice(adbPath: string)
      modifies this
      ensures stubs == old(stubs) + [Stub(adbPath, DevicesArgs, SingleDeviceOutput, "", 0)]
      ensures executedCommands == old(executedCommands)
    {
      StubADBDevicesCommand(adbPath, SingleDeviceOutput);
    }

    method StubMultipleDevices(adbPath: string)
      modifies this
      ensures stubs == old(stubs) + [Stub(adbPath, DevicesArgs, MultipleDevicesOutput, "", 0)]
      ensures executedCommands == old(executedCommands)
    {
      StubADBDevicesCommand(adbPath, MultipleDevicesOutput);
    }

    method StubEmptyDevices(adbPath: string)
      modifies this
      ensures stubs == old(stubs) + [Stub(adbPath, DevicesArgs, EmptyDevicesOutput, "", 0)]
      ensures executedCommands == old(executedCommands)
    {
      StubADBDevicesCommand(adbPath, EmptyDevicesOutput);
    }

    /** StubADBError: `adb devices -l` fails with exit code 1. */
    method StubADBError(adbPath: string)
      modifies this
      ensures stubs == old(stubs) + [Stub(adbPath, DevicesArgs, "", "adb: command not found", 1)]
      ensures executedCommands == old(executedCommands)
    {
      AddStub(adbPath, ["devices", "-l"], "", "adb: command not found", 1);
    }

    method StubDPIGet(adbPath: string, deviceSerial: string, response: string)
      modifies this
      ensures stubs == old(stubs) + [Stub(adbPath, ShellArgs(deviceSerial, ["wm", "density"]), response, "", 0)]
      ensures executedCommands == old(executedCommands)
    {
      StubADBShellCommand(adbPath, deviceSerial, ["wm", "density"], response, "", 0);
    }

    method StubDPISet(adbPath: string, deviceSerial: string, dpiValue: string, exitCode: int)
      modifies this
      ensures stubs == old(stubs) + [Stub(adbPath, ShellArgs(deviceSerial, ["wm", "density", dpiValue]), "", "", exitCode)]
      ensures executedCommands == old(executedCommands)
    {
      StubADBShellCommand(adbPath, deviceSerial, ["wm", "density", dpiValue], "", "", exitCode);
    }

    method StubScreenSizeGet(adbPath: string, deviceSerial: string, response: string)
      modifies this
      ensures stubs == old(stubs) + [Stub(adbPath, ShellArgs(deviceSerial, ["wm", "size"]), response, "", 0)]
      ensures executedCommands == old(executedCommands)
    {
      StubADBShellCommand(adbPath, deviceSerial, ["wm", "size"], response, "", 0);
    }

    method StubScreenSizeSet(adbPath: string, deviceSerial: string, sizeValue: string, exitCode: int)
      modifies this
      ensures stubs == old(stubs) + [Stub(adbPath, ShellArgs(deviceSerial, ["wm", "size", sizeValue]), "", "", exitCode)]
      ensures executedCommands == old(executedCommands)
    {
      StubADBShellCommand(adbPath, deviceSerial, ["wm", "size", sizeValue], "", "", exitCode);
    }

    method StubFontSizeGet(adbPath: string, deviceSerial: string, response: string)
      modifies this
      ensures stubs == old(stubs)
        + [Stub(adbPath, ShellArgs(deviceSerial, ["settings", "get", "system", "font_scale"]), response, "", 0)]
      ensures executedCommands == old(executedCommands)
    {
      StubADBShellCommand(adbPath, deviceSerial, ["settings", "get", "system", "font_scale"], response, "", 0);
    }

    method StubFontSizeSet(adbPath: string, deviceSerial: string, scaleValue: string, exitCode: int)
      modifies this
      ensures stubs == old(stubs)
        + [Stub(adbPath, ShellArgs(deviceSerial, ["settings", "put", "system", "font_scale", scaleValue]), "", "", exitCode)]
      ensures executedCommands == old(executedCommands)
    {
      StubADBShellCommand(adbPath, deviceSerial, ["settings", "put", "system", "font_scale", scaleValue], "", "", exitCode);
    }
  }

  /** The first logged call whose command ends with the suffix and whose arguments fit (any, when none are given). */
  function FirstExecuted(records: seq<TestHelpers.ExecutionRecord>, commandSuffix: string, args: seq<string>)
    : (r: Option<TestHelpers.ExecutionRecord>)
    ensures r.Some? ==> (r.value in records && HasSuffix(r.value.command, commandSuffix)
      && (args == [] || r.value.args == args))
    ensures r.None? <==> forall k :: 0 <= k < |records| ==>
      !(HasSuffix(records[k].command, commandSuffix) && (args == [] || records[k].args == args))
  {
    if records == [] then None
    else
      var r := FirstExecuted(records[..|records| - 1], commandSuffix, args);
      var last := records[|records| - 1];
      if r.Some? then r
      else if HasSuffix(last.command, commandSuffix) && (args == [] || last.args == args) then Some(last)
      else None
  }

  /** The first fitting record within a prefix is the first overall. */
  lemma FirstExecutedPrefix(records: seq<TestHelpers.ExecutionRecord>, n: nat, commandSuffix: string, args: seq<string>)
    requires 1 <= n <= |records|
    requires FirstExecuted(records[..n - 1], commandSuffix, args).None?
    requires HasSuffix(records[n - 1].command, commandSuffix) && (args == [] || records[n - 1].args == args)
    ensures FirstExecuted(records, commandSuffix, args) == Some(records[n - 1])
    decreases |records|
  {
    if n < |records| {
      assert records[..|records| - 1][..n - 1] == records[..n - 1];
      FirstExecutedPrefix(records[..|records| - 1], n, commandSuffix, args);
    } else {
      assert records[..|records| - 1] == records[..n - 1];
    }
  }

  /**
   * A DPI set stubbed with StubDPISet answers exactly the adb call SetDPI makes for the same
   * device and value, whatever adb path prefix is used.
   */
  lemma DPISetStubAnswersSetDPI(adbPath: string, prefix: string, serial: string, dpi: int, runErr: Option<string>)
    ensures Matches(Stub(adbPath, ShellArgs(serial, ["wm", "density", Itoa(dpi)]), "", "", 0),
                    prefix + adbPath, Density.SetDPI(serial, dpi, runErr).1)
  {
    assert (prefix + adbPath)[|prefix + adbPath| - |adbPath|..] == adbPath;
  }

  /** ExecFaker (fake.go): the same table without an execution log. */
  class ExecFaker {
    var fakes: seq<Stub>

    constructor ()
      ensures fakes == []
    {
      fakes := [];
    }

    /** AddFake: one more fake at the end. */
    method AddFake(command: string, args: seq<string>, stdout: string, stderr: string, exitCode: int)
      modifies this
      ensures fakes == old(fakes) + [Stub(command, args, stdout, stderr, exitCode)]
    {
      fakes := fakes + [Stub(command, args, stdout, stderr, exitCode)];
    }

    /** FakeADBDevicesList: the same answer for the bare "adb" name and for the SDK path. */
    method FakeADBDevicesList(response: string)
      modifies this
      ensures fakes == old(fakes) + [Stub("adb", DevicesArgs, response, "", 0),
                                     Stub("/test/android/sdk/platform-tools/adb", DevicesArgs, response, "", 0)]
    {
      AddFake("adb", ["devices", "-l"], response, "", 0);
      AddFake("/test/android/sdk/platform-tools/adb", ["devices", "-l"], response, "", 0);
    }

    method FakeADBDevicesEmpty()
      modifies this
      ensures fakes == old(fakes) + [Stub("adb", DevicesArgs, EmptyDevicesOutput, "", 0),
                                     Stub("/test/android/sdk/platform-tools/adb", DevicesArgs, EmptyDevicesOutput, "", 0)]
    {
      FakeADBDevicesList(EmptyDevicesOutput);
    }

    method FakeADBDevicesSingle()
      modifies this
      ensures fakes == old(fakes) + [Stub("adb", DevicesArgs, SingleDeviceOutput, "", 0),
                                     Stub("/test/android/sdk/platform-tools/adb", DevicesArgs, SingleDeviceOutput, "", 0)]
    {
      FakeADBDevicesList(SingleDeviceOutput);
    }

    method FakeADBDevicesMultiple()
      modifies this
      ensures fakes == old(fakes) + [Stub("adb", DevicesArgs, MultipleDevicesOutput, "", 0),
                                     Stub("/test/android/sdk/platform-tools/adb", DevicesArgs, MultipleDevicesOutput, "", 0)]
    {
      FakeADBDevicesList(MultipleDevicesOutput);
    }

    /** FakeADBError: both names fail with exit code 1 and nothing on stdout. */
    method FakeADBError()
      modifies this
      ensures fakes == old(fakes) + [Stub("adb", DevicesArgs, "", "adb: command not found", 1),
                                     Stub("/test/android/sdk/platform-tools/adb", DevicesArgs, "", "adb: command not found", 1)]
    {
      AddFake("adb", ["devices", "-l"], "", "adb: command not found", 1);
      AddFake("/test/android/sdk/platform-tools/adb", ["devices", "-l"], "", "adb: command not found", 1);
    }

    /** FakeExecCommand: answers from the first matching fake and records nothing. */
    method FakeExecCommand(command: string, args: seq<string>) returns (cs: seq<string>, env: seq<string>)
      ensures cs == HelperArgs(command, args)
      ensures env == HelperEnv(fakes, command, args)
    {
      cs := ["-test.run=TestHelperProcess", "--", command] + args;
      env := ResponseEnv(fakes, command, args);
    }
  }

  /**
   * Since "adb" is a suffix of the SDK path, the first of the two fakes FakeADBDevicesList
   * adds answers `adb devices -l` under either name.
   */
  lemma BareAdbFakeAnswersBoth(response: string)
    ensures var fs := [Stub("adb", DevicesArgs, response, "", 0),
                       Stub("/test/android/sdk/platform-tools/adb", DevicesArgs, response, "", 0)];
      FirstStub(fs, "adb", DevicesArgs) == 0
      && FirstStub(fs, "/test/android/sdk/platform-tools/adb", DevicesArgs) == 0
  {
    var fs := [Stub("adb", DevicesArgs, response, "", 0),
               Stub("/test/android/sdk/platform-tools/adb", DevicesArgs, response, "", 0)];
    var p := "/test/android/sdk/platform-tools/adb";
    assert p[|p| - 3..] == "adb";
    assert fs[..1][..0] == [];
    assert HasSuffix(p, "adb");
    assert Matches(fs[0], p, DevicesArgs);
    assert fs[..|fs| - 1] == [fs[0]];
  }
}
