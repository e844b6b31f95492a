/*
 * Display density (internal/commands/dpi.go): parsing `wm density` and setting a new value.
 * Each adb call is an oracle; the methods also return the arguments they pass to adb.
 */
module Density {
  import opened Wrappers
  import opened Text
  import Adb

  datatype DPIInfo = DPIInfo(physical: int, override: int, current: int)

  /** The integer in the third field of a line, if there is one. */
  function ThirdFieldInt(line: string): Option<int> {
    var parts := Fields(line);
    if |parts| >= 3 then Atoi(parts[2]) else None
  }

  /** One line of `wm density`: (physical, override) so far, updated by a parsable value. */
  function DensityStep(acc: (int, int), line: string): (r: (int, int))
    ensures r.0 == acc.0 || (Contains(line, "Physical density:") && Some(r.0) == ThirdFieldInt(line))
    ensures r.1 == acc.1 || (Contains(line, "Override density:") && Some(r.1) == ThirdFieldInt(line))
  {
    if Contains(line, "Override density:") then
      (if ThirdFieldInt(line).Some? then (acc.0, ThirdFieldInt(line).value) else acc)
    else if Contains(line, "Physical density:") then
      (if ThirdFieldInt(line).Some? then (ThirdFieldInt(line).value, acc.1) else acc)
    else acc
  }

  function ScanDensity(lines: seq<string>): (int, int) {
    if lines == [] then (0, 0) else DensityStep(ScanDensity(lines[..|lines| - 1]), lines[|lines| - 1])
  }

  /** The DPI information an output yields; a physical density of 0 means nothing was parsed. */
  function DpiFromOutput(output: string): (r: Result<DPIInfo>)
    ensures r.Err? <==> ScanDensity(OutputLines(output)).0 == 0
    ensures r.Err? ==> r.error == "could not parse DPI from output: " + output
    ensures r.Ok? ==> (r.value.physical != 0
      && r.value.physical == ScanDensity(OutputLines(output)).0
      && r.value.override == ScanDensity(OutputLines(output)).1
      && (r.value.override > 0 ==> r.value.current == r.value.override)
      && (r.value.override <= 0 ==> r.value.current == r.value.physical))
  {
    var acc := ScanDensity(OutputLines(output));
    if acc.0 == 0 then Err("could not parse DPI from output: " + output)
    else Ok(DPIInfo(acc.0, acc.1, if acc.1 > 0 then acc.1 else acc.0))
  }

  /** GetCurrentDPI: runs `wm density` and parses it line by line. */
  method GetCurrentDPI(serial: string, output: Result<string>) returns (r: Result<DPIInfo>, argv: seq<string>)
    ensures argv == Adb.DeviceArgs(serial, ["shell", "wm", "density"])
    ensures output.Err? ==> r == Err("failed to get current DPI: " + output.error)
    ensures output.Ok? ==> r == DpiFromOutput(output.value)
  {
    argv := Adb.DeviceArgs(serial, ["shell", "wm", "density"]);
    if output.Err? {
      return Err("failed to get current DPI: " + output.error), argv;
    }
    var lines := OutputLines(output.value);
    var physical, override := 0, 0;
    var i := 0;
    while i < |lines|
      invariant 0 <= i <= |lines|
      invariant (physical, override) == ScanDensity(lines[..i])
    {
      assert lines[..i + 1][..i] == lines[..i];
      var line := lines[i];
      if Contains(line, "Override density:") {
        var parts := Fields(line);
        if |parts| >= 3 {
          var dpi := Atoi(parts[2]);
          if dpi.Some? {
            override := dpi.value;
          }
        }
      } else if Contains(line, "Physical density:") {
        var parts := Fields(line);
        if |parts| >= 3 {
          var dpi := Atoi(parts[2]);
          if dpi.Some? {
            physical := dpi.value;
          }
        }
      }
      i := i + 1;
    }
    assert lines[..i] == lines;
    var current := if override > 0 then override else physical;
    if physical == 0 {
      return Err("could not parse DPI from output: " + output.value), argv;
    }
    return Ok(DPIInfo(physical, override, current)), argv;
  }

  /** SetDPI: `wm density <n>`; a failure names the requested value, a success is reported with the device. */
  function SetDPI(serial: string, dpi: int, runErr: Option<string>): (r: (Option<string>, seq<string>, seq<string>))
    ensures r.1 == Adb.DeviceArgs(serial, ["shell", "wm", "density", Itoa(dpi)])
    ensures r.0.Some? <==> runErr.Some?
    ensures runErr.Some? ==> HasPrefix(r.0.value, "failed to set DPI to " + Itoa(dpi)) && r.2 == []
    ensures runErr.None? ==> r.2 == ["DPI changed to " + Itoa(dpi) + " on device " + serial]
  {
    var argv := Adb.DeviceArgs(serial, ["shell", "wm", "density", Itoa(dpi)]);
    if runErr.Some? then (Some("failed to set DPI to " + Itoa(dpi) + ": " + runErr.value), argv, [])
    else (None, argv, ["DPI changed to " + Itoa(dpi) + " on device " + serial])
  }
}

/*
 * Screen size (internal/commands/screensize.go): parsing `wm size` and setting a new size.
 */
module ScreenSize {
  import opened Wrappers
  import opened Text
  import Adb

  datatype ScreenSizeInfo = ScreenSizeInfo(physical: string, current: string)

  function ThirdField(line: string): Option<string> {
    var parts := Fields(line);
    if |parts| >= 3 then Some(parts[2]) else None
  }

  /** One line of `wm size`: (physical, override) so far. */
  function SizeStep(acc: (string, string), line: string): (string, string) {
    if Contains(line, "Override size:") then
      (if ThirdField(line).Some? then (acc.0, ThirdField(line).value) else acc)
    else if Contains(line, "Physical size:") then
      (if ThirdField(line).Some? then (ThirdField(line).value, acc.1) else acc)
    else acc
  }

  function ScanSize(lines: seq<string>): (string, string) {
    if lines == [] then ("", "") else SizeStep(ScanSize(lines[..|lines| - 1]), lines[|lines| - 1])
  }

  /** The screen size an output yields: the override if any, else the physical size, which must exist. */
  function SizeFromOutput(output: string): (r: Result<ScreenSizeInfo>)
    ensures r.Err? <==> ScanSize(OutputLines(output)).0 == ""
    ensures r.Err? ==> r.error == "could not parse screen size from output: " + output
    ensures r.Ok? ==> (r.value.physical != "" && r.value.current != ""
      && r.value.physical == ScanSize(OutputLines(output)).0
      && (ScanSize(OutputLines(output)).1 != "" ==> r.value.current == ScanSize(OutputLines(output)).1)
      && (ScanSize(OutputLines(output)).1 == "" ==> r.value.current == r.value.physical))
  {
    var acc := ScanSize(OutputLines(output));
    if acc.0 == "" then Err("could not parse screen size from output: " + output)
    else Ok(ScreenSizeInfo(acc.0, if acc.1 == "" then acc.0 else acc.1))
  }

  /** Every size taken from a line is that line's third field, so it never contains whitespace. */
  lemma {:induction false} ScanSizeNoSpace(lines: seq<string>)
    ensures NoSpace(ScanSize(lines).0) && NoSpace(ScanSize(lines).1)
  {
    if lines != [] {
      ScanSizeNoSpace(lines[..|lines| - 1]);
    }
  }

  /** GetCurrentScreenSize: runs `wm size` and parses it line by line. */
  method GetCurrentScreenSize(serial: string, output: Result<string>) returns (r: Result<ScreenSizeInfo>, argv: seq<string>)
    ensures argv == Adb.DeviceArgs(serial, ["shell", "wm", "size"])
    ensures output.Err? ==> r == Err("failed to get current screen size: " + output.error)
    ensures output.Ok? ==> r == SizeFromOutput(output.value)
  {
    argv := Adb.DeviceArgs(serial, ["shell", "wm", "size"]);
    if output.Err? {
      return Err("failed to get current screen size: " + output.error), argv;
    }
    var lines := OutputLines(output.value);
    var physical, current := "", "";
    var i := 0;
    while i < |lines|
      invariant 0 <= i <= |lines|
      invariant (physical, current) == ScanSize(lines[..i])
    {
      assert lines[..i + 1][..i] == lines[..i];
      var line := lines[i];
      if Contains(line, "Override size:") {
        var parts := Fields(line);
        if |parts| >= 3 {
          current := parts[2];
        }
      } else if Contains(line, "Physical size:") {
        var parts := Fields(line);
        if |parts| >= 3 {
          physical := parts[2];
        }
      }
      i := i + 1;
    }
    assert lines[..i] == lines;
    if current == "" {
      current := physical;
    }
    if physical == "" {
      return Err("could not parse screen size from output: " + output.value), argv;
    }
    return Ok(ScreenSizeInfo(physical, current)), argv;
  }

  /** A "WxH" value: exactly two 'x'-separated parts, both integers. */
  predicate ValidSize(size: string) {
    |Split(size, 'x')| == 2 && Atoi(Split(size, 'x')[0]).Some? && Atoi(Split(size, 'x')[1]).Some?
  }

  /** The validation error for a size, checked before anything runs. */
  function SizeError(size: string): (r: Option<string>)
    ensures r.None? <==> ValidSize(size)
  {
    var parts := Split(size, 'x');
    if |parts| != 2 then Some("invalid screen size format: " + size + " (expected format: 1080x1920)")
    else if Atoi(parts[0]).None? || Atoi(parts[1]).None? then
      Some("invalid screen size format: " + size + " (both width and height must be numbers)")
    else None
  }

  /** The validation loop shared by SetScreenSize and the screen-size setting handler. */
  method ValidateSize(size: string) returns (err: Option<string>)
    ensures err == SizeError(size)
  {
    var parts := Split(size, 'x');
    if |parts| != 2 {
      return Some("invalid screen size format: " + size + " (expected format: 1080x1920)");
    }
    var i := 0;
    while i < |parts|
      invariant 0 <= i <= |parts|
      invariant forall k :: 0 <= k < i ==> Atoi(parts[k]).Some?
    {
      if Atoi(parts[i]).None? {
        return Some("invalid screen size format: " + size + " (both width and height must be numbers)");
      }
      i := i + 1;
    }
    return None;
  }

  /** SetScreenSize: a malformed size is rejected before `wm size` runs. */
  method SetScreenSize(serial: string, size: string, runErr: Option<string>)
    returns (err: Option<string>, calls: seq<seq<string>>, printed: seq<string>)
    ensures SizeError(size).Some? ==> err == SizeError(size) && calls == []
    ensures SizeError(size).None? ==> calls == [Adb.DeviceArgs(serial, ["shell", "wm", "size", size])]
    ensures SizeError(size).None? ==>
      err == (if runErr.Some? then Some("failed to set screen size to " + size + ": " + runErr.value) else None)
    ensures printed == if err.None? then ["Screen size changed to " + size + " on device " + serial] else []
  {
    printed := [];
    err := ValidateSize(size);
    if err.Some? {
      return err, [], printed;
    }
    calls := [Adb.DeviceArgs(serial, ["shell", "wm", "size", size])];
    if runErr.Some? {
      return Some("failed to set screen size to " + size + ": " + runErr.value), calls, printed;
    }
    printed := ["Screen size changed to " + size + " on device " + serial];
  }
}

/*
 * The setting handlers (internal/commands/setting.go): one per setting type, each with
 * GetInfo, ValidateInput and SetValue. Font scales are floating point: whether a value
 * parses, the formatted current/default scales and the formatted new scale are oracles.
 */
module Setting {
  import opened Wrappers
  import opened Text
  import Adb
  import Density
  import ScreenSize

  const SettingTypeDPI: string := "dpi"
  const SettingTypeFontSize: string := "fontsize"
  const SettingTypeScreenSize: string := "screensize"

  datatype SettingInfo = SettingInfo(settingType: string, displayName: string, current: string, dflt: string, inputPrompt: string)

  datatype Handler = DpiHandler | FontSizeHandler | ScreenSizeHandler

  function HandlerType(h: Handler): string {
    match h
    case DpiHandler => SettingTypeDPI
    case FontSizeHandler => SettingTypeFontSize
    case ScreenSizeHandler => SettingTypeScreenSize
  }

  /** GetSettingHandler: a handler for the three setting types and none for any other string. */
  function GetSettingHandler(settingType: string): (h: Option<Handler>)
    ensures h.Some? <==> settingType in {SettingTypeDPI, SettingTypeFontSize, SettingTypeScreenSize}
    ensures h.Some? ==> HandlerType(h.value) == settingType
  {
    if settingType == SettingTypeDPI then Some(DpiHandler)
    else if settingType == SettingTypeFontSize then Some(FontSizeHandler)
    else if settingType == SettingTypeScreenSize then Some(ScreenSizeHandler)
    else None
  }

  /** Each handler is found again under its own type string. */
  lemma HandlerRoundTrip(h: Handler)
    ensures GetSettingHandler(HandlerType(h)) == Some(h)
  {
  }

  /**
   * GetInfo. `output` is the shell output of `wm density` or `wm size`; `fontScale` is the
   * formatted (current, default) font scale or the font-size query's error.
   */
  function GetInfo(h: Handler, output: Result<string>, fontScale: Result<(string, string)>): (r: Result<SettingInfo>)
    ensures r.Ok? ==> r.value.settingType == HandlerType(h)
    ensures h == DpiHandler && output.Err? ==> r == Err("failed to get current DPI: " + output.error)
    ensures h == DpiHandler && output.Ok? ==> (r.Ok? <==> Density.DpiFromOutput(output.value).Ok?)
    ensures h == DpiHandler && output.Ok? && Density.DpiFromOutput(output.value).Err? ==>
      r == Err(Density.DpiFromOutput(output.value).error)
    ensures h == ScreenSizeHandler && output.Err? ==> r == Err("failed to get current screen size: " + output.error)
    ensures h == ScreenSizeHandler && output.Ok? ==> (r.Ok? <==> ScreenSize.SizeFromOutput(output.value).Ok?)
    ensures h == ScreenSizeHandler && output.Ok? && ScreenSize.SizeFromOutput(output.value).Err? ==>
      r == Err(ScreenSize.SizeFromOutput(output.value).error)
    ensures h == FontSizeHandler && fontScale.Err? ==> r == Err(fontScale.error)
    ensures h == FontSizeHandler && fontScale.Ok? ==>
      r.Ok? && r.value.current == fontScale.value.0 && r.value.dflt == fontScale.value.1
  {
    match h
    case DpiHandler =>
      if output.Err? then Err("failed to get current DPI: " + output.error)
      else
        var info := Density.DpiFromOutput(output.value);
        if info.Err? then Err(info.error)
        else Ok(SettingInfo(SettingTypeDPI, "DPI", Itoa(info.value.current), Itoa(info.value.physical), "Enter new DPI:"))
    case FontSizeHandler =>
      if fontScale.Err? then Err(fontScale.error)
      else Ok(SettingInfo(SettingTypeFontSize, "Font Size", fontScale.value.0, fontScale.value.1,
                          "Enter new font size (e.g., 1.2):"))
    case ScreenSizeHandler =>
      if output.Err? then Err("failed to get current screen size: " + output.error)
      else
        var info := ScreenSize.SizeFromOutput(output.value);
        if info.Err? then Err(info.error)
        else Ok(SettingInfo(SettingTypeScreenSize, "Screen Size", info.value.current, info.value.physical,
                            "Enter new screen size (e.g., 1080x1920):"))
  }

  /** The DPI entry shows the effective density as current and the physical one as default. */
  lemma DpiInfoMapping(output: string)
    requires Density.DpiFromOutput(output).Ok?
    ensures var info := Density.DpiFromOutput(output).value;
      GetInfo(DpiHandler, Ok(output), Err("")) ==
        Ok(SettingInfo("dpi", "DPI", Itoa(info.current), Itoa(info.physical), "Enter new DPI:"))
  {
  }

  /** The screen-size entry shows the override (or the physical size) as current and the physical size as default. */
  lemma ScreenSizeInfoMapping(output: string)
    requires ScreenSize.SizeFromOutput(output).Ok?
    ensures var info := ScreenSize.SizeFromOutput(output).value;
      GetInfo(ScreenSizeHandler, Ok(output), Err("")) ==
        Ok(SettingInfo("screensize", "Screen Size", info.current, info.physical,
                       "Enter new screen size (e.g., 1080x1920):"))
  {
  }

  /** The font-size entry shows the formatted current and default scales, whatever the `wm` output. */
  lemma FontSizeInfoMapping(output: Result<string>, current: string, dflt: string)
    ensures GetInfo(FontSizeHandler, output, Ok((current, dflt))) ==
      Ok(SettingInfo("fontsize", "Font Size", current, dflt, "Enter new font size (e.g., 1.2):"))
  {
  }

  /** ValidateInput; `floatParses` says whether strconv.ParseFloat accepts the value. */
  function ValidateInput(h: Handler, value: string, floatParses: bool): (err: Option<string>)
    ensures h == DpiHandler ==> (err.None? <==> Atoi(value).Some?)
    ensures h == FontSizeHandler ==> (err.None? <==> floatParses)
    ensures h == ScreenSizeHandler ==> (err.None? <==> ScreenSize.ValidSize(value))
  {
    match h
    case DpiHandler => if Atoi(value).None? then Some("invalid DPI value: " + value) else None
    case FontSizeHandler => if !floatParses then Some("invalid font size value: " + value) else None
    case ScreenSizeHandler => ScreenSize.SizeError(value)
  }

  /**
   * SetValue; `scaleStr` is the new font scale formatted with one decimal. Every handler
   * rejects what ValidateInput rejects, with the same message and before any adb call, and
   * reports a successful change with the value it set and the device.
   */
  method SetValue(h: Handler, serial: string, value: string, floatParses: bool, scaleStr: string, runErr: Option<string>)
    returns (err: Option<string>, calls: seq<seq<string>>, printed: seq<string>)
    ensures ValidateInput(h, value, floatParses).Some? ==> err == ValidateInput(h, value, floatParses) && calls == []
    ensures ValidateInput(h, value, floatParses).None? ==> |calls| == 1 && (err.Some? <==> runErr.Some?)
    ensures h == DpiHandler && ValidateInput(h, value, floatParses).None? ==>
      calls == [Adb.DeviceArgs(serial, ["shell", "wm", "density", Itoa(Atoi(value).value)])]
    ensures h == FontSizeHandler && ValidateInput(h, value, floatParses).None? ==>
      calls == [Adb.DeviceArgs(serial, ["shell", "settings", "put", "system", "font_scale", scaleStr])]
    ensures h == ScreenSizeHandler && ValidateInput(h, value, floatParses).None? ==>
      calls == [Adb.DeviceArgs(serial, ["shell", "wm", "size", value])]
    ensures err.Some? ==> printed == []
    ensures err.None? ==> printed == [ChangedLine(h, serial, value, scaleStr)]
  {
    match h
    case DpiHandler =>
      var dpi := Atoi(value);
      if dpi.None? {
        return Some("invalid DPI value: " + value), [], [];
      }
      var r := Density.SetDPI(serial, dpi.value, runErr);
      err, calls, printed := r.0, [r.1], r.2;
    case FontSizeHandler =>
      if !floatParses {
        return Some("invalid font size value: " + value), [], [];
      }
      calls := [Adb.DeviceArgs(serial, ["shell", "settings", "put", "system", "font_scale", scaleStr])];
      if runErr.Some? {
        return Some("failed to set font size to " + scaleStr + ": " + runErr.value), calls, [];
      }
      err, printed := None, ["Font size changed to " + scaleStr + " on device " + serial];
    case ScreenSizeHandler =>
      err, calls, printed := ScreenSize.SetScreenSize(serial, value, runErr);
  }

  /** The line a successful SetValue prints: the new value as it was set, and the device. */
  function ChangedLine(h: Handler, serial: string, value: string, scaleStr: string): string {
    match h
    case DpiHandler => "DPI changed to " + (if Atoi(value).Some? then Itoa(Atoi(value).value) else value) + " on device " + serial
    case FontSizeHandler => "Font size changed to " + scaleStr + " on device " + serial
    case ScreenSizeHandler => "Screen size changed to " + value + " on device " + serial
  }
}
