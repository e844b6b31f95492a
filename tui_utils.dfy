/*
 * The terminal UI package's private copies of the path and message helpers
 * (internal/tui/utils.go); they behave exactly like those of module Core.
 */
module TuiUtils {
  import opened Wrappers
  import opened Text
  import Core

  /** Replaces a leading home directory by "~"; a failed home lookup keeps the path. */
  function ShortenHomePath(path: string, home: Result<string>): (r: string)
    ensures home.Ok? && HasPrefix(path, home.value) ==> |r| == |path| - |home.value| + 1 && r[0] == '~'
    ensures home.Ok? && HasPrefix(path, home.value) ==> home.value + r[1..] == path
    ensures !(home.Ok? && HasPrefix(path, home.value)) ==> r == path
  {
    if home.Err? then path
    else if HasPrefix(path, home.value) then
      var r := ReplaceFirst(path, home.value, "~");
      assert path == path[..|home.value|] + path[|home.value|..];
      r
    else path
  }

  /** The private copy agrees with Core.ShortenHomePath on every input. */
  lemma ShortenHomePathAgrees(path: string, home: Result<string>)
    ensures ShortenHomePath(path, home) == Core.ShortenHomePath(path, home)
  {
  }

  /** "<operation> failed on <serial>: <error>" */
  function FormatErrorMessage(operation: string, deviceSerial: string, err: string): (r: string)
    ensures r == Core.FormatErrorMessage(operation, deviceSerial, err)
  {
    operation + " failed on " + deviceSerial + ": " + err
  }

  /** The details line is present only when details are given. */
  function FormatSuccessMessage(operation: string, deviceSerial: string, details: string): (r: string)
    ensures r == Core.FormatSuccessMessage(operation, deviceSerial, details)
    ensures details != "" ==> HasSuffix(r, "\n" + details)
  {
    if details != "" then operation + " completed on " + deviceSerial + "\n" + details
    else operation + " completed on " + deviceSerial
  }
}
