/*
 * Display helpers for device information (internal/display/formatting.go).
 */
module Display {
  /** User-facing names for the four ABI names adb reports; anything else is kept. */
  function NormalizeCPUArchitecture(arch: string): (r: string)
    ensures arch == "arm64-v8a" ==> r == "ARM64"
    ensures arch == "armeabi-v7a" ==> r == "ARM32"
    ensures arch == "x86_64" ==> r == "x64"
    ensures arch == "x86" ==> r == "x86"
    ensures arch !in {"arm64-v8a", "armeabi-v7a", "x86_64", "x86"} ==> r == arch
  {
    match arch
    case "arm64-v8a" => "ARM64"
    case "armeabi-v7a" => "ARM32"
    case "x86_64" => "x64"
    case "x86" => "x86"
    case _ => arch
  }

  /** Normalising twice is normalising once: every output is a fixed point. */
  lemma NormalizeIdempotent(arch: string)
    ensures NormalizeCPUArchitecture(NormalizeCPUArchitecture(arch)) == NormalizeCPUArchitecture(arch)
  {
    var r := NormalizeCPUArchitecture(arch);
    if arch in {"arm64-v8a", "armeabi-v7a", "x86_64", "x86"} {
      assert r in {"ARM64", "ARM32", "x64", "x86"};
      assert r !in {"arm64-v8a", "armeabi-v7a", "x86_64"};
    }
  }

  /** The extended line goes on its own indented line, and only when it is non-empty. */
  function FormatExtendedInfoWithIndent(mainInfo: string, extendedInfo: string): (r: string)
    ensures extendedInfo == "" ==> r == mainInfo
    ensures extendedInfo != "" ==> r == mainInfo + "\n    " + extendedInfo
  {
    if extendedInfo == "" then mainInfo else mainInfo + "\n    " + extendedInfo
  }
}
