/**
 * Locating the PLUX SDK (src/mobi_physio_api/platform_detection.py): the
 * directory is chosen from the operating system, the machine and the
 * Python version, on macOS by the first existing option of a fixed list,
 * and is then put at the front of the import search path.  What
 * `platform` reports and which paths exist are parameters.
 */
module PlatformDetection {
  import opened Wrappers
  import opened Text

  /** What `platform` reports: `system()`, `machine()`, `python_version()` and `architecture()[0]`. */
  datatype Host = Host(system: string, machine: string, pythonVersion: string, architecture: string)

  const SdkRoot := "PLUX-API-Python3"

  function Min(a: int, b: int): int {
    if a <= b then a else b
  }

  /** A directory under the SDK root. */
  function SdkPath(option: string): string {
    SdkRoot + "/" + option
  }

  /** `"".join(version.split(".")[:2])`: major and minor version run together. */
  function VersionTag(version: string): (r: string)
    ensures '.' !in r
    ensures '.' !in version ==> r == version
  {
    var parts := Split(version, '.');
    ConcatAvoids(parts[..Min(2, |parts|)], '.');
    if '.' !in version then
      SplitNoSep(version, '.');
      assert parts[..Min(2, |parts|)] == [version];
      assert Concat([version]) == version + Concat([]);
      Concat(parts[..Min(2, |parts|)])
    else
      Concat(parts[..Min(2, |parts|)])
  }

  /** Running together pieces that avoid a character avoids it too. */
  lemma {:induction false} ConcatAvoids(parts: seq<string>, c: char)
    requires forall k :: 0 <= k < |parts| ==> c !in parts[k]
    ensures c !in Concat(parts)
    decreases |parts|
  {
    if parts != [] {
      ConcatAvoids(parts[1..], c);
    }
  }

  /** The tag of `3.12` and of `3.12.4` is `312`: the micro part is dropped. */
  lemma VersionTagOfRelease(major: string, minor: string, rest: string)
    requires '.' !in major && '.' !in minor
    requires rest == [] || rest[0] == '.'
    ensures VersionTag(major + "." + minor + rest) == major + minor
  {
    SplitAtFirst(major, minor + rest, '.');
    assert major + "." + minor + rest == major + ['.'] + (minor + rest);
    if rest == [] {
      SplitNoSep(minor, '.');
      assert minor + rest == minor;
    } else {
      SplitAtFirst(minor, rest[1..], '.');
      assert minor + rest == minor + ['.'] + rest[1..];
    }
    var parts := Split(major + "." + minor + rest, '.');
    assert parts[..2] == [major, minor];
    assert Concat([minor]) == minor;
  }

  /** `architecture()[0][:2]`: `64bit` gives `64`. */
  function ArchTag(architecture: string): (r: string)
    ensures |r| == Min(2, |architecture|) && StartsWith(architecture, r)
  {
    architecture[..Min(2, |architecture|)]
  }

  /** The Apple Silicon options, the running version's first. */
  function M1Options(version: string): seq<string> {
    ["M1_" + version, "M1_312", "M1_311", "M1_310", "M1_39", "M1_37"]
  }

  /** The Intel Mac options, the running version's first. */
  function IntelOptions(version: string): seq<string> {
    ["MacOS/Intel" + version, "MacOS/Intel310", "MacOS/Intel39", "MacOS/Intel38", "MacOS/Intel37"]
  }

  function MacOsOptions(host: Host): seq<string> {
    if host.machine == "arm64" then M1Options(VersionTag(host.pythonVersion))
    else IntelOptions(VersionTag(host.pythonVersion))
  }

  /** The first option whose directory under the SDK root exists. */
  function FirstExisting(options: seq<string>, present: set<string>): (r: Option<string>)
    ensures r.Some? <==> exists i :: 0 <= i < |options| && SdkPath(options[i]) in present
    ensures r.Some? ==> exists i :: 0 <= i < |options| && options[i] == r.value && SdkPath(options[i]) in present
                          && forall j :: 0 <= j < i ==> SdkPath(options[j]) !in present
    decreases |options|
  {
    if options == [] then None
    else if SdkPath(options[0]) in present then Some(options[0])
    else
      var r := FirstExisting(options[1..], present);
      assert forall i :: 1 <= i < |options| ==> options[i] == options[1..][i - 1];
      if r.Some? then
        var i :| 0 <= i < |options[1..]| && options[1..][i] == r.value && SdkPath(options[1..][i]) in present
                  && forall j :: 0 <= j < i ==> SdkPath(options[1..][j]) !in present;
        assert options[i + 1] == r.value;
        r
      else r
  }

  function NoMacSdkMessage(host: Host): string {
    "No compatible PLUX SDK found for macOS " + host.machine + " Python " + VersionTag(host.pythonVersion)
  }

  /** `_get_macos_path`: the first existing option's path, or an error when none exists. */
  function MacOsPath(host: Host, present: set<string>): (r: Result<string>)
    ensures r.Ok? <==> exists i :: 0 <= i < |MacOsOptions(host)| && SdkPath(MacOsOptions(host)[i]) in present
    ensures r.Ok? ==> r.value in present
    ensures r.Err? ==> r.error == RuntimeError(NoMacSdkMessage(host))
  {
    match FirstExisting(MacOsOptions(host), present)
    case Some(option) => Ok(SdkPath(option))
    case None => Err(RuntimeError(NoMacSdkMessage(host)))
  }

  /** `_get_windows_path`: `Win<arch>_<version>` under the SDK root, existing or not. */
  function WindowsPath(host: Host): (r: string)
    ensures StartsWith(r, SdkPath("Win" + ArchTag(host.architecture) + "_"))
    ensures '.' !in r[|SdkPath("Win" + ArchTag(host.architecture) + "_")|..]
  {
    SdkPath("Win" + ArchTag(host.architecture) + "_" + VersionTag(host.pythonVersion))
  }

  function UnsupportedMessage(system: string): string {
    "Unsupported platform: " + system
  }

  /** `get_plux_sdk_path`: by system, macOS searching, Linux and Windows fixed, others refused. */
  function GetPluxSdkPath(host: Host, present: set<string>): (r: Result<string>)
    ensures r.Ok? ==> StartsWith(r.value, SdkRoot + "/")
    ensures host.system == "Linux" ==> r == Ok("PLUX-API-Python3/Linux64")
    ensures host.system == "Windows" ==> r.Ok?
    ensures host.system == "Darwin" && r.Ok? ==> r.value in present
    ensures host.system !in {"Darwin", "Linux", "Windows"} ==> r == Err(RuntimeError(UnsupportedMessage(host.system)))
  {
    if host.system == "Darwin" then MacOsPath(host, present)
    else if host.system == "Linux" then Ok("PLUX-API-Python3/Linux64")
    else if host.system == "Windows" then Ok(WindowsPath(host))
    else Err(RuntimeError(UnsupportedMessage(host.system)))
  }

  /** Windows, 64-bit Python 3.12.4: `PLUX-API-Python3/Win64_312`. */
  lemma WindowsPathOf64BitPython312()
    ensures GetPluxSdkPath(Host("Windows", "AMD64", "3.12.4", "64bit"), {}) == Ok("PLUX-API-Python3/Win64_312")
  {
    var host := Host("Windows", "AMD64", "3.12.4", "64bit");
    VersionTagOf3124();
    assert ArchTag("64bit") == "64";
    assert "Win" + "64" + "_" + "312" == "Win64_312";
    assert WindowsPath(host) == SdkPath("Win64_312");
    var full := SdkPath("Win64_312");
    var literal := "PLUX-API-Python3/Win64_312";
    assert |full| == |literal| && forall k :: 0 <= k < |full| ==> full[k] == literal[k];
    assert full == literal;
  }

  lemma VersionTagOf3124()
    ensures VersionTag("3.12.4") == "312"
  {
    VersionTagOfRelease("3", "12", ".4");
    assert "3" + "." + "12" + ".4" == "3.12.4";
  }

  /** On Apple Silicon every path found is an `M1_` directory. */
  lemma MacArmPath(host: Host, present: set<string>)
    requires host.system == "Darwin" && host.machine == "arm64"
    requires GetPluxSdkPath(host, present).Ok?
    ensures StartsWith(GetPluxSdkPath(host, present).value, SdkPath("M1_"))
  {
    var version := VersionTag(host.pythonVersion);
    var option := FirstExisting(M1Options(version), present).value;
    assert option in M1Options(version);
    M1OptionsPrefix(version);
    SdkPathPrefix(option, "M1_");
  }

  /** On an Intel Mac every path found is a `MacOS/Intel` directory. */
  lemma MacIntelPath(host: Host, present: set<string>)
    requires host.system == "Darwin" && host.machine != "arm64"
    requires GetPluxSdkPath(host, present).Ok?
    ensures StartsWith(GetPluxSdkPath(host, present).value, SdkPath("MacOS/Intel"))
  {
    var version := VersionTag(host.pythonVersion);
    var option := FirstExisting(IntelOptions(version), present).value;
    assert option in IntelOptions(version);
    IntelOptionsPrefix(version);
    SdkPathPrefix(option, "MacOS/Intel");
  }

  lemma M1OptionsPrefix(version: string)
    ensures forall o :: o in M1Options(version) ==> StartsWith(o, "M1_")
  {
    var options := M1Options(version);
    assert StartsWith(options[0], "M1_");
  }

  lemma IntelOptionsPrefix(version: string)
    ensures forall o :: o in IntelOptions(version) ==> StartsWith(o, "MacOS/Intel")
  {
    var options := IntelOptions(version);
    assert StartsWith(options[0], "MacOS/Intel");
  }

  /** A prefix of a directory name stays a prefix under the SDK root. */
  lemma SdkPathPrefix(option: string, p: string)
    requires StartsWith(option, p)
    ensures StartsWith(SdkPath(option), SdkPath(p))
  {
    assert SdkPath(option)[..|SdkPath(p)|] == SdkRoot + "/" + option[..|p|];
  }

  /** The running version's own directory wins whenever it exists. */
  lemma MacPrefersRunningVersion(host: Host, present: set<string>)
    requires host.system == "Darwin"
    requires SdkPath(MacOsOptions(host)[0]) in present
    ensures GetPluxSdkPath(host, present) == Ok(SdkPath(MacOsOptions(host)[0]))
  {
  }

  /** With none of the options present, macOS is refused with the machine and version named. */
  lemma MacNothingFound(host: Host, present: set<string>)
    requires host.system == "Darwin"
    requires forall option :: option in MacOsOptions(host) ==> SdkPath(option) !in present
    ensures GetPluxSdkPath(host, present) == Err(RuntimeError(NoMacSdkMessage(host)))
  {
  }

  /** `base_path / relative`, written with a `/` between the two. */
  function JoinPath(base: string, relative: string): string {
    base + "/" + relative
  }

  /** Put `p` at the front unless it is already listed. */
  function InsertFront(entries: seq<string>, p: string): (r: seq<string>)
    ensures p in r
    ensures forall e :: e in entries ==> e in r
    ensures forall e :: e in r ==> e in entries || e == p
  {
    if p in entries then entries else [p] + entries
  }

  /** Inserting twice is inserting once, and a path not listed before is listed exactly once. */
  lemma InsertFrontOnce(entries: seq<string>, p: string)
    ensures InsertFront(InsertFront(entries, p), p) == InsertFront(entries, p)
    ensures p !in entries ==> multiset(InsertFront(entries, p))[p] == 1
  {
    if p !in entries {
      assert multiset(entries)[p] == 0;
    }
  }

  /** The interpreter's module search path, `sys.path`. */
  class SearchPath {
    var entries: seq<string>

    constructor(entries: seq<string>)
      ensures this.entries == entries
    {
      this.entries := entries;
    }
  }

  /**
   * `setup_plux_import_path`: resolve the SDK directory under `base`,
   * refuse it when it does not exist, and otherwise put it at the front of
   * the search path unless it is already there.
   */
  method SetupPluxImportPath(host: Host, present: set<string>, base: string, sysPath: SearchPath)
    returns (r: Result<string>)
    modifies sysPath
    ensures GetPluxSdkPath(host, present).Err? ==>
      r == Err(GetPluxSdkPath(host, present).error) && sysPath.entries == old(sysPath.entries)
    ensures GetPluxSdkPath(host, present).Ok? ==>
      var full := JoinPath(base, GetPluxSdkPath(host, present).value);
      if full in present then r == Ok(full) && sysPath.entries == InsertFront(old(sysPath.entries), full)
      else r == Err(RuntimeError("PLUX SDK not found at " + full)) && sysPath.entries == old(sysPath.entries)
  {
    var relative := GetPluxSdkPath(host, present);
    if relative.Err? {
      return Err(relative.error);
    }
    var full := JoinPath(base, relative.value);
    if full !in present {
      return Err(RuntimeError("PLUX SDK not found at " + full));
    }
    if full !in sysPath.entries {
      sysPath.entries := [full] + sysPath.entries;
    }
    return Ok(full);
  }
}
