/**
 * Names that depend on the platform, and the package specifier
 * (lib/setup.js: `isWindows` and the three ternaries on it, and the pip argument).
 * `platform` is the value of `os.platform()`.
 */
module Platform {
  import opened Wrappers

  /** `isWindows()`: the platform is exactly "win32". */
  predicate IsWindows(platform: string) {
    platform == "win32"
  }

  /** The interpreter name used when the `python` input is empty. */
  function DefaultPython(platform: string): (r: string)
    ensures r == "python" <==> IsWindows(platform)
    ensures r == "python3" <==> !IsWindows(platform)
  {
    if IsWindows(platform) then "python" else "python3"
  }

  /** The directory of a virtual environment that holds its executables. */
  function VenvBinDir(platform: string): (r: string)
    ensures r == "Scripts" <==> IsWindows(platform)
    ensures r == "bin" <==> !IsWindows(platform)
  {
    if IsWindows(platform) then "Scripts" else "bin"
  }

  /** The file name of the SAM CLI executable. */
  function SamExecutable(platform: string): (r: string)
    ensures r == "sam.exe" <==> IsWindows(platform)
    ensures r == "sam" <==> !IsWindows(platform)
  {
    if IsWindows(platform) then "sam.exe" else "sam"
  }

  /** All three names are decided by the one platform test: they switch together. */
  lemma NamesSwitchTogether(platform: string)
    ensures (VenvBinDir(platform) == "Scripts") == (SamExecutable(platform) == "sam.exe")
    ensures (SamExecutable(platform) == "sam.exe") == (DefaultPython(platform) == "python")
  {
  }

  const PackageName: string := "aws-sam-cli"
  const SpecSeparator: string := "=="

  /** The pip requirement `aws-sam-cli==<version>`: the version is always pinned by `==`. */
  function PackageSpec(version: string): (r: string)
    ensures |r| == |PackageName| + 2 + |version|
    ensures r[..|PackageName|] == PackageName
    ensures r[|PackageName|..|PackageName| + 2] == SpecSeparator
    ensures r[|PackageName| + 2..] == version
  {
    PackageName + SpecSeparator + version
  }

  /** Reads a requirement back: the version after `aws-sam-cli==`, if the requirement has that form. */
  function SpecVersion(spec: string): (v: Option<string>)
    ensures v.Some? ==> |spec| >= |PackageName| + 2 && spec[..|PackageName| + 2] == PackageName + SpecSeparator
  {
    var head := PackageName + SpecSeparator;
    if |spec| >= |head| && spec[..|head|] == head then Some(spec[|head|..]) else None
  }

  /** Reading a built requirement back gives the version it was built from. */
  lemma SpecRoundTrip(version: string)
    ensures SpecVersion(PackageSpec(version)) == Some(version)
  {
    var spec := PackageSpec(version);
    assert spec[..|PackageName| + 2] == PackageName + SpecSeparator;
  }

  /** Building from a read-back version reproduces the requirement. */
  lemma SpecRoundTripBack(spec: string)
    requires SpecVersion(spec).Some?
    ensures PackageSpec(SpecVersion(spec).value) == spec
  {
    var head := PackageName + SpecSeparator;
    assert spec == spec[..|head|] + spec[|head|..];
  }

  /** Whatever the version, the requirement is never the bare package name. */
  lemma PackageSpecNeverBare(version: string)
    ensures PackageSpec(version) != PackageName
  {
  }
}
