/** `PatchLibs` of builder/macos.py: choosing the prebuilt boost library
    directory for the running macOS version, then patching the checked-in
    Blender libraries with a fixed list of shell commands whose exit codes
    are ignored. */
module MacPatch {
  import opened Strings
  import opened Paths
  import opened Host

  /** `mac_version_names`. */
  const MacVersionNames: map<string, string> :=
    map["10.9" := "mavericks", "10.8" := "mountain_lion", "10.6" := "snow_leopard"]

  /** The name tried when the running version has no usable library. */
  const FallbackVersion: string := "10.9"

  /** `'.'.join(version.split('.')[0:2])`: the major and minor components. */
  function VersionKey(version: string): string {
    var parts := Split(version, '.');
    Join(parts[..if |parts| < 2 then |parts| else 2], ".")
  }

  /** A full `major.minor.patch` version is cut to `major.minor`. */
  lemma VersionKeyDropsPatch(major: string, minor: string, rest: string)
    requires '.' !in major && '.' !in minor
    ensures VersionKey(major + "." + minor + "." + rest) == major + "." + minor
  {
    var v := major + "." + minor + "." + rest;
    assert v == major + ['.'] + (minor + ['.'] + rest);
    SplitAtFirst(major, '.', minor + ['.'] + rest);
    SplitAtFirst(minor, '.', rest);
    var parts := [major] + ([minor] + Split(rest, '.'));
    assert Split(v, '.') == parts;
    assert parts[..2] == [major, minor];
    JoinCons(major, [minor], ".");
  }

  /** A `major.minor` version is its own key. */
  lemma VersionKeyKeepsMinor(major: string, minor: string)
    requires '.' !in major && '.' !in minor
    ensures VersionKey(major + "." + minor) == major + "." + minor
  {
    var v := major + "." + minor;
    assert v == major + ['.'] + minor;
    SplitAtFirst(major, '.', minor);
    SplitNoSep(minor, '.');
    assert Split(v, '.') == [major] + [minor] == [major, minor];
    assert [major, minor][..2] == [major, minor];
    JoinCons(major, [minor], ".");
    assert Join([minor], ".") == minor;
  }

  /** A version without a separator (the empty string off macOS) is its
      own key. */
  lemma VersionKeyMajorOnly(major: string)
    requires '.' !in major
    ensures VersionKey(major) == major
  {
    SplitNoSep(major, '.');
  }

  /** `os.path.join(kdrive, 'boost', 'boost_1_61_0')`. */
  function BoostRoot(kdrive: string): string {
    PathJoin3(kdrive, "boost", "boost_1_61_0")
  }

  /** `os.path.join(boost_root, 'lib', '%s_x64' % mac_name)`; a missing
      name is formatted as `None`. */
  function BoostLib(kdrive: string, name: Option<string>): string {
    var text := match name case Some(n) => n case None => "None";
    PathJoin3(BoostRoot(kdrive), "lib", text + "_x64")
  }

  /** Which boost library directory the build uses, or the directory whose
      absence stops it. */
  datatype BoostChoice = Chosen(name: string, lib: string) | Unavailable(lib: string)

  function ResolveBoostLib(kdrive: string, version: string, p: Proc): BoostChoice {
    var key := VersionKey(version);
    var name := if key in MacVersionNames then Some(MacVersionNames[key]) else None;
    var lib := BoostLib(kdrive, name);
    if name.None? || !Exists(p, lib) then
      var fallback := MacVersionNames[FallbackVersion];
      var lib' := BoostLib(kdrive, Some(fallback));
      if !Exists(p, lib') then Unavailable(lib') else Chosen(fallback, lib')
    else Chosen(name.value, lib)
  }

  /** The library of the running version is used when the version is
      known and its directory exists; otherwise the mavericks one when it
      exists; otherwise nothing, and the mavericks path is reported. A
      chosen directory always exists. */
  lemma ResolveBoostLibCases(kdrive: string, version: string, p: Proc)
    ensures var key := VersionKey(version);
      var fallback := BoostLib(kdrive, Some("mavericks"));
      var r := ResolveBoostLib(kdrive, version, p);
      && (key in MacVersionNames && Exists(p, BoostLib(kdrive, Some(MacVersionNames[key]))) ==>
            r == Chosen(MacVersionNames[key], BoostLib(kdrive, Some(MacVersionNames[key]))))
      && (!(key in MacVersionNames && Exists(p, BoostLib(kdrive, Some(MacVersionNames[key])))) ==>
            r == if Exists(p, fallback) then Chosen("mavericks", fallback) else Unavailable(fallback))
      && (r.Chosen? ==> Exists(p, r.lib) && r.name in MacVersionNames.Values)
  {
    var r := ResolveBoostLib(kdrive, version, p);
    assert MacVersionNames[FallbackVersion] == "mavericks";
    if r.Chosen? {
      var key := VersionKey(version);
      if key in MacVersionNames && Exists(p, BoostLib(kdrive, Some(MacVersionNames[key]))) {
        assert r.name == MacVersionNames[key];
      } else {
        assert r.name == MacVersionNames[FallbackVersion];
      }
    }
  }

  /** With a plain kdrive path the library lies in
      `kdrive/boost/boost_1_61_0/lib/<name>_x64`. */
  lemma BoostLibPlain(kdrive: string, name: string)
    requires kdrive != "" && !EndsWith(kdrive, "/")
    requires name == "" || name[0] != '/'
    ensures BoostLib(kdrive, Some(name)) == kdrive + "/" + "boost" + "/" + "boost_1_61_0" + "/" + "lib" + "/" + (name + "_x64")
  {
    var leaf := name + "_x64";
    assert leaf[0] != '/' by {
      if name == "" { assert leaf == "_x64"; } else { assert leaf[0] == name[0]; }
    }
    RelativeName(leaf);
    RootPlain(kdrive);
    var root := kdrive + "/" + "boost" + "/" + "boost_1_61_0";
    PlainEnd(kdrive + "/" + "boost", "boost_1_61_0");
    RelativeName("lib");
    PathJoin3Plain(root, "lib", leaf);
  }

  lemma RootPlain(kdrive: string)
    requires kdrive != "" && !EndsWith(kdrive, "/")
    ensures BoostRoot(kdrive) == kdrive + "/" + "boost" + "/" + "boost_1_61_0"
  {
    RelativeName("boost");
    RelativeName("boost_1_61_0");
    PathJoin3Plain(kdrive, "boost", "boost_1_61_0");
  }

  // ---------------------------------------------------------------------
  // The patch steps

  const SvnCheckout: string := "svn --non-interactive --trust-server-cert checkout --force "
  const SvnTrunk: string := "https://svn.blender.org/svnroot/bf-blender/trunk/lib/"
  const UniversalLib: string := "lib/darwin-9.x.universal"
  const Copy: string := "cp "

  /** `os.path.join(dir_source, 'blender-for-vray-libs', 'Darwin', 'pyport.h')`. */
  function PythonPatch(dirSource: string): string {
    PathJoin(PathJoin3(dirSource, "blender-for-vray-libs", "Darwin"), "pyport.h")
  }

  /** A forced, non-interactive checkout of one of Blender's prebuilt
      library trees. */
  function Checkout(tree: string, dest: string): (r: string)
    ensures StartsWith(r, SvnCheckout) && EndsWith(r, " " + dest)
  {
    ConcatStartsWith(SvnCheckout, SvnTrunk + tree + " " + dest);
    assert SvnCheckout + SvnTrunk + tree + " " + dest == SvnCheckout + (SvnTrunk + tree + " " + dest);
    ConcatEndsWith(SvnCheckout + SvnTrunk + tree, " " + dest);
    SvnCheckout + SvnTrunk + tree + " " + dest
  }

  /** A `cp` invocation with the given arguments. */
  function CopyStep(args: string): (r: string)
    ensures StartsWith(r, Copy) && EndsWith(r, args)
  {
    ConcatStartsWith(Copy, args);
    ConcatEndsWith(Copy, args);
    Copy + args
  }

  /** `cp -f <python_patch> <dest>`. */
  function CopyPatch(patch: string, dest: string): (r: string)
    ensures StartsWith(r, Copy) && StartsWith(r, Copy + "-f " + patch + " ") && EndsWith(r, dest)
  {
    assert CopyStep("-f " + patch + " " + dest) == Copy + "-f " + patch + " " + dest;
    ConcatStartsWith(Copy + "-f " + patch + " ", dest);
    ConcatEndsWith(Copy + "-f " + patch + " ", dest);
    CopyStep("-f " + patch + " " + dest)
  }

  /** `patch_steps`: three checkouts of Blender's prebuilt libraries, the
      OpenSubdiv headers and libpng copies, then the patched `pyport.h`
      into both python trees. */
  function PatchSteps(dirSource: string): seq<string> {
    var patch := PythonPatch(dirSource);
    [ Checkout("darwin-9.x.universal", UniversalLib),
      Checkout("darwin", "lib/darwin"),
      Checkout("win64_vc12", "lib/win64_vc12"),
      CopyStep("-Rf lib/win64_vc12/opensubdiv/include/opensubdiv/* " + UniversalLib + "/opensubdiv/include/opensubdiv/"),
      CopyStep(UniversalLib + "/png/lib/libpng12.a " + UniversalLib + "/png/lib/libpng.a"),
      CopyStep(UniversalLib + "/png/lib/libpng12.la " + UniversalLib + "/png/lib/libpng.la"),
      CopyPatch(patch, UniversalLib + "/python/include/python3.5m/pyport.h"),
      CopyPatch(patch, "lib/darwin/python/include/python3.5m/pyport.h") ]
  }

  /** The checkouts come first, then the copies; the last two copy the
      patched header from `dir_source` into both python trees. */
  lemma PatchStepsOrder(dirSource: string)
    ensures var s := PatchSteps(dirSource);
      && |s| == 8
      && (forall k :: 0 <= k < 3 ==> StartsWith(s[k], SvnCheckout))
      && (forall k :: 3 <= k < 8 ==> StartsWith(s[k], Copy))
      && StartsWith(s[6], Copy + "-f " + PythonPatch(dirSource) + " ")
      && StartsWith(s[7], Copy + "-f " + PythonPatch(dirSource) + " ")
      && EndsWith(s[6], UniversalLib + "/python/include/python3.5m/pyport.h")
      && EndsWith(s[7], "lib/darwin/python/include/python3.5m/pyport.h")
  {
  }

  /** `for step in steps: os.system(step)`: every step runs, in order,
      whatever its exit status. */
  function RunAll(steps: seq<string>, p: Proc, run: Runner): Proc
    decreases |steps|
  {
    if |steps| == 0 then p
    else RunAll(steps[1..], AfterCall(p, Shell(steps[0]), run).0, run)
  }

  /** Only the effects of the steps matter, not their exit codes. */
  lemma {:induction false} RunAllIgnoresCodes(steps: seq<string>, p: Proc, run: Runner, run': Runner)
    requires forall c, q :: run(c, q).fs == run'(c, q).fs
    ensures RunAll(steps, p, run) == RunAll(steps, p, run')
    decreases |steps|
  {
    if |steps| > 0 {
      assert AfterCall(p, Shell(steps[0]), run).0 == AfterCall(p, Shell(steps[0]), run').0;
      RunAllIgnoresCodes(steps[1..], AfterCall(p, Shell(steps[0]), run).0, run, run');
    }
  }

  /** The working directory and environment stay as they were. */
  lemma {:induction false} RunAllKeepsPlace(steps: seq<string>, p: Proc, run: Runner)
    ensures RunAll(steps, p, run).cwd == p.cwd && RunAll(steps, p, run).env == p.env
    decreases |steps|
  {
    if |steps| > 0 {
      RunAllKeepsPlace(steps[1..], AfterCall(p, Shell(steps[0]), run).0, run);
    }
  }

  const SvnRevert: string := "svn revert -R ."

  datatype PatchRun = PatchRun(end: Termination, proc: Proc)

  /** What a call of `PatchLibs` does. */
  function PatchLibsSpec(kdrive: string, dirSource: string, version: string, p: Proc, run: Runner): PatchRun {
    match ResolveBoostLib(kdrive, version, p)
    case Unavailable(_) => PatchRun(Exit(1), p)
    case Chosen(_, _) =>
      match AfterChdir(p, PathJoin3(dirSource, "lib", "darwin-9.x.universal"))
      case None => PatchRun(Raised("OSError"), p)
      case Some(p1) =>
        var p2 := AfterCall(p1, Shell(SvnRevert), run).0;
        match AfterChdir(p2, dirSource)
        case None => PatchRun(Raised("OSError"), p2)
        case Some(p3) => PatchRun(Returned, RunAll(PatchSteps(dirSource), p3, run))
  }

  /** `PatchLibs` stops with exit code 1 exactly when no boost library
      directory is usable, and then before touching anything; it returns
      exactly when a library is usable and both directories it enters
      exist, and it then ends in `dir_source`. */
  lemma PatchLibsEnds(kdrive: string, dirSource: string, version: string, p: Proc, run: Runner)
    ensures var r := PatchLibsSpec(kdrive, dirSource, version, p, run);
      && (r.end == Exit(1) <==> ResolveBoostLib(kdrive, version, p).Unavailable?)
      && (r.end == Exit(1) ==> r.proc == p)
      && (r.end == Returned <==>
            && ResolveBoostLib(kdrive, version, p).Chosen?
            && IsDir(p, PathJoin3(dirSource, "lib", "darwin-9.x.universal"))
            && IsDir(AfterCall(AfterChdir(p, PathJoin3(dirSource, "lib", "darwin-9.x.universal")).value,
                               Shell(SvnRevert), run).0, dirSource))
      && (r.end == Returned ==> r.proc.cwd == Resolve(AfterChdir(p, PathJoin3(dirSource, "lib", "darwin-9.x.universal")).value, dirSource))
  {
    var r := PatchLibsSpec(kdrive, dirSource, version, p, run);
    if r.end == Returned {
      var p1 := AfterChdir(p, PathJoin3(dirSource, "lib", "darwin-9.x.universal")).value;
      var p2 := AfterCall(p1, Shell(SvnRevert), run).0;
      var p3 := AfterChdir(p2, dirSource).value;
      RunAllKeepsPlace(PatchSteps(dirSource), p3, run);
    }
  }

  /** The exit codes of the revert and of the patch steps never change
      what `PatchLibs` does. */
  lemma PatchLibsIgnoresCodes(kdrive: string, dirSource: string, version: string, p: Proc, run: Runner, run': Runner)
    requires forall c, q :: run(c, q).fs == run'(c, q).fs
    ensures PatchLibsSpec(kdrive, dirSource, version, p, run) == PatchLibsSpec(kdrive, dirSource, version, p, run')
  {
    var lib := PathJoin3(dirSource, "lib", "darwin-9.x.universal");
    if ResolveBoostLib(kdrive, version, p).Chosen? && IsDir(p, lib) {
      var p1 := AfterChdir(p, lib).value;
      assert AfterCall(p1, Shell(SvnRevert), run).0 == AfterCall(p1, Shell(SvnRevert), run').0;
      var p2 := AfterCall(p1, Shell(SvnRevert), run).0;
      if IsDir(p2, dirSource) {
        RunAllIgnoresCodes(PatchSteps(dirSource), AfterChdir(p2, dirSource).value, run, run');
      }
    }
  }

  /** `PatchLibs` on the host. */
  method PatchLibs(host: Machine, kdrive: string, dirSource: string, version: string, run: Runner)
    returns (end: Termination)
    modifies host
    ensures PatchRun(end, host.State()) == PatchLibsSpec(kdrive, dirSource, version, old(host.State()), run)
  {
    var choice := ResolveBoostLib(kdrive, version, host.State());
    if choice.Unavailable? {
      return Exit(1);
    }
    var ok := host.Chdir(PathJoin3(dirSource, "lib", "darwin-9.x.universal"));
    if !ok {
      return Raised("OSError");
    }
    var _ := host.Call(Shell(SvnRevert), run);
    ok := host.Chdir(dirSource);
    if !ok {
      return Raised("OSError");
    }
    var steps := PatchSteps(dirSource);
    ghost var start := host.State();
    for k := 0 to |steps|
      invariant RunAll(steps, start, run) == RunAll(steps[k..], host.State(), run)
    {
      assert steps[k..][1..] == steps[k + 1..];
      var _ := host.Call(Shell(steps[k]), run);
    }
    end := Returned;
  }
}
