/** jenkins.py: the CI entry point. It normalises the build mode, prepares
    the environment (proxies, the MSVC 2013 tool chain on Windows, ninja on
    `PATH`, the AppSDK variables), prepares the dependency workspace, and
    starts `vb25-patch/build.py` with a command line assembled from its
    arguments. */
module Jenkins {
  import opened Strings
  import opened Paths
  import opened Host

  // ---------------------------------------------------------------------
  // setup_msvc_2013

  const SdkKey: string := "CGR_SDK"
  const SdkField: string := "{CGR_SDK}"
  const VcInstallKey: string := "__MS_VC_INSTALL_PATH"
  const VcInstallValue: string := "{CGR_SDK}/msvs2013"

  /** The tool-chain directory and its platform SDK, below the SDK root. */
  const Msvs2013: string := "/msvs2013"
  const PlatformSdk: string := Msvs2013 + "/PlatformSDK"

  const IncludeSuffixes: seq<string> := [
    PlatformSdk + "/Include/shared",
    PlatformSdk + "/Include/um",
    PlatformSdk + "/Include/winrt",
    PlatformSdk + "/Include/ucrt",
    Msvs2013 + "/include",
    Msvs2013 + "/atlmfc/include" ]

  const LibSuffixes: seq<string> := [
    PlatformSdk + "/Lib/winv6.3/um/x64",
    PlatformSdk + "/Lib/ucrt/x64",
    Msvs2013 + "/atlmfc/lib/amd64",
    Msvs2013 + "/lib/amd64" ]

  const BinSuffixes: seq<string> := [
    Msvs2013 + "/bin/amd64",
    Msvs2013 + "/bin",
    PlatformSdk + "/bin/x64" ]

  /** The SDK entries as written: each suffix behind the `{CGR_SDK}` field. */
  function Templated(suffixes: seq<string>): (r: seq<string>)
    ensures |r| == |suffixes|
    ensures forall k :: 0 <= k < |r| ==> r[k] == SdkField + suffixes[k]
    decreases |suffixes|
  {
    if |suffixes| == 0 then [] else [SdkField + suffixes[0]] + Templated(suffixes[1..])
  }

  /** The SDK entries once the field holds `root`. */
  function Rooted(root: string, suffixes: seq<string>): (r: seq<string>)
    ensures |r| == |suffixes|
    ensures forall k :: 0 <= k < |r| ==> r[k] == root + suffixes[k]
    decreases |suffixes|
  {
    if |suffixes| == 0 then [] else [root + suffixes[0]] + Rooted(root, suffixes[1..])
  }

  predicate AllBraceFree(ss: seq<string>) {
    forall k :: 0 <= k < |ss| ==> BraceFree(ss[k])
  }

  lemma SdkFieldSpelling()
    ensures SdkField == "{" + SdkKey + "}"
  {
  }

  /** Formatting the templated entries puts `root` in place of the field. */
  lemma {:induction false} FormatTemplated(suffixes: seq<string>, root: string)
    requires AllBraceFree(suffixes)
    ensures FormatAll(Templated(suffixes), SdkKey, root) == Some(Rooted(root, suffixes))
    decreases |suffixes|
  {
    if |suffixes| > 0 {
      SdkFieldSpelling();
      FormatField(SdkKey, root, suffixes[0]);
      assert AllBraceFree(suffixes[1..]) by {
        forall k | 0 <= k < |suffixes[1..]| ensures BraceFree(suffixes[1..][k]) {
          assert suffixes[1..][k] == suffixes[k + 1];
        }
      }
      FormatTemplated(suffixes[1..], root);
      var t := Templated(suffixes);
      assert t[0] == SdkField + suffixes[0] && t[1..] == Templated(suffixes[1..]);
    }
  }

  /** Both directory prefixes are free of braces. */
  lemma PrefixesBraceFree()
    ensures BraceFree(Msvs2013) && BraceFree(PlatformSdk)
  {
    BraceFreeAt(Msvs2013);
    BraceFreeAt("/PlatformSDK");
    BraceFreeAppend(Msvs2013, "/PlatformSDK");
  }

  /** `prefix + tail` is free of braces when the tail is. */
  lemma UnderPrefix(prefix: string, tail: string)
    requires BraceFree(prefix)
    requires forall i :: 0 <= i < |tail| ==> tail[i] != '{' && tail[i] != '}'
    ensures BraceFree(prefix + tail)
  {
    BraceFreeAt(tail);
    BraceFreeAppend(prefix, tail);
  }

  lemma IncludeBraceFree()
    ensures AllBraceFree(IncludeSuffixes)
  {
    PrefixesBraceFree();
    UnderPrefix(PlatformSdk, "/Include/shared");
    UnderPrefix(PlatformSdk, "/Include/um");
    UnderPrefix(PlatformSdk, "/Include/winrt");
    UnderPrefix(PlatformSdk, "/Include/ucrt");
    UnderPrefix(Msvs2013, "/include");
    UnderPrefix(Msvs2013, "/atlmfc/include");
  }

  lemma LibBraceFree()
    ensures AllBraceFree(LibSuffixes)
  {
    PrefixesBraceFree();
    UnderPrefix(PlatformSdk, "/Lib/winv6.3/um/x64");
    UnderPrefix(PlatformSdk, "/Lib/ucrt/x64");
    UnderPrefix(Msvs2013, "/atlmfc/lib/amd64");
    UnderPrefix(Msvs2013, "/lib/amd64");
  }

  lemma BinBraceFree()
    ensures AllBraceFree(BinSuffixes)
  {
    PrefixesBraceFree();
    UnderPrefix(Msvs2013, "/bin/amd64");
    UnderPrefix(Msvs2013, "/bin");
    UnderPrefix(PlatformSdk, "/bin/x64");
  }

  /** The `env` dictionary of `setup_msvc_2013`, in insertion order, for a
      given previous `PATH` (split at `;`, the Windows path separator). */
  function MsvcVars(path: string): seq<(string, seq<string>)> {
    [ ("INCLUDE", Templated(IncludeSuffixes)),
      ("LIB", Templated(LibSuffixes)),
      ("PATH", Templated(BinSuffixes) + Split(path, ';')) ]
  }

  /** The environment after a series of writes, and the exception that
      stopped them, if any. */
  datatype EnvRun = EnvRun(error: Option<string>, env: map<string, string>)

  /** `for var in env: os.environ[var] = ";".join(env[var]).format(CGR_SDK=...)`. */
  function WriteVars(vars: seq<(string, seq<string>)>, env: map<string, string>, root: string): EnvRun
    decreases |vars|
  {
    if |vars| == 0 then EnvRun(None, env)
    else match Format(Join(vars[0].1, ";"), SdkKey, root)
      case None => EnvRun(Some("ValueError"), env)
      case Some(value) => WriteVars(vars[1..], env[vars[0].0 := value], root)
  }

  /** What `setup_msvc_2013(root)` does to the environment. */
  function SetupMsvcSpec(env: map<string, string>, root: string): EnvRun {
    if "PATH" !in env then EnvRun(Some("KeyError"), env)
    else WriteVars(MsvcVars(env["PATH"]), env[VcInstallKey := VcInstallValue], root)
  }

  /** The SDK directories, rooted at `root`, joined with `;`. */
  function SdkPath(root: string, suffixes: seq<string>): string {
    Join(Rooted(root, suffixes), ";")
  }

  lemma FormattedSdk(suffixes: seq<string>, root: string)
    requires AllBraceFree(suffixes)
    ensures Format(Join(Templated(suffixes), ";"), SdkKey, root) == Some(SdkPath(root, suffixes))
  {
    FormatTemplated(suffixes, root);
    FormatJoin(Templated(suffixes), ";", SdkKey, root, Rooted(root, suffixes));
  }

  /** The new `PATH` template is the SDK directories, `;`, then the old
      `PATH` itself. */
  lemma PathTemplate(path: string)
    ensures Join(Templated(BinSuffixes) + Split(path, ';'), ";") == Join(Templated(BinSuffixes), ";") + (";" + path)
  {
    JoinAppend(Templated(BinSuffixes), Split(path, ';'), ";");
    JoinSplit(path, ';');
    assert [';'] == ";";
  }

  /** A `PATH` in which formatting finds nothing to replace: the three SDK
      tool directories are put in front of it. */
  lemma FormattedPath(path: string, root: string, rest: string)
    requires Format(path, SdkKey, root) == Some(rest)
    ensures Format(Join(Templated(BinSuffixes) + Split(path, ';'), ";"), SdkKey, root)
              == Some(SdkPath(root, BinSuffixes) + ";" + rest)
  {
    BinBraceFree();
    PathTemplate(path);
    FormattedSdk(BinSuffixes, root);
    FormatBraceFree(";", SdkKey, root);
    FormatAppend(";", path, SdkKey, root, ";");
    FormatAppend(Join(Templated(BinSuffixes), ";"), ";" + path, SdkKey, root, SdkPath(root, BinSuffixes));
    PrependTwice(SdkPath(root, BinSuffixes), ";", Some(rest));
  }

  lemma FailedPath(path: string, root: string)
    requires Format(path, SdkKey, root) == None
    ensures Format(Join(Templated(BinSuffixes) + Split(path, ';'), ";"), SdkKey, root) == None
  {
    BinBraceFree();
    PathTemplate(path);
    FormattedSdk(BinSuffixes, root);
    FormatBraceFree(";", SdkKey, root);
    FormatAppend(";", path, SdkKey, root, ";");
    FormatAppend(Join(Templated(BinSuffixes), ";"), ";" + path, SdkKey, root, SdkPath(root, BinSuffixes));
  }

  /** One write of `WriteVars` whose value formats. */
  lemma WriteStep(vars: seq<(string, seq<string>)>, env: map<string, string>, root: string, value: string)
    requires |vars| > 0 && Format(Join(vars[0].1, ";"), SdkKey, root) == Some(value)
    ensures WriteVars(vars, env, root) == WriteVars(vars[1..], env[vars[0].0 := value], root)
  {
  }

  /** INCLUDE and LIB are always written, whatever `PATH` holds. */
  lemma SdkWrites(path: string, env: map<string, string>, root: string)
    ensures WriteVars(MsvcVars(path), env, root) ==
      WriteVars(MsvcVars(path)[2..], env["INCLUDE" := SdkPath(root, IncludeSuffixes)]
                                        ["LIB" := SdkPath(root, LibSuffixes)], root)
  {
    var vars := MsvcVars(path);
    IncludeBraceFree();
    LibBraceFree();
    FormattedSdk(IncludeSuffixes, root);
    FormattedSdk(LibSuffixes, root);
    var env1 := env["INCLUDE" := SdkPath(root, IncludeSuffixes)];
    WriteStep(vars, env, root, SdkPath(root, IncludeSuffixes));
    WriteStep(vars[1..], env1, root, SdkPath(root, LibSuffixes));
    assert vars[1..][1..] == vars[2..];
  }

  /** The last write, of PATH. */
  lemma PathWrite(path: string, env: map<string, string>, root: string)
    ensures var r := WriteVars(MsvcVars(path)[2..], env, root);
      match Format(path, SdkKey, root)
      case None => r == EnvRun(Some("ValueError"), env)
      case Some(rest) => r == EnvRun(None, env["PATH" := SdkPath(root, BinSuffixes) + ";" + rest])
  {
    var vars := MsvcVars(path)[2..];
    assert |vars| == 1 && vars[0] == ("PATH", Templated(BinSuffixes) + Split(path, ';'));
    assert vars[1..] == [];
    match Format(path, SdkKey, root)
    case None =>
      FailedPath(path, root);
    case Some(rest) =>
      FormattedPath(path, root, rest);
  }

  /** With a `PATH` that formats cleanly (one without braces, say),
      INCLUDE and LIB become the SDK directories under `root` joined by
      `;`, PATH becomes the SDK tool directories followed by the old
      entries, `__MS_VC_INSTALL_PATH` keeps the literal field, and no other
      variable changes. */
  lemma SetupMsvcWrites(env: map<string, string>, root: string, rest: string)
    requires "PATH" in env && Format(env["PATH"], SdkKey, root) == Some(rest)
    ensures SetupMsvcSpec(env, root) == EnvRun(None,
      env[VcInstallKey := VcInstallValue]
         ["INCLUDE" := SdkPath(root, IncludeSuffixes)]
         ["LIB" := SdkPath(root, LibSuffixes)]
         ["PATH" := SdkPath(root, BinSuffixes) + ";" + rest])
  {
    var env1 := env[VcInstallKey := VcInstallValue];
    SdkWrites(env["PATH"], env1, root);
    PathWrite(env["PATH"], env1["INCLUDE" := SdkPath(root, IncludeSuffixes)]
                               ["LIB" := SdkPath(root, LibSuffixes)], root);
  }

  /** A brace-free `PATH` is kept verbatim behind the SDK tool
      directories. */
  lemma SetupMsvcKeepsPath(env: map<string, string>, root: string)
    requires "PATH" in env && BraceFree(env["PATH"])
    ensures var r := SetupMsvcSpec(env, root);
      && r.error == None
      && "PATH" in r.env
      && r.env["PATH"] == SdkPath(root, BinSuffixes) + ";" + env["PATH"]
  {
    FormatBraceFree(env["PATH"], SdkKey, root);
    SetupMsvcWrites(env, root, env["PATH"]);
  }

  /** Without `PATH`, the dictionary cannot be built and nothing is
      written; a `PATH` whose braces `str.format` rejects stops the writes
      after INCLUDE and LIB. */
  lemma SetupMsvcFails(env: map<string, string>, root: string)
    ensures "PATH" !in env ==> SetupMsvcSpec(env, root) == EnvRun(Some("KeyError"), env)
    ensures "PATH" in env && Format(env["PATH"], SdkKey, root) == None ==>
      SetupMsvcSpec(env, root) == EnvRun(Some("ValueError"),
        env[VcInstallKey := VcInstallValue]
           ["INCLUDE" := SdkPath(root, IncludeSuffixes)]
           ["LIB" := SdkPath(root, LibSuffixes)])
  {
    if "PATH" in env && Format(env["PATH"], SdkKey, root) == None {
      var env1 := env[VcInstallKey := VcInstallValue];
      SdkWrites(env["PATH"], env1, root);
      PathWrite(env["PATH"], env1["INCLUDE" := SdkPath(root, IncludeSuffixes)]
                                 ["LIB" := SdkPath(root, LibSuffixes)], root);
    }
  }

  /** `setup_msvc_2013` on the host's environment. */
  method SetupMsvc2013(host: Machine, root: string) returns (error: Option<string>)
    modifies host
    ensures EnvRun(error, host.env) == SetupMsvcSpec(old(host.env), root)
    ensures host.fs == old(host.fs) && host.cwd == old(host.cwd)
  {
    if "PATH" !in host.env {
      return Some("KeyError");
    }
    var vars := MsvcVars(host.env["PATH"]);
    host.SetEnv(VcInstallKey, VcInstallValue);
    ghost var start := host.env;
    for k := 0 to |vars|
      invariant WriteVars(vars, start, root) == WriteVars(vars[k..], host.env, root)
      invariant host.fs == old(host.fs) && host.cwd == old(host.cwd)
    {
      assert vars[k..][1..] == vars[k + 1..];
      var value := Format(Join(vars[k].1, ";"), SdkKey, root);
      if value.None? {
        return Some("ValueError");
      }
      host.SetEnv(vars[k].0, value.value);
    }
    error := None;
  }

  // ---------------------------------------------------------------------
  // Arguments and build mode

  /** The parsed command line of jenkins.py. */
  datatype Args = Args(
    output: string,          // --jenkins_output
    permPath: string,        // --jenkins_perm_path
    blenderRef: string,      // --jenkins_blender_git_ref
    exporterRef: string,     // --jenkins_exporter_git_ref
    withStaticLibc: bool,    // --jenkins_with_static_libc
    buildMode: string,       // --jenkins_build_mode
    zmqBranch: string,       // --jenkins_zmq_branch
    minimalBuild: string,    // --jenkins_minimal_build
    buildType: string)       // --jenkins_build_type

  /** The values the argument parser accepts. */
  predicate ValidArgs(a: Args) {
    && a.buildMode in {"nightly", "release", "default"}
    && a.minimalBuild in {"yes", "no", "1", "0", "true", "false"}
    && a.buildType in {"debug", "release"}
  }

  /** `minimal_build`: only a `default` build can be minimal. */
  function MinimalBuild(a: Args): bool {
    a.buildMode == "default" && a.minimalBuild in ["1", "yes", "true"]
  }

  /** The build mode after `default` has been rewritten to `nightly`. */
  function NormalisedMode(mode: string): string {
    if mode == "default" then "nightly" else mode
  }

  /** A minimal build needs the `default` mode and a true-ish flag; the
      normalised mode is one of `nightly` and `release`, `default` becomes
      `nightly`, the others are kept, and normalising twice changes
      nothing. */
  lemma ModeNormalisation(a: Args)
    requires ValidArgs(a)
    ensures NormalisedMode(a.buildMode) in {"nightly", "release"}
    ensures a.buildMode == "default" ==> NormalisedMode(a.buildMode) == "nightly"
    ensures a.buildMode != "default" ==> NormalisedMode(a.buildMode) == a.buildMode
    ensures NormalisedMode(NormalisedMode(a.buildMode)) == NormalisedMode(a.buildMode)
  {
  }

  // ---------------------------------------------------------------------
  // Host operating system tables

  datatype HostOs = Win | Lnx | Mac

  /** The kdrive SDK sub-directory per host. */
  function KdriveDirName(os: HostOs): string {
    match os
    case Win => "win"
    case Lnx => "linux"
    case Mac => "mac"
  }

  /** The prebuilt-libraries sub-directory per host. */
  function LibsDirName(os: HostOs): string {
    match os
    case Win => "Windows"
    case Lnx => "Linux"
    case Mac => "Darwin"
  }

  /** Both tables give each host its own plain directory name. */
  lemma OsTablesDistinct(os: HostOs, os': HostOs)
    ensures KdriveDirName(os) == KdriveDirName(os') <==> os == os'
    ensures LibsDirName(os) == LibsDirName(os') <==> os == os'
    ensures KdriveDirName(os) != "" && '/' !in KdriveDirName(os)
    ensures LibsDirName(os) != "" && '/' !in LibsDirName(os)
  {
  }

  // ---------------------------------------------------------------------
  // The builder command line

  /** What jenkins.py takes from the interpreter, `utils` and the
      repositories it fetches; none of them is computed by the model. */
  datatype World = World(
    win32: bool,                         // sys.platform == 'win32'
    hostOs: HostOs,                      // utils.get_host_os()
    pythonExe: string,                   // sys.executable
    zmqHash: string,                     // utils.get_git_head_hash(...vrayserverzmq)
    fetchRepos: Proc -> FileSystem)      // the three utils.get_repo calls

  /** The directories the command line names. */
  datatype Dirs = Dirs(source: string, build: string, kdrive: string, libs: string,
                       installer: string, install: string, release: string)

  const BuildScript: string := "vb25-patch/build.py"
  const DirSourceOpt: string := "--dir_source="
  const DirBuildOpt: string := "--dir_build="
  const SrcBranchOpt: string := "--github-src-branch="
  const ZmqHashOpt: string := "--teamcity_zmq_server_hash="
  const KdriveOpt: string := "--jenkins_kdrive_path="
  const OutputOpt: string := "--jenkins_output="
  const LibsOpt: string := "--dir_blender_libs="
  const ExpBranchOpt: string := "--github-exp-branch="
  const Vc2013: string := "--vc_2013"
  const MinimalOpt: string := "--jenkins_minimal_build"
  const ModeOpt: string := "--build_mode="
  const TypeOpt: string := "--build_type="
  const InstallerOpt: string := "--dir_cgr_installer="
  const StaticLibc: string := "--teamcity_with_static_libc"
  const InstallOpt: string := "--dir_install="
  const ReleaseOpt: string := "--dir_release="

  /** The fixed options up to the prebuilt-libs directory. */
  function CmdOpening(a: Args, w: World, d: Dirs): seq<string> {
    [ BuildScript, "--jenkins",
      DirSourceOpt + d.source, DirBuildOpt + d.build,
      SrcBranchOpt + a.blenderRef, ZmqHashOpt + w.zmqHash,
      KdriveOpt + d.kdrive, OutputOpt + a.output, LibsOpt + d.libs ]
  }

  const CmdFeatures: seq<string> :=
    ["--build_clean", "--with_ge", "--with_player", "--with_collada", "--with_cycles", "--with_tracker"]

  function CmdMode(a: Args, mode: string, d: Dirs): seq<string> {
    [ ModeOpt + mode, TypeOpt + a.buildType, "--use_package", "--use_installer=CGR",
      InstallerOpt + d.installer ]
  }

  /** `os.path.join(jenkins_output, kind, 'vray_for_blender')`. */
  function OutputDir(output: string, kind: string): string {
    PathJoin3(output, kind, "vray_for_blender")
  }

  function CmdClosing(d: Dirs): seq<string> {
    [ "--dev_static_libs", "--upblender=off", "--uppatch=off", "--gcc=gcc", "--gxx=g++",
      InstallOpt + d.install, ReleaseOpt + d.release ]
  }

  /** An option appended only under a condition. */
  function When(c: bool, option: string): seq<string> {
    if c then [option] else []
  }

  /** The arguments after the interpreter. */
  function BuilderArgs(a: Args, w: World, minimal: bool, mode: string, d: Dirs): seq<string> {
    CmdOpening(a, w, d)
    + When(a.exporterRef != "master", ExpBranchOpt + a.exporterRef)
    + CmdFeatures
    + When(w.hostOs == Win, Vc2013)
    + When(minimal, MinimalOpt)
    + CmdMode(a, mode, d)
    + When(a.withStaticLibc, StaticLibc)
    + CmdClosing(d)
  }

  /** The `cmd` list handed to `subprocess.call`. */
  function BuilderCommand(a: Args, w: World, minimal: bool, mode: string, d: Dirs): seq<string> {
    [w.pythonExe] + BuilderArgs(a, w, minimal, mode, d)
  }

  /** The command has 28 elements plus one per condition that holds; it
      starts with the interpreter, the build script, the jenkins switch and
      the two directories, carries the build mode, and ends with the
      install and release directories. */
  lemma CommandFrame(a: Args, w: World, minimal: bool, mode: string, d: Dirs)
    ensures var c := BuilderCommand(a, w, minimal, mode, d);
      && 28 <= |c| <= 32
      && c[..5] == [w.pythonExe, BuildScript, "--jenkins", DirSourceOpt + d.source, DirBuildOpt + d.build]
      && c[|c| - 2] == InstallOpt + d.install
      && c[|c| - 1] == ReleaseOpt + d.release
      && ModeOpt + mode in c
  {
    var c := BuilderCommand(a, w, minimal, mode, d);
    var args := BuilderArgs(a, w, minimal, mode, d);
    var o := CmdOpening(a, w, d);
    assert c[..5] == [w.pythonExe, BuildScript, "--jenkins", DirSourceOpt + d.source, DirBuildOpt + d.build] by {
      assert forall k | 0 <= k < 4 :: args[k] == o[k];
    }
    var closing := CmdClosing(d);
    assert c[|c| - 2] == InstallOpt + d.install && c[|c| - 1] == ReleaseOpt + d.release by {
      assert args[|args| - 2] == closing[5] && args[|args| - 1] == closing[6];
    }
    assert ModeOpt + mode in c by {
      assert ModeOpt + mode in CmdMode(a, mode, d);
    }
  }

  /** A plain output directory gives
      `<output>/install/vray_for_blender` and
      `<output>/release/vray_for_blender`. */
  lemma OutputDirsPlain(output: string)
    requires output != "" && !EndsWith(output, "/")
    ensures OutputDir(output, "install") == output + "/" + "install" + "/" + "vray_for_blender"
    ensures OutputDir(output, "release") == output + "/" + "release" + "/" + "vray_for_blender"
  {
    RelativeName("install");
    RelativeName("release");
    RelativeName("vray_for_blender");
    PathJoin3Plain(output, "install", "vray_for_blender");
    PathJoin3Plain(output, "release", "vray_for_blender");
  }

  /** The character at position `i`, a space past the end. */
  function At(e: string, i: nat): char {
    if i < |e| then e[i] else ' '
  }

  /** The characters at positions 2 and 11: enough to tell each
      conditional option from every other argument of the command.
      This signature is only a proof device for `ConditionalOptions`;
      the build script has nothing like it. */
  function Sig(e: string): (char, char) {
    (At(e, 2), At(e, 11))
  }

  lemma SigOf(k: string, x: string)
    requires |k| >= 12
    ensures Sig(k + x) == Sig(k)
  {
    assert (k + x)[2] == k[2] && (k + x)[11] == k[11];
  }

  const ExpSig := ('g', 'p')
  const VcSig := ('v', ' ')
  const MinimalSig := ('j', 'i')
  const StaticSig := ('t', 'w')

  /** The signatures of the four conditional options. */
  lemma ConditionalSigs(ref: string)
    ensures Sig(ExpBranchOpt + ref) == ExpSig && Sig(Vc2013) == VcSig
    ensures Sig(MinimalOpt) == MinimalSig && Sig(StaticLibc) == StaticSig
  {
    SigOf(ExpBranchOpt, ref);
  }

  /** An argument that is none of the conditional options. */
  predicate Unconditional(e: string) {
    Sig(e) != ExpSig && Sig(e) != VcSig && Sig(e) != MinimalSig && Sig(e) != StaticSig
  }

  lemma OpeningUnconditional(a: Args, w: World, d: Dirs)
    ensures forall e | e in CmdOpening(a, w, d) :: Unconditional(e)
  {
    SigOf(DirSourceOpt, d.source);
    SigOf(DirBuildOpt, d.build);
    SigOf(SrcBranchOpt, a.blenderRef);
    SigOf(ZmqHashOpt, w.zmqHash);
    SigOf(KdriveOpt, d.kdrive);
    SigOf(OutputOpt, a.output);
    SigOf(LibsOpt, d.libs);
  }

  lemma FeaturesUnconditional()
    ensures forall e | e in CmdFeatures :: Unconditional(e)
  {
  }

  lemma ModeUnconditional(a: Args, mode: string, d: Dirs)
    ensures forall e | e in CmdMode(a, mode, d) :: Unconditional(e)
  {
    SigOf(ModeOpt, mode);
    SigOf(TypeOpt, a.buildType);
    SigOf(InstallerOpt, d.installer);
  }

  lemma ClosingUnconditional(d: Dirs)
    ensures forall e | e in CmdClosing(d) :: Unconditional(e)
  {
    var c := CmdClosing(d);
    assert Sig(c[0]).0 == 'd' && Sig(c[1]).0 == 'u' && Sig(c[2]).0 == 'u';
    assert Sig(c[3]) == ('g', ' ') && Sig(c[4]) == ('g', ' ');
    SigOf(InstallOpt, d.install);
    SigOf(ReleaseOpt, d.release);
    assert Sig(c[5]).0 == 'd' && Sig(c[6]).0 == 'd';
    assert forall k | 0 <= k < |c| :: Unconditional(c[k]);
  }

  /** Each conditional option is among the arguments exactly when its
      condition holds: the exporter branch when it is not `master`,
      `--vc_2013` on Windows, the minimal-build switch for a minimal build,
      static libc when asked for. */
  lemma ConditionalOptions(a: Args, w: World, minimal: bool, mode: string, d: Dirs)
    ensures var args := BuilderArgs(a, w, minimal, mode, d);
      && (ExpBranchOpt + a.exporterRef in args <==> a.exporterRef != "master")
      && (Vc2013 in args <==> w.hostOs == Win)
      && (MinimalOpt in args <==> minimal)
      && (StaticLibc in args <==> a.withStaticLibc)
  {
    ConditionalSigs(a.exporterRef);
    OpeningUnconditional(a, w, d);
    FeaturesUnconditional();
    ModeUnconditional(a, mode, d);
    ClosingUnconditional(d);
  }

  /** `cmd`, appended option by option as `main` does. */
  method BuildCommand(a: Args, w: World, minimal: bool, mode: string, d: Dirs) returns (cmd: seq<string>)
    ensures cmd == BuilderCommand(a, w, minimal, mode, d)
  {
    var py := w.pythonExe;
    cmd := [py];
    cmd := cmd + [BuildScript];
    cmd := cmd + ["--jenkins"];
    cmd := cmd + [DirSourceOpt + d.source];
    cmd := cmd + [DirBuildOpt + d.build];
    cmd := cmd + [SrcBranchOpt + a.blenderRef];
    cmd := cmd + [ZmqHashOpt + w.zmqHash];
    cmd := cmd + [KdriveOpt + d.kdrive];
    cmd := cmd + [OutputOpt + a.output];
    cmd := cmd + [LibsOpt + d.libs];
    ghost var args := CmdOpening(a, w, d);
    assert cmd == [py] + args;
    ghost var seg := When(a.exporterRef != "master", ExpBranchOpt + a.exporterRef);
    if a.exporterRef != "master" {
      cmd := cmd + [ExpBranchOpt + a.exporterRef];
    }
    assert cmd == ([py] + args) + seg;
    AppendAssoc([py], args, seg);
    args := args + seg;
    cmd := cmd + CmdFeatures;
    AppendAssoc([py], args, CmdFeatures);
    args := args + CmdFeatures;
    seg := When(w.hostOs == Win, Vc2013);
    if w.hostOs == Win {
      cmd := cmd + [Vc2013];
    }
    assert cmd == ([py] + args) + seg;
    AppendAssoc([py], args, seg);
    args := args + seg;
    seg := When(minimal, MinimalOpt);
    if minimal {
      cmd := cmd + [MinimalOpt];
    }
    assert cmd == ([py] + args) + seg;
    AppendAssoc([py], args, seg);
    args := args + seg;
    cmd := cmd + CmdMode(a, mode, d);
    AppendAssoc([py], args, CmdMode(a, mode, d));
    args := args + CmdMode(a, mode, d);
    seg := When(a.withStaticLibc, StaticLibc);
    if a.withStaticLibc {
      cmd := cmd + [StaticLibc];
    }
    assert cmd == ([py] + args) + seg;
    AppendAssoc([py], args, seg);
    args := args + seg;
    cmd := cmd + CmdClosing(d);
    AppendAssoc([py], args, CmdClosing(d));
    args := args + CmdClosing(d);
  }

  // ---------------------------------------------------------------------
  // main

  const CgrepoKey: string := "VRAY_CGREPO_PATH"
  const AppsdkVersion: string := "20170307"

  /** The proxy variables `main` sets first. */
  function WithProxies(env: map<string, string>): map<string, string> {
    env["http_proxy" := "http://10.0.0.1:1234/"]
       ["https_proxy" := "https://10.0.0.1:1234/"]
       ["ftp_proxy" := "10.0.0.1:1234"]
       ["socks_proxy" := "10.0.0.1:1080"]
  }

  /** `os.path.join(base, *parts)`. */
  function PathJoinAll(base: string, parts: seq<string>): string
    decreases |parts|
  {
    if |parts| == 0 then base else PathJoinAll(PathJoin(base, parts[0]), parts[1..])
  }

  /** `os.pathsep`. */
  function PathSep(w: World): string {
    if w.win32 then ";" else ":"
  }

  function Kdrive(cgrepo: string, os: HostOs): string {
    PathJoin3(cgrepo, "sdk", KdriveDirName(os))
  }

  function DirSource(a: Args): string {
    PathJoin(a.permPath, "blender-dependencies")
  }

  /** The git lock file an interrupted submodule update leaves behind. */
  function LockFile(dirSource: string): string {
    PathJoinAll(dirSource, ["vrayserverzmq", ".git", "modules", "extern", "vray-zmq-wrapper",
                            "modules", "extern", "cppzmq", "index.lock"])
  }

  function AppsdkPath(dirSource: string, os: HostOs): string {
    PathJoin(PathJoin3(dirSource, "blender-for-vray-libs", LibsDirName(os)), "appsdk")
  }

  /** The directories the builder is told about. */
  function LaunchDirs(a: Args, kdrive: string, dirBuild: string): Dirs {
    var source := DirSource(a);
    Dirs(source, dirBuild, kdrive, PathJoin(source, "prebuilt-libs"),
         PathJoin3(source, "blender-for-vray-libs", "cgr_installer"),
         OutputDir(a.output, "install"), OutputDir(a.output, "release"))
  }

  /** The command line `main` starts the builder with. */
  function LaunchedCommand(a: Args, w: World, kdrive: string, dirBuild: string): seq<string> {
    BuilderCommand(a, w, MinimalBuild(a), NormalisedMode(a.buildMode), LaunchDirs(a, kdrive, dirBuild))
  }

  /** How `main` ends, the builder command it started (if it got that
      far), and the process state it leaves. */
  datatype JenkinsRun = JenkinsRun(end: Termination, cmd: Option<seq<string>>, proc: Proc)

  /** The dependency workspace: created when missing, otherwise rid of a
      stale git lock. `None` when `os.makedirs` raises. */
  function PrepareWorkspace(dirSource: string, p: Proc): Option<Proc> {
    if !Exists(p, dirSource) then AfterMakedirs(p, dirSource)
    else if Exists(p, LockFile(dirSource)) then Some(AfterRemoveTree(p, LockFile(dirSource)))
    else Some(p)
  }

  /** The ninja directory put in front of `PATH`; `None` when `CI_ROOT`
      is needed and missing. */
  function NinjaPath(w: World, cgrepo: string, env: map<string, string>): Option<string> {
    if w.win32 then Some(PathJoinAll(cgrepo, ["build_scripts", "cmake", "tools", "bin"]))
    else if "CI_ROOT" in env then Some(PathJoin3(env["CI_ROOT"], "ninja", "ninja"))
    else None
  }

  /** `main`, from its start to the builder's exit status, which the
      script passes to `sys.exit`. */
  function MainSpec(a: Args, w: World, p: Proc, run: Runner): JenkinsRun {
    var p1 := p.(env := WithProxies(p.env));
    if CgrepoKey !in p1.env then JenkinsRun(Raised("KeyError"), None, p1)
    else ToolchainSpec(a, w, p1.env[CgrepoKey], p.cwd, p1, run)
  }

  /** The MSVC tool chain on Windows, then the rest. */
  function ToolchainSpec(a: Args, w: World, cgrepo: string, dirBuild: string, p: Proc, run: Runner): JenkinsRun {
    var kdrive := Kdrive(cgrepo, w.hostOs);
    if !w.win32 then WorkspaceSpec(a, w, cgrepo, kdrive, dirBuild, p, run)
    else
      var m := SetupMsvcSpec(p.env, kdrive);
      var p1 := p.(env := m.env);
      match m.error
      case Some(e) => JenkinsRun(Raised(e), None, p1)
      case None => WorkspaceSpec(a, w, cgrepo, kdrive, dirBuild, p1, run)
  }

  /** From the workspace to the end. */
  function WorkspaceSpec(a: Args, w: World, cgrepo: string, kdrive: string, dirBuild: string,
                         p: Proc, run: Runner): JenkinsRun
  {
    match PrepareWorkspace(DirSource(a), p)
    case None => JenkinsRun(Raised("OSError"), None, p)
    case Some(p1) => NinjaSpec(a, w, cgrepo, kdrive, dirBuild, p1, run)
  }

  /** Ninja in front of `PATH`, then the rest. */
  function NinjaSpec(a: Args, w: World, cgrepo: string, kdrive: string, dirBuild: string,
                     p: Proc, run: Runner): JenkinsRun
  {
    match NinjaPath(w, cgrepo, p.env)
    case None => JenkinsRun(Raised("KeyError"), None, p)
    case Some(ninja) =>
      if "PATH" !in p.env then JenkinsRun(Raised("KeyError"), None, p)
      else SourcesSpec(a, w, kdrive, dirBuild, p.(env := p.env["PATH" := ninja + PathSep(w) + p.env["PATH"]]), run)
  }

  /** Fetching the sources inside the workspace, then back to the build
      directory and the AppSDK variables. */
  function SourcesSpec(a: Args, w: World, kdrive: string, dirBuild: string, p: Proc, run: Runner): JenkinsRun {
    var dirSource := DirSource(a);
    match AfterChdir(p, dirSource)
    case None => JenkinsRun(Raised("OSError"), None, p)
    case Some(p1) =>
      var p2 := AfterRemoveTree(p1, PathJoin(dirSource, "blender"));
      var p3 := p2.(fs := w.fetchRepos(p2));
      match AfterChdir(p3, dirBuild)
      case None => JenkinsRun(Raised("OSError"), None, p3)
      case Some(p4) => LaunchSpec(a, w, kdrive, dirBuild, p4.(env := AppsdkEnv(a, w, p4.env)), run)
  }

  /** The AppSDK variables and the build type. */
  function AppsdkEnv(a: Args, w: World, env: map<string, string>): map<string, string> {
    env["CGR_APPSDK_PATH" := AppsdkPath(DirSource(a), w.hostOs)]
       ["CGR_APPSDK_VERSION" := AppsdkVersion]
       ["CGR_BUILD_TYPE" := a.buildType]
  }

  /** The kdrive variable, the prebuilt-libs directory (created when
      missing) and the builder itself. */
  function LaunchSpec(a: Args, w: World, kdrive: string, dirBuild: string, p: Proc, run: Runner): JenkinsRun {
    var libs := LaunchDirs(a, kdrive, dirBuild).libs;
    var p1 := p.(env := p.env["jenkins_kdrive_path" := kdrive]);
    var made := if Exists(p1, libs) then Some(p1) else AfterMakedirs(p1, libs);
    match made
    case None => JenkinsRun(Raised("OSError"), None, p1)
    case Some(p2) =>
      var cmd := LaunchedCommand(a, w, kdrive, dirBuild);
      var r := AfterCall(p2, Argv(cmd), run);
      JenkinsRun(Exit(r.1), Some(cmd), r.0)
  }

  /** Without `VRAY_CGREPO_PATH` the script stops with a `KeyError` after
      setting the proxies, before touching the filesystem or starting
      anything. */
  lemma MissingCgrepo(a: Args, w: World, p: Proc, run: Runner)
    requires CgrepoKey !in p.env
    ensures MainSpec(a, w, p, run) == JenkinsRun(Raised("KeyError"), None, p.(env := WithProxies(p.env)))
  {
    assert CgrepoKey !in WithProxies(p.env) by {
      assert |CgrepoKey| == 16;
    }
  }

  /** The proxies do not hide `VRAY_CGREPO_PATH`. */
  lemma ProxiesKeepCgrepo(env: map<string, string>)
    ensures CgrepoKey in WithProxies(env) <==> CgrepoKey in env
    ensures CgrepoKey in env ==> WithProxies(env)[CgrepoKey] == env[CgrepoKey]
  {
    assert |CgrepoKey| == 16;
  }

  /** A run ends through `sys.exit` exactly when it started the builder,
      and then with the command line `main` assembles, with the exit
      status the builder gave and the state it left; otherwise by an
      exception. */
  ghost predicate Launched(r: JenkinsRun, a: Args, w: World, kdrive: string, dirBuild: string, run: Runner) {
    && (r.end.Exit? <==> r.cmd.Some?)
    && (r.end.Exit? || r.end.Raised?)
    && (r.cmd.Some? ==> r.cmd.value == LaunchedCommand(a, w, kdrive, dirBuild))
    && (r.cmd.Some? ==> exists q: Proc ::
          && r.end == Exit(AfterCall(q, Argv(r.cmd.value), run).1)
          && r.proc == AfterCall(q, Argv(r.cmd.value), run).0)
  }

  /** The variables the last stages set, as the builder sees them. */
  predicate LaunchEnv(env: map<string, string>, a: Args, w: World, kdrive: string) {
    && "CGR_APPSDK_PATH" in env && env["CGR_APPSDK_PATH"] == AppsdkPath(DirSource(a), w.hostOs)
    && "CGR_APPSDK_VERSION" in env && env["CGR_APPSDK_VERSION"] == AppsdkVersion
    && "CGR_BUILD_TYPE" in env && env["CGR_BUILD_TYPE"] == a.buildType
    && "jenkins_kdrive_path" in env && env["jenkins_kdrive_path"] == kdrive
  }

  lemma LaunchEnvSet(a: Args, w: World, kdrive: string, env: map<string, string>)
    ensures LaunchEnv(AppsdkEnv(a, w, env)["jenkins_kdrive_path" := kdrive], a, w, kdrive)
  {
    assert |"CGR_APPSDK_PATH"| == 15 && |"CGR_APPSDK_VERSION"| == 18;
    assert |"CGR_BUILD_TYPE"| == 14 && |"jenkins_kdrive_path"| == 19;
  }

  /** The last stage starts the builder with the assembled command line
      exactly when the prebuilt-libs directory exists or can be made, in
      the environment it was given plus the kdrive variable, and ends
      with the builder's exit status. */
  lemma LaunchStage(a: Args, w: World, kdrive: string, dirBuild: string, p: Proc, run: Runner)
    ensures var r := LaunchSpec(a, w, kdrive, dirBuild, p, run);
      && Launched(r, a, w, kdrive, dirBuild, run)
      && (r.cmd.Some? ==> r.proc.env == p.env["jenkins_kdrive_path" := kdrive] && r.proc.cwd == p.cwd)
  {
    var r := LaunchSpec(a, w, kdrive, dirBuild, p, run);
    if r.cmd.Some? {
      var libs := LaunchDirs(a, kdrive, dirBuild).libs;
      var p1 := p.(env := p.env["jenkins_kdrive_path" := kdrive]);
      var p2 := if Exists(p1, libs) then p1 else AfterMakedirs(p1, libs).value;
      assert r.end == Exit(AfterCall(p2, Argv(r.cmd.value), run).1);
    }
  }

  lemma SourcesStage(a: Args, w: World, kdrive: string, dirBuild: string, p: Proc, run: Runner)
    ensures var r := SourcesSpec(a, w, kdrive, dirBuild, p, run);
      && Launched(r, a, w, kdrive, dirBuild, run)
      && (r.cmd.Some? ==> r.proc.env == AppsdkEnv(a, w, p.env)["jenkins_kdrive_path" := kdrive])
  {
    var dirSource := DirSource(a);
    match AfterChdir(p, dirSource)
    case None =>
    case Some(p1) =>
      var p2 := AfterRemoveTree(p1, PathJoin(dirSource, "blender"));
      var p3 := p2.(fs := w.fetchRepos(p2));
      match AfterChdir(p3, dirBuild)
      case None =>
      case Some(p4) =>
        assert p4.env == p.env;
        LaunchStage(a, w, kdrive, dirBuild, p4.(env := AppsdkEnv(a, w, p4.env)), run);
  }

  lemma NinjaStage(a: Args, w: World, cgrepo: string, kdrive: string, dirBuild: string, p: Proc, run: Runner)
    ensures var r := NinjaSpec(a, w, cgrepo, kdrive, dirBuild, p, run);
      && Launched(r, a, w, kdrive, dirBuild, run)
      && (r.cmd.Some? ==>
            && NinjaPath(w, cgrepo, p.env).Some? && "PATH" in p.env
            && r.proc.env == AppsdkEnv(a, w, p.env["PATH" := NinjaPath(w, cgrepo, p.env).value + PathSep(w) + p.env["PATH"]])
                               ["jenkins_kdrive_path" := kdrive])
  {
    match NinjaPath(w, cgrepo, p.env)
    case None =>
    case Some(ninja) =>
      if "PATH" in p.env {
        SourcesStage(a, w, kdrive, dirBuild, p.(env := p.env["PATH" := ninja + PathSep(w) + p.env["PATH"]]), run);
      }
  }

  lemma WorkspaceStage(a: Args, w: World, cgrepo: string, kdrive: string, dirBuild: string, p: Proc, run: Runner)
    ensures var r := WorkspaceSpec(a, w, cgrepo, kdrive, dirBuild, p, run);
      && Launched(r, a, w, kdrive, dirBuild, run)
      && (r.cmd.Some? ==>
            && NinjaPath(w, cgrepo, p.env).Some? && "PATH" in p.env
            && r.proc.env == AppsdkEnv(a, w, p.env["PATH" := NinjaPath(w, cgrepo, p.env).value + PathSep(w) + p.env["PATH"]])
                               ["jenkins_kdrive_path" := kdrive])
  {
    match PrepareWorkspace(DirSource(a), p)
    case None =>
    case Some(p1) =>
      assert p1.env == p.env;
      NinjaStage(a, w, cgrepo, kdrive, dirBuild, p1, run);
  }

  /** After `VRAY_CGREPO_PATH` is found, `main` ends through `sys.exit`
      exactly when it started the builder, and then with the command line
      assembled from the arguments and the AppSDK and kdrive variables in
      the builder's environment. */
  lemma MainLaunch(a: Args, w: World, p: Proc, run: Runner)
    requires CgrepoKey in p.env
    ensures var kdrive := Kdrive(p.env[CgrepoKey], w.hostOs);
      var r := MainSpec(a, w, p, run);
      && Launched(r, a, w, kdrive, p.cwd, run)
      && (r.cmd.Some? ==> LaunchEnv(r.proc.env, a, w, kdrive))
  {
    ProxiesKeepCgrepo(p.env);
    ToolchainStage(a, w, p.env[CgrepoKey], p.cwd, p.(env := WithProxies(p.env)), run);
  }

  /** From the tool chain on: the builder started with the assembled
      command line, in an environment with the launch variables, or an
      exception. */
  lemma ToolchainStage(a: Args, w: World, cgrepo: string, dirBuild: string, p: Proc, run: Runner)
    ensures var kdrive := Kdrive(cgrepo, w.hostOs);
      var r := ToolchainSpec(a, w, cgrepo, dirBuild, p, run);
      && Launched(r, a, w, kdrive, dirBuild, run)
      && (r.cmd.Some? ==> LaunchEnv(r.proc.env, a, w, kdrive))
  {
    var kdrive := Kdrive(cgrepo, w.hostOs);
    if !w.win32 {
      WorkspaceLaunch(a, w, cgrepo, kdrive, dirBuild, p, run);
    } else {
      var m := SetupMsvcSpec(p.env, kdrive);
      if m.error.None? {
        WorkspaceLaunch(a, w, cgrepo, kdrive, dirBuild, p.(env := m.env), run);
      }
    }
  }

  /** The workspace stage leaves the launch variables set. */
  lemma WorkspaceLaunch(a: Args, w: World, cgrepo: string, kdrive: string, dirBuild: string, p: Proc, run: Runner)
    ensures var r := WorkspaceSpec(a, w, cgrepo, kdrive, dirBuild, p, run);
      && Launched(r, a, w, kdrive, dirBuild, run)
      && (r.cmd.Some? ==> LaunchEnv(r.proc.env, a, w, kdrive))
  {
    WorkspaceStage(a, w, cgrepo, kdrive, dirBuild, p, run);
    var r := WorkspaceSpec(a, w, cgrepo, kdrive, dirBuild, p, run);
    if r.cmd.Some? {
      var path := NinjaPath(w, cgrepo, p.env).value + PathSep(w) + p.env["PATH"];
      LaunchEnvSet(a, w, kdrive, p.env["PATH" := path]);
    }
  }

  /** The command line of a launched run: the interpreter, the build
      script, the jenkins switch, the workspace and the build directory
      first; the normalised build mode; the minimal-build switch exactly
      for a minimal build; the install and release directories under the
      output directory last. */
  lemma LaunchedCommandShape(a: Args, w: World, kdrive: string, dirBuild: string)
    ensures var c := LaunchedCommand(a, w, kdrive, dirBuild);
      && c[..5] == [w.pythonExe, BuildScript, "--jenkins", DirSourceOpt + DirSource(a), DirBuildOpt + dirBuild]
      && ModeOpt + NormalisedMode(a.buildMode) in c
      && (MinimalOpt in c[1..] <==> MinimalBuild(a))
      && c[|c| - 2] == InstallOpt + OutputDir(a.output, "install")
      && c[|c| - 1] == ReleaseOpt + OutputDir(a.output, "release")
  {
    var d := LaunchDirs(a, kdrive, dirBuild);
    CommandFrame(a, w, MinimalBuild(a), NormalisedMode(a.buildMode), d);
    ConditionalOptions(a, w, MinimalBuild(a), NormalisedMode(a.buildMode), d);
  }

  // ---------------------------------------------------------------------
  // main, step by step on the host

  /** The build-mode rewrite at the top of `main`. */
  method NormaliseMode(a: Args) returns (minimal: bool, a': Args)
    ensures minimal == MinimalBuild(a)
    ensures a' == a.(buildMode := NormalisedMode(a.buildMode))
  {
    minimal := false;
    a' := a;
    if a.buildMode == "default" {
      minimal := a.minimalBuild in ["1", "yes", "true"];
      a' := a'.(buildMode := "nightly");
    }
  }

  /** `main` on the host. */
  method RunMain(host: Machine, a: Args, w: World, run: Runner) returns (end: Termination, cmd: Option<seq<string>>)
    modifies host
    ensures JenkinsRun(end, cmd, host.State()) == MainSpec(a, w, old(host.State()), run)
  {
    var dirBuild := host.cwd;
    host.SetEnv("http_proxy", "http://10.0.0.1:1234/");
    host.SetEnv("https_proxy", "https://10.0.0.1:1234/");
    host.SetEnv("ftp_proxy", "10.0.0.1:1234");
    host.SetEnv("socks_proxy", "10.0.0.1:1080");
    assert host.State() == old(host.State()).(env := WithProxies(old(host.env)));
    if CgrepoKey !in host.env {
      return Raised("KeyError"), None;
    }
    end, cmd := RunToolchain(host, a, w, host.env[CgrepoKey], dirBuild, run);
  }

  method RunToolchain(host: Machine, a: Args, w: World, cgrepo: string, dirBuild: string, run: Runner)
    returns (end: Termination, cmd: Option<seq<string>>)
    modifies host
    ensures JenkinsRun(end, cmd, host.State()) == ToolchainSpec(a, w, cgrepo, dirBuild, old(host.State()), run)
  {
    var kdrive := Kdrive(cgrepo, w.hostOs);
    if w.win32 {
      var error := SetupMsvc2013(host, kdrive);
      if error.Some? {
        return Raised(error.value), None;
      }
    }
    end, cmd := RunWorkspace(host, a, w, cgrepo, kdrive, dirBuild, run);
  }

  method RunWorkspace(host: Machine, a: Args, w: World, cgrepo: string, kdrive: string, dirBuild: string, run: Runner)
    returns (end: Termination, cmd: Option<seq<string>>)
    modifies host
    ensures JenkinsRun(end, cmd, host.State()) == WorkspaceSpec(a, w, cgrepo, kdrive, dirBuild, old(host.State()), run)
  {
    var dirSource := DirSource(a);
    if !Exists(host.State(), dirSource) {
      var ok := host.Makedirs(dirSource);
      if !ok {
        return Raised("OSError"), None;
      }
    } else {
      var lock := LockFile(dirSource);
      if Exists(host.State(), lock) {
        host.RemoveTree(lock);
      }
    }
    var ninja := NinjaPath(w, cgrepo, host.env);
    if ninja.None? || "PATH" !in host.env {
      return Raised("KeyError"), None;
    }
    host.SetEnv("PATH", ninja.value + PathSep(w) + host.env["PATH"]);
    end, cmd := RunSources(host, a, w, kdrive, dirBuild, run);
  }

  method RunSources(host: Machine, a: Args, w: World, kdrive: string, dirBuild: string, run: Runner)
    returns (end: Termination, cmd: Option<seq<string>>)
    modifies host
    ensures JenkinsRun(end, cmd, host.State()) == SourcesSpec(a, w, kdrive, dirBuild, old(host.State()), run)
  {
    var dirSource := DirSource(a);
    var ok := host.Chdir(dirSource);
    if !ok {
      return Raised("OSError"), None;
    }
    host.RemoveTree(PathJoin(dirSource, "blender"));
    host.fs := w.fetchRepos(host.State());
    ok := host.Chdir(dirBuild);
    if !ok {
      return Raised("OSError"), None;
    }
    host.SetEnv("CGR_APPSDK_PATH", AppsdkPath(dirSource, w.hostOs));
    host.SetEnv("CGR_APPSDK_VERSION", AppsdkVersion);
    host.SetEnv("CGR_BUILD_TYPE", a.buildType);
    end, cmd := RunLaunch(host, a, w, kdrive, dirBuild, run);
  }

  method RunLaunch(host: Machine, a: Args, w: World, kdrive: string, dirBuild: string, run: Runner)
    returns (end: Termination, cmd: Option<seq<string>>)
    modifies host
    ensures JenkinsRun(end, cmd, host.State()) == LaunchSpec(a, w, kdrive, dirBuild, old(host.State()), run)
  {
    var minimal, a' := NormaliseMode(a);
    var d := LaunchDirs(a, kdrive, dirBuild);
    host.SetEnv("jenkins_kdrive_path", kdrive);
    if !Exists(host.State(), d.libs) {
      var ok := host.Makedirs(d.libs);
      if !ok {
        return Raised("OSError"), None;
      }
    }
    var args := BuildCommand(a, w, minimal, a'.buildMode, d);
    var code := host.Call(Argv(args), run);
    return Exit(code), Some(args);
  }
}
