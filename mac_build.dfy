/** `MacBuilder.compile` and `MacBuilder.package` of builder/macos.py: the
    cmake and ninja command lines, the configure/build sequence that stops
    at the first failing tool, and the release paths of the package. */
module MacBuild {
  import opened Strings
  import opened Paths
  import opened Host

  /** The helpers of the shared `utils` module the builder calls; their
      source is not part of this model, so they are parameters. */
  datatype Utils = Utils(
    cmakeOnOff: bool -> string,               // utils.GetCmakeOnOff
    pathJoin: (string, string) -> string,     // utils.path_join
    packageName: string -> string)            // utils.GetPackageName(self, ext=...)

  /** The builder attributes `compile` and `package` read. */
  datatype BuildConfig = BuildConfig(
    dirBuild: string,
    dirInstallPath: string,
    dirBlender: string,
    dirSource: string,
    dirRelease: string,
    dirCgrInstaller: string,
    buildArch: string,
    projectType: string,
    teamcity: bool,
    withGe: bool,
    withPlayer: bool,
    withTracker: bool,
    withCollada: bool,
    withCycles: bool,
    buildClean: bool,
    buildJobs: nat,
    modeTest: bool)

  // ---------------------------------------------------------------------
  // The cmake command line

  const Vb35: string := "vb35"
  const ZmqFlag: string := "-DUSE_BLENDER_VRAY_ZMQ=ON"
  const GameEngine: string := "-DWITH_GAMEENGINE="
  const Player: string := "-DWITH_PLAYER="
  const Libmv: string := "-DWITH_LIBMV="
  const Collada: string := "-DWITH_OPENCOLLADA="
  const Cycles: string := "-DWITH_CYCLES="
  const InstallPrefix: string := "-DCMAKE_INSTALL_PREFIX="
  const ManualBuildinfo: string := "-DWITH_MANUAL_BUILDINFO="

  /** The options every configuration passes. */
  function CmakeHead(cfg: BuildConfig, u: Utils): seq<string> {
    [ "cmake", "-G", "Ninja", "-DCMAKE_BUILD_TYPE=Release",
      InstallPrefix + cfg.dirInstallPath,
      "-DWITH_VRAY_FOR_BLENDER=ON",
      ManualBuildinfo + u.cmakeOnOff(cfg.teamcity),
      "-DPNG_LIBRARIES=png12",
      "-DWITH_ALEMBIC=ON" ]
  }

  /** The fixed feature set of the `vb35` project type. */
  function Vb35Features(cfg: BuildConfig, u: Utils): seq<string> {
    [ ZmqFlag,
      "-DLIBS_ROOT=" + u.pathJoin(cfg.dirSource, "blender-for-vray-libs"),
      "-DWITH_CXX11=ON",
      GameEngine + "OFF",
      Player + "OFF",
      Libmv + "OFF",
      Collada + "OFF",
      Cycles + "ON",
      "-DWITH_MOD_OCEANSIM=OFF",
      "-DWITH_OPENCOLORIO=ON",
      "-DWITH_OPENIMAGEIO=ON",
      "-DWITH_IMAGE_OPENEXR=OFF",
      "-DWITH_IMAGE_OPENJPEG=OFF",
      "-DWITH_FFTW3=OFF",
      "-DWITH_CODEC_FFMPEG=OFF",
      "-DCMAKE_OSX_DEPLOYMENT_TARGET=" ]
  }

  /** The features of every other project type, following the builder's
      toggles. */
  function ToggledFeatures(cfg: BuildConfig, u: Utils): seq<string> {
    [ GameEngine + u.cmakeOnOff(cfg.withGe),
      Player + u.cmakeOnOff(cfg.withPlayer),
      Libmv + u.cmakeOnOff(cfg.withTracker),
      Collada + u.cmakeOnOff(cfg.withCollada),
      Cycles + u.cmakeOnOff(cfg.withCycles),
      "-DWITH_MOD_OCEANSIM=ON",
      "-DWITH_FFTW3=ON" ]
  }

  function Features(cfg: BuildConfig, u: Utils): seq<string> {
    if cfg.projectType == Vb35 then Vb35Features(cfg, u) else ToggledFeatures(cfg, u)
  }

  /** The `cmake` list `compile` passes to `subprocess.call`. */
  function CmakeArgs(cfg: BuildConfig, u: Utils): seq<string> {
    CmakeHead(cfg, u) + Features(cfg, u) + [cfg.dirBlender]
  }

  /** The list starts with the generator, build type and install prefix
      and ends with the Blender source directory. */
  lemma CmakeArgsFrame(cfg: BuildConfig, u: Utils)
    ensures var a := CmakeArgs(cfg, u);
      && |a| == (if cfg.projectType == Vb35 then 26 else 17)
      && a[..5] == ["cmake", "-G", "Ninja", "-DCMAKE_BUILD_TYPE=Release", InstallPrefix + cfg.dirInstallPath]
      && a[|a| - 1] == cfg.dirBlender
  {
    var a := CmakeArgs(cfg, u);
    assert a[..5] == CmakeHead(cfg, u)[..5];
  }

  /** For `vb35` the game engine, player, motion tracking and collada are
      off and cycles is on, whatever the toggles say. */
  lemma Vb35IgnoresToggles(cfg: BuildConfig, cfg': BuildConfig, u: Utils)
    requires cfg.projectType == Vb35
    requires cfg' == cfg.(withGe := cfg'.withGe, withPlayer := cfg'.withPlayer, withTracker := cfg'.withTracker,
                          withCollada := cfg'.withCollada, withCycles := cfg'.withCycles)
    ensures CmakeArgs(cfg, u) == CmakeArgs(cfg', u)
    ensures var a := CmakeArgs(cfg, u);
      && GameEngine + "OFF" in a && Player + "OFF" in a && Libmv + "OFF" in a
      && Collada + "OFF" in a && Cycles + "ON" in a
  {
    var a := CmakeArgs(cfg, u);
    assert a[12] == GameEngine + "OFF" && a[13] == Player + "OFF" && a[14] == Libmv + "OFF";
    assert a[15] == Collada + "OFF" && a[16] == Cycles + "ON";
  }

  /** For the other project types the same five options carry the
      toggles, in the order game engine, player, tracker, collada, cycles. */
  lemma TogglesFollowed(cfg: BuildConfig, u: Utils)
    requires cfg.projectType != Vb35
    ensures CmakeArgs(cfg, u)[9..14] ==
      [ GameEngine + u.cmakeOnOff(cfg.withGe), Player + u.cmakeOnOff(cfg.withPlayer),
        Libmv + u.cmakeOnOff(cfg.withTracker), Collada + u.cmakeOnOff(cfg.withCollada),
        Cycles + u.cmakeOnOff(cfg.withCycles) ]
  {
  }

  /** Outside `vb35` a toggle that changes changes the command line, as
      long as the helper spells `True` and `False` differently. */
  lemma ToggleMatters(cfg: BuildConfig, u: Utils)
    requires cfg.projectType != Vb35
    requires u.cmakeOnOff(true) != u.cmakeOnOff(false)
    ensures CmakeArgs(cfg, u) != CmakeArgs(cfg.(withGe := !cfg.withGe), u)
  {
    var a := CmakeArgs(cfg, u);
    var b := CmakeArgs(cfg.(withGe := !cfg.withGe), u);
    assert a[9] == GameEngine + u.cmakeOnOff(cfg.withGe);
    assert b[9] == GameEngine + u.cmakeOnOff(!cfg.withGe);
    assert a[9][|GameEngine|..] != b[9][|GameEngine|..];
  }

  /** The third character tells the ZMQ option apart from every option
      outside `vb35`. */
  predicate NotZmq(e: string) {
    |e| < 3 || e[2] != 'U'
  }

  lemma ThirdChar(x: string, y: string)
    requires |x| >= 3 && x[2] != 'U'
    ensures NotZmq(x + y)
  {
    assert (x + y)[2] == x[2];
  }

  lemma HeadNotZmq(cfg: BuildConfig, u: Utils)
    ensures forall k :: 0 <= k < |CmakeHead(cfg, u)| ==> NotZmq(CmakeHead(cfg, u)[k])
  {
    ThirdChar(InstallPrefix, cfg.dirInstallPath);
    ThirdChar(ManualBuildinfo, u.cmakeOnOff(cfg.teamcity));
  }

  lemma TogglesNotZmq(cfg: BuildConfig, u: Utils)
    ensures forall k :: 0 <= k < |ToggledFeatures(cfg, u)| ==> NotZmq(ToggledFeatures(cfg, u)[k])
  {
    ThirdChar(GameEngine, u.cmakeOnOff(cfg.withGe));
    ThirdChar(Player, u.cmakeOnOff(cfg.withPlayer));
    ThirdChar(Libmv, u.cmakeOnOff(cfg.withTracker));
    ThirdChar(Collada, u.cmakeOnOff(cfg.withCollada));
    ThirdChar(Cycles, u.cmakeOnOff(cfg.withCycles));
  }

  /** The ZMQ server option is passed (before the source directory)
      exactly for the `vb35` project type. */
  lemma ZmqOnlyForVb35(cfg: BuildConfig, u: Utils)
    ensures var a := CmakeArgs(cfg, u);
      ZmqFlag in a[..|a| - 1] <==> cfg.projectType == Vb35
  {
    var a := CmakeArgs(cfg, u);
    var head, features := CmakeHead(cfg, u), Features(cfg, u);
    assert a[..|a| - 1] == head + features;
    if cfg.projectType == Vb35 {
      assert a[9] == ZmqFlag;
    } else {
      HeadNotZmq(cfg, u);
      TogglesNotZmq(cfg, u);
      assert !NotZmq(ZmqFlag);
      forall k | 0 <= k < |head + features|
        ensures (head + features)[k] != ZmqFlag
      {
        if k < |head| {
          assert (head + features)[k] == head[k];
        } else {
          assert (head + features)[k] == features[k - |head|];
        }
      }
    }
  }

  /** The `make` list: ninja with the builder's job count, then `install`. */
  function NinjaArgs(jobs: nat): (r: seq<string>)
    ensures |r| == 3 && r[0] == "ninja" && r[2] == "install"
    ensures StartsWith(r[1], "-j") && r[1][2..] == NatToString(jobs)
  {
    ["ninja", "-j" + NatToString(jobs), "install"]
  }

  // ---------------------------------------------------------------------
  // compile

  /** `os.path.join(self.dir_build, "blender-cmake-build")`. */
  function CmakeBuildDir(cfg: BuildConfig): string {
    PathJoin(cfg.dirBuild, "blender-cmake-build")
  }

  /** What `compile` does: the end, the tools it started, and the state it
      leaves. */
  datatype CompileRun = CompileRun(end: Termination, issued: seq<Command>, proc: Proc)

  /** A clean build removes an existing build directory first. */
  function Cleaned(cfg: BuildConfig, p: Proc): Proc {
    var dir := CmakeBuildDir(cfg);
    if cfg.buildClean && Exists(p, dir) then AfterRemoveTree(p, dir) else p
  }

  /** Clean and create the cmake build directory; `None` when
      `os.makedirs` raises. */
  function PrepareBuildDir(cfg: BuildConfig, p: Proc): Option<Proc> {
    var dir := CmakeBuildDir(cfg);
    var p1 := Cleaned(cfg, p);
    if Exists(p1, dir) then Some(p1) else AfterMakedirs(p1, dir)
  }

  function CompileSpec(cfg: BuildConfig, u: Utils, p: Proc, run: Runner): CompileRun {
    match PrepareBuildDir(cfg, p)
    case None => CompileRun(Raised("OSError"), [], Cleaned(cfg, p))
    case Some(p1) => ConfigureAndBuild(cfg, u, p1, run)
  }

  /** `self.write_buildinfo(cmake_build_dir)`, run between the two tools. */
  function BuildinfoCall(cfg: BuildConfig): Command {
    Helper("write_buildinfo", [CmakeBuildDir(cfg)])
  }

  /** Configuring and building inside the prepared build directory. */
  function ConfigureAndBuild(cfg: BuildConfig, u: Utils, p1: Proc, run: Runner): CompileRun {
      match AfterChdir(p1, CmakeBuildDir(cfg))
      case None => CompileRun(Raised("OSError"), [], p1)
      case Some(p2) =>
        var cmake := Argv(CmakeArgs(cfg, u));
        var c := AfterCall(p2, cmake, run);
        if c.1 != 0 then CompileRun(Exit(1), [cmake], c.0)
        else
          var b := AfterCall(c.0, BuildinfoCall(cfg), run).0;
          var make := Argv(NinjaArgs(cfg.buildJobs));
          var m := AfterCall(b, make, run);
          CompileRun(if m.1 != 0 then Exit(1) else Returned, [cmake, make], m.0)
  }

  /** A clean build of an existing build directory starts from an empty
      one: whatever was below it is gone, and the directory exists. */
  lemma CleanBuildDirIsFresh(cfg: BuildConfig, p: Proc)
    requires cfg.buildClean && Exists(p, CmakeBuildDir(cfg))
    requires PrepareBuildDir(cfg, p).Some?
    ensures var q := PrepareBuildDir(cfg, p).value;
      && IsDir(q, CmakeBuildDir(cfg))
      && forall k :: k in q.fs && Within(k, Resolve(p, CmakeBuildDir(cfg))) ==> k == Resolve(p, CmakeBuildDir(cfg))
  {
    var dir := CmakeBuildDir(cfg);
    var p1 := Cleaned(cfg, p);
    assert p1 == AfterRemoveTree(p, dir);
    var q := AfterMakedirs(p1, dir).value;
    assert Resolve(p1, dir) == Resolve(p, dir);
    forall k | k in q.fs && Within(k, Resolve(p, dir))
      ensures k == Resolve(p, dir)
    {
      if k in Ancestors(Resolve(p, dir)) {
        AncestorNotWithin(k, Resolve(p, dir));
      }
    }
  }

  /** A proper ancestor is shorter than the path, so not within it. */
  lemma AncestorNotWithin(a: string, q: string)
    requires a in Ancestors(q)
    ensures !Within(a, q)
  {
  }

  /** A configure failure ends the build with exit code 1 and ninja never
      starts; ninja starts exactly when configuration succeeds, and it is
      the last tool started. A failed build exits 1 as well, so `compile`
      returns exactly when both tools exit 0; without a build directory to
      enter nothing starts and an `OSError` ends it. */
  lemma CompileStopsAtConfigure(cfg: BuildConfig, u: Utils, p: Proc, run: Runner)
    ensures var r := CompileSpec(cfg, u, p, run);
      && |r.issued| <= 2
      && (|r.issued| > 0 ==> r.issued[0] == Argv(CmakeArgs(cfg, u)))
      && (|r.issued| == 2 <==> |r.issued| > 0 && AfterCall(AfterChdir(PrepareBuildDir(cfg, p).value, CmakeBuildDir(cfg)).value, r.issued[0], run).1 == 0)
      && (|r.issued| == 2 ==> r.issued[1] == Argv(NinjaArgs(cfg.buildJobs)))
      && (|r.issued| == 1 ==> r.end == Exit(1))
      && (|r.issued| == 0 <==> r.end == Raised("OSError"))
      && (r.end.Exit? ==> r.end == Exit(1))
      && (|r.issued| == 2 ==>
            var c := AfterCall(AfterChdir(PrepareBuildDir(cfg, p).value, CmakeBuildDir(cfg)).value, r.issued[0], run);
            (r.end == Returned <==> AfterCall(AfterCall(c.0, BuildinfoCall(cfg), run).0, r.issued[1], run).1 == 0))
      && (r.end == Returned ==> |r.issued| == 2)
  {
  }

  /** The `cmake` list, appended option by option as `compile` does. */
  method BuildCmakeList(cfg: BuildConfig, u: Utils) returns (cmake: seq<string>)
    ensures cmake == CmakeArgs(cfg, u)
  {
    cmake := ["cmake"];
    cmake := cmake + ["-G"];
    cmake := cmake + ["Ninja"];
    cmake := cmake + ["-DCMAKE_BUILD_TYPE=Release"];
    cmake := cmake + [InstallPrefix + cfg.dirInstallPath];
    cmake := cmake + ["-DWITH_VRAY_FOR_BLENDER=ON"];
    cmake := cmake + [ManualBuildinfo + u.cmakeOnOff(cfg.teamcity)];
    cmake := cmake + ["-DPNG_LIBRARIES=png12"];
    cmake := cmake + ["-DWITH_ALEMBIC=ON"];
    assert cmake == CmakeHead(cfg, u);
    if cfg.projectType == Vb35 {
      cmake := cmake + Vb35Features(cfg, u);
    } else {
      cmake := cmake + ToggledFeatures(cfg, u);
    }
    cmake := cmake + [cfg.dirBlender];
  }

  /** `compile` on the host. */
  method Compile(host: Machine, cfg: BuildConfig, u: Utils, run: Runner)
    returns (end: Termination, issued: seq<Command>)
    modifies host
    ensures CompileRun(end, issued, host.State()) == CompileSpec(cfg, u, old(host.State()), run)
  {
    var prepared := PrepareOn(host, cfg);
    if !prepared {
      return Raised("OSError"), [];
    }
    end, issued := BuildOn(host, cfg, u, run);
  }

  /** The build directory steps of `compile`; `ok` is false when
      `os.makedirs` raises. */
  method PrepareOn(host: Machine, cfg: BuildConfig) returns (ok: bool)
    modifies host
    ensures ok == PrepareBuildDir(cfg, old(host.State())).Some?
    ensures ok ==> host.State() == PrepareBuildDir(cfg, old(host.State())).value
    ensures !ok ==> host.State() == Cleaned(cfg, old(host.State()))
  {
    var dir := CmakeBuildDir(cfg);
    ghost var p := host.State();
    ghost var p1 := Cleaned(cfg, p);
    if cfg.buildClean && Exists(host.State(), dir) {
      host.RemoveTree(dir);
    }
    assert host.State() == p1;
    ok := true;
    if !Exists(host.State(), dir) {
      ok := host.Makedirs(dir);
    }
    assert ok ==> PrepareBuildDir(cfg, p) == Some(host.State());
  }

  /** The configure and build steps of `compile`. */
  method BuildOn(host: Machine, cfg: BuildConfig, u: Utils, run: Runner)
    returns (end: Termination, issued: seq<Command>)
    modifies host
    ensures CompileRun(end, issued, host.State()) == ConfigureAndBuild(cfg, u, old(host.State()), run)
  {
    var cmake := BuildCmakeList(cfg, u);
    var ok := host.Chdir(CmakeBuildDir(cfg));
    if !ok {
      return Raised("OSError"), [];
    }
    ghost var p2 := host.State();
    var res := host.Call(Argv(cmake), run);
    issued := [Argv(cmake)];
    if res != 0 {
      return Exit(1), issued;
    }
    ghost var c := host.State();
    assert (c, res) == AfterCall(p2, Argv(CmakeArgs(cfg, u)), run);
    var _ := host.Call(BuildinfoCall(cfg), run);
    ghost var b := host.State();
    assert b == AfterCall(c, BuildinfoCall(cfg), run).0;
    var make := ["ninja"];
    make := make + ["-j" + NatToString(cfg.buildJobs)];
    make := make + ["install"];
    assert make == NinjaArgs(cfg.buildJobs);
    res := host.Call(Argv(make), run);
    issued := issued + [Argv(make)];
    end := if res != 0 then Exit(1) else Returned;
  }

  // ---------------------------------------------------------------------
  // package

  /** `"macos" + "/" + self.build_arch`. */
  function Subdir(cfg: BuildConfig): string {
    "macos/" + cfg.buildArch
  }

  function ReleasePath(cfg: BuildConfig, u: Utils): string {
    u.pathJoin(cfg.dirRelease, Subdir(cfg))
  }

  /** The installer path with the first and every later `.dmg` spelt
      `.zip`. */
  function ArchivePath(cfg: BuildConfig, u: Utils): string {
    Replace(u.pathJoin(ReleasePath(cfg, u), u.packageName("dmg")), ".dmg", ".zip")
  }

  /** What `package` returns and the artefacts it announces. */
  datatype Packaged = Packaged(subdir: string, archive: string, artefacts: seq<string>)

  function PackageResult(cfg: BuildConfig, u: Utils): Packaged {
    var release := ReleasePath(cfg, u);
    Packaged(Subdir(cfg), ArchivePath(cfg, u),
             [ PathJoin(release, u.packageName("dmg")),
               PathJoin(release, u.packageName("bin")),
               PathJoin(release, u.packageName("zip")) ])
  }

  /** `"zip %s %s" % (archive_name, installer_name)`. */
  function ZipLine(u: Utils): string {
    "zip " + u.packageName("zip") + " " + u.packageName("dmg")
  }

  /** The returned path is the installer path with its `.dmg` suffix
      replaced by `.zip`; one without `.dmg` comes back unchanged. */
  lemma ArchiveIsZip(cfg: BuildConfig, u: Utils, stem: string)
    requires u.pathJoin(ReleasePath(cfg, u), u.packageName("dmg")) == stem + ".dmg"
    requires !Contains(stem, ".dmg")
    ensures ArchivePath(cfg, u) == stem + ".zip"
    ensures PackageResult(cfg, u).subdir == "macos/" + cfg.buildArch
  {
    assert ".dmg"[0] !in ".dmg"[1..];
    ReplaceTrailing(stem, ".dmg", ".zip");
    ReplaceAbsent(stem, ".dmg", ".zip");
  }

  lemma ArchiveWithoutDmg(cfg: BuildConfig, u: Utils)
    requires !Contains(u.pathJoin(ReleasePath(cfg, u), u.packageName("dmg")), ".dmg")
    ensures ArchivePath(cfg, u) == u.pathJoin(ReleasePath(cfg, u), u.packageName("dmg"))
  {
    ReplaceAbsent(u.pathJoin(ReleasePath(cfg, u), u.packageName("dmg")), ".dmg", ".zip");
  }

  /** Every announced artefact lies in the release directory (for
      relative package names). */
  lemma ArtefactsInRelease(cfg: BuildConfig, u: Utils)
    requires forall ext :: !IsAbsolute(u.packageName(ext))
    ensures var r := PackageResult(cfg, u);
      && |r.artefacts| == 3
      && forall k :: 0 <= k < 3 ==> StartsWith(r.artefacts[k], ReleasePath(cfg, u))
  {
    var release := ReleasePath(cfg, u);
    var a := PackageResult(cfg, u).artefacts;
    assert a == [PathJoin(release, u.packageName("dmg")), PathJoin(release, u.packageName("bin")),
                 PathJoin(release, u.packageName("zip"))];
    assert !IsAbsolute(u.packageName("dmg")) && !IsAbsolute(u.packageName("bin")) && !IsAbsolute(u.packageName("zip"));
  }

  /** What `package` does to the host: outside test mode it creates the
      release directory, enters it and runs `zip`. */
  datatype PackageRun = PackageRun(end: Termination, result: Packaged, proc: Proc)

  /** `utils.GenCGRInstaller(self, archive_path, InstallerDir=self.dir_cgr_installer)`,
      run in test mode too. */
  function InstallerCall(cfg: BuildConfig, u: Utils): Command {
    Helper("GenCGRInstaller", [u.pathJoin(ReleasePath(cfg, u), u.packageName("dmg")), cfg.dirCgrInstaller])
  }

  function PackageSpec(cfg: BuildConfig, u: Utils, p: Proc, run: Runner): PackageRun {
    var r := PackageResult(cfg, u);
    var release := ReleasePath(cfg, u);
    if cfg.modeTest then PackageRun(Returned, r, AfterCall(p, InstallerCall(cfg, u), run).0)
    else
      var made := if Exists(p, release) then Some(p) else AfterMakedirs(p, release);
      match made
      case None => PackageRun(Raised("OSError"), r, p)
      case Some(p1) =>
        var p2 := AfterCall(p1, InstallerCall(cfg, u), run).0;
        match AfterChdir(p2, release)
        case None => PackageRun(Raised("OSError"), r, p2)
        case Some(p3) => PackageRun(Returned, r, AfterCall(p3, Shell(ZipLine(u)), run).0)
  }

  /** In test mode `package` returns after the installer generator alone,
      in the directory and environment it started with; it always returns
      the same paths; exit codes have no influence; outside test mode,
      when it returns, it is inside the release directory. */
  lemma PackageEffects(cfg: BuildConfig, u: Utils, p: Proc, run: Runner, run': Runner)
    requires forall c, q :: run(c, q).fs == run'(c, q).fs
    ensures cfg.modeTest ==>
              var r := PackageSpec(cfg, u, p, run);
              && r.end == Returned && r.proc.cwd == p.cwd && r.proc.env == p.env
              && r.proc.fs == run(InstallerCall(cfg, u), p).fs
    ensures PackageSpec(cfg, u, p, run) == PackageSpec(cfg, u, p, run')
    ensures PackageSpec(cfg, u, p, run).result == PackageResult(cfg, u)
    ensures !cfg.modeTest && PackageSpec(cfg, u, p, run).end == Returned ==>
              PackageSpec(cfg, u, p, run).proc.cwd == Resolve(p, ReleasePath(cfg, u))
  {
  }

  /** `package` on the host. */
  method Package(host: Machine, cfg: BuildConfig, u: Utils, run: Runner)
    returns (end: Termination, result: Packaged)
    modifies host
    ensures PackageRun(end, result, host.State()) == PackageSpec(cfg, u, old(host.State()), run)
  {
    var release := ReleasePath(cfg, u);
    result := PackageResult(cfg, u);
    end := Returned;
    if !cfg.modeTest && !Exists(host.State(), release) {
      var made := host.Makedirs(release);
      if !made {
        return Raised("OSError"), result;
      }
    }
    var _ := host.Call(InstallerCall(cfg, u), run);
    if !cfg.modeTest {
      var ok := host.Chdir(release);
      if !ok {
        return Raised("OSError"), result;
      }
      var _ := host.Call(Shell(ZipLine(u)), run);
    }
  }
}
