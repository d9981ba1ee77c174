# V-Ray for Blender build wrapper — a Dafny model

This project models the parts of the V-Ray for Blender build system that
decide what gets built and where.

- **jenkins.py** is the CI entry point. It:
  - normalises the `default` build mode to `nightly` and decides whether a build is minimal;
  - sets the proxy variables;
  - on Windows, points the MSVC 2013 tool chain at the SDK (`setup_msvc_2013`);
  - prepares the dependency workspace and removes a stale git lock;
  - puts ninja in front of `PATH`, fetches the sources and sets the AppSDK variables;
  - starts `vb25-patch/build.py` with a command line it assembles option by option.
- **builder/macos.py** is the macOS builder. It:
  - installs boost from a step table (`getDepsCompilationData`) with a fail-fast runner (`DepsBuild`);
  - picks the prebuilt boost for the running macOS version and patches the checked-in libraries (`PatchLibs`);
  - assembles the cmake and ninja command lines and runs them (`MacBuilder.compile`);
  - computes the release and archive paths (`MacBuilder.package`).

Modules:

- `Strings`: the Python string operations the scripts use. These are `split`, `join`, `replace`, `rstrip`, `%d` and a `str.format` restricted to one named field.
- `Paths`: `posixpath.join`, `expanduser` and the ancestors `os.makedirs` creates.
- `Host`: the process the scripts run in.
  - `Proc` is a filesystem map, the working directory and the environment.
  - External programs, and the Python helpers `write_buildinfo` and `GenCGRInstaller`, are a `Runner` oracle. Given a command and the state it starts in, it returns an exit status and the filesystem left behind.
  - The class `Machine` holds these fields. Its methods (`Chdir`, `Makedirs`, `RemoveTree`, `RemoveFiles`, `Call`, `SetEnv`) update them in place, as `os` does.
- `MacDeps`, `MacPatch` and `MacBuild`: builder/macos.py.
- `Jenkins`: jenkins.py.

Each operation that changes state is a method on a `Machine`. Its `ensures` ties the final state and result to a specification function of the initial state. The lemmas prove properties of those functions: which options appear, when a run stops, which variables are set, and what is removed.

## Model

| member | source | states |
|---|---|---|
| Strings.Split | jenkins.py:57 | `split` gives at least one piece and no piece contains the separator |
| Strings.JoinSplit | jenkins.py:57 | joining the pieces of a split with the same separator gives back the string |
| Strings.SplitJoin | jenkins.py:57 | splitting a join of separator-free pieces gives back the pieces |
| Strings.JoinAppend | jenkins.py:53-57 | joining a concatenation of lists is joining each list with one separator between |
| Strings.IndexOf | jenkins.py:62 | the first position of a character, or none exactly when it is absent |
| Strings.FormatBraceFree | jenkins.py:62 | `str.format` leaves text without braces unchanged |
| Strings.FormatField | jenkins.py:62 | the named field followed by brace-free text formats to the value followed by that text |
| Strings.FormatAppend | jenkins.py:62 | formatting a concatenation whose first part formats is that result in front of formatting the rest |
| Strings.FormatJoin | jenkins.py:62 | formatting a list joined with a brace-free separator is joining the formatted pieces |
| Strings.FormatAllAppend | jenkins.py:53-57 | formatting each entry distributes over list concatenation |
| Strings.FormatAllBraceFree | jenkins.py:57 | brace-free entries format to themselves |
| Strings.ReplaceAbsent | builder/macos.py:338 | `replace` leaves a string without the pattern unchanged |
| Strings.ReplaceKeepsLength | builder/macos.py:65 | replacing by a same-length text keeps the length |
| Strings.ReplaceTrailing | builder/macos.py:338 | a trailing occurrence of a pattern that does not overlap itself is replaced at the end |
| Strings.RStrip | builder/macos.py:92 | the result is a prefix, does not end in the character, and only that character was dropped |
| Strings.NatToString | builder/macos.py:70-71 | decimal digits only, at least one |
| Strings.NatToStringValue | builder/macos.py:70-71 | the digits read back as `n`, and a positive `n` has no leading zero |
| Strings.NatToStringInjective | builder/macos.py:70-71 | two numbers print the same exactly when they are equal |
| Paths.PathJoin | jenkins.py:93 | an absolute second part replaces the first; otherwise the result starts with the first and ends with the second |
| Paths.PathJoinPlain | jenkins.py:93 | plain parts are glued with exactly one `/` |
| Paths.PathJoin3Plain | jenkins.py:93 | `join(a, b, c)` with plain parts is `a/b/c` |
| Paths.ExpandHome | builder/macos.py:92 | `~/x` expands to the home directory without its trailing separators, followed by `/x` |
| Host.AfterChdir | jenkins.py:126 | `chdir` succeeds exactly on an existing directory, and then only the working directory changes |
| Host.AfterMakedirs | jenkins.py:99-100 | `makedirs` fails exactly when blocked; on success the path is a directory, old entries are kept and only the path and its ancestors are new |
| Host.AfterRemoveTree | jenkins.py:127 | tree removal deletes exactly the path and what lies below it |
| Host.AfterCall | jenkins.py:221 | a subprocess changes only the filesystem, as the oracle says, and yields the oracle's exit status |
| Host.Machine.Chdir | builder/macos.py:208 | the new state is `AfterChdir` when the directory exists; otherwise nothing changes |
| Host.Machine.Makedirs | builder/macos.py:100-101 | the new state is `AfterMakedirs` when not blocked; otherwise nothing changes |
| Host.Machine.RemoveTree | builder/macos.py:141-142 | the new state is `AfterRemoveTree` |
| Host.Machine.RemoveFiles | builder/macos.py:53-55 | exactly the given paths leave the filesystem |
| Host.Machine.Call | builder/macos.py:133 | state and exit status are `AfterCall` |
| Host.Machine.SetEnv | jenkins.py:60 | only the one variable changes |
| MacDeps.BoostUnderscoredIsReplace | builder/macos.py:65-67 | the archive spelling `1_61_0` is `BOOST_VERSION.replace('.', '_')` |
| MacDeps.DepsTable | builder/macos.py:62-78 | one unit, `boost`, with ten actions and marker `prefix/boost-1.61.0` |
| MacDeps.BoostActionKinds | builder/macos.py:63-75 | the kinds of the ten actions in order: chdir, download, five commands around a chdir, and the dylib removal |
| MacDeps.BoostFetchConsistent | builder/macos.py:64-68 | the download goes to the directory entered first, is extracted under its saved name, and the renamed tree inside that directory is entered next |
| MacDeps.BoostRenameConsistent | builder/macos.py:65-67 | the tree named in the URL is the one the rename moves to `boost-1.61.0` |
| MacDeps.BoostInstallConsistent | builder/macos.py:70-74 | b2 installs into the completion marker, the marker is linked as `prefix/boost`, and dylibs are removed from `prefix/boost/lib` |
| MacDeps.BoostUrlNamesStem | builder/macos.py:65 | the URL contains `/boost_1_61_0.tar.bz2/` |
| MacDeps.B2InstallsIntoMarker | builder/macos.py:70-71 | the b2 line contains `--prefix=<marker> ` |
| MacDeps.ContainsInside | builder/macos.py:65 | a text contains any text glued inside it |
| MacDeps.RemoveDylibsEffect | builder/macos.py:52-60 | the intended dylib removal deletes exactly the matching regular files, keeps everything else, and reports whether every match was a regular file |
| MacDeps.AsWrittenKeepsDylibs | builder/macos.py:60 | as written, a dylib in the requested directory survives, and the helper still reports success when nothing lies under `./%s` |
| MacDeps.AsWrittenCounterexample | builder/macos.py:60 | a concrete state where as written the dylib stays and success is reported, while the intended removal deletes it |
| MacDeps.PerformOutcome | builder/macos.py:119-137 | a chdir can only raise; a download or command passes exactly on exit status 0 and changes only files; the dylib step passes exactly when every match is a regular file |
| MacDeps.NothingUnder | builder/macos.py:52-60 | a glob that finds nothing removes nothing and passes |
| MacDeps.MatchingDirFails | builder/macos.py:52-60 | a directory among the matches makes the step fail |
| MacDeps.DylibEntry | builder/macos.py:60 | a name the glob `*.dylib*` matches, placed in a directory, is one of its entries |
| MacDeps.AsWrittenPassesOnDylibDir | builder/macos.py:60 | with a matching directory in the boost lib directory, the helper as written passes and changes nothing |
| MacDeps.CorrectedFailsOnDylibDir | builder/macos.py:52-60 | on the same state the corrected helper fails |
| MacDeps.AsWrittenOutcomeDiverges | builder/macos.py:119-137 | on that state the source's dylib step passes, while the modelled step fails and the unit stops |
| MacDeps.RemoveDylibsVacuous | builder/macos.py:60 | with no matches the dylib step passes and changes nothing (`all([])`) |
| MacDeps.RunActionsStops | builder/macos.py:120-137 | the step loop stops at the first action that does not pass; every earlier one passed, and it runs to the end exactly when all passed |
| MacDeps.RunFromStops | builder/macos.py:113-143 | `DepsBuild` returns only when every attempted step passed; exits -1 after a failed step with that unit's marker removed; raises after a chdir that raised |
| MacDeps.RunFromShape | builder/macos.py:113-137 | the attempts are in unit then action order, and every unit before the last one attempted was completed |
| MacDeps.RunFromReturnsFinished | builder/macos.py:113-137 | a run that returns ended on the last action of a unit |
| MacDeps.InstalledUnitSkipped | builder/macos.py:114-116 | a unit whose marker exists is skipped without any attempt |
| MacDeps.SelectDirs | builder/macos.py:82-94 | aborts exactly under jenkins without libs dir; the prefix is the libs dir or the distribution default; under jenkins the build dir is `prefix/builds`, otherwise `~/blender-libs-builds` |
| MacDeps.JenkinsNeedsLibsDir | builder/macos.py:84-87 | under jenkins without `dir_blender_libs` the build exits -1 and touches nothing |
| MacDeps.TestModeRunsNothing | builder/macos.py:100-109 | in test mode no step runs, the working directory and environment are kept, and no existing entry is removed or changed |
| MacDeps.PerformStep | builder/macos.py:123-137 | one step on the machine equals `Perform` |
| MacDeps.RunUnit | builder/macos.py:119-137 | the step loop on the machine equals `RunActions` |
| MacDeps.InstallUnit | builder/macos.py:113-143 | installing one missing unit is the first block of `RunFrom`, stopping or handing over to the next unit |
| MacDeps.RunUnits | builder/macos.py:113-143 | the loop over the units on the machine equals `RunFrom` |
| MacDeps.DepsBuild | builder/macos.py:81-143 | the whole `DepsBuild` on the machine equals `DepsBuildSpec` |
| MacPatch.VersionKeyDropsPatch | builder/macos.py:155 | `10.9.5` keys as `10.9` |
| MacPatch.VersionKeyKeepsMinor | builder/macos.py:155 | `10.9` keys as itself |
| MacPatch.VersionKeyMajorOnly | builder/macos.py:155 | a version without a dot keys as itself |
| MacPatch.ResolveBoostLibCases | builder/macos.py:147-175 | the named library for a known version when it exists; otherwise mavericks when that exists; otherwise unavailable; a chosen library exists |
| MacPatch.BoostLibPlain | builder/macos.py:147-160 | the library directory is `kdrive/boost/boost_1_61_0/lib/<name>_x64` |
| MacPatch.RootPlain | builder/macos.py:147 | the boost root is `kdrive/boost/boost_1_61_0` |
| MacPatch.Checkout | builder/macos.py:181-183 | an svn checkout line that ends in its destination |
| MacPatch.CopyStep | builder/macos.py:184-186 | a copy line that ends in its arguments |
| MacPatch.CopyPatch | builder/macos.py:187-188 | a forced copy of the patch file that ends in its destination |
| MacPatch.PatchStepsOrder | builder/macos.py:180-189 | eight steps: three checkouts, then five copies, the last two copying `pyport.h` into both Python include directories |
| MacPatch.RunAllIgnoresCodes | builder/macos.py:212-215 | the patch loop depends only on what commands do to files, never on their exit codes |
| MacPatch.RunAllKeepsPlace | builder/macos.py:212-215 | the patch loop keeps the working directory and environment |
| MacPatch.PatchLibsEnds | builder/macos.py:162-215 | exits 1 exactly when no boost library is usable, untouched; returns exactly when one is and both directories it enters exist, ending in `dir_source` |
| MacPatch.PatchLibsIgnoresCodes | builder/macos.py:208-215 | the result of `PatchLibs` never depends on exit codes |
| MacPatch.PatchLibs | builder/macos.py:146-217 | `PatchLibs` on the machine equals `PatchLibsSpec` |
| MacBuild.CmakeArgsFrame | builder/macos.py:237-279 | 26 arguments for vb35 and 17 otherwise; it starts `cmake -G Ninja -DCMAKE_BUILD_TYPE=Release -DCMAKE_INSTALL_PREFIX=...` and ends with the Blender directory |
| MacBuild.Vb35IgnoresToggles | builder/macos.py:249-266 | for vb35 the feature toggles do not matter: game engine, player, libmv and collada are off and cycles is on |
| MacBuild.TogglesFollowed | builder/macos.py:267-272 | otherwise arguments 9 to 13 are the five toggles in order, each as `GetCmakeOnOff` spells it |
| MacBuild.ToggleMatters | builder/macos.py:268 | otherwise flipping the game-engine toggle changes the command line |
| MacBuild.ZmqOnlyForVb35 | builder/macos.py:249-250 | the ZMQ switch is among the options exactly for vb35 |
| MacBuild.NinjaArgs | builder/macos.py:292-294 | `ninja -j<jobs> install` |
| MacBuild.CleanBuildDirIsFresh | builder/macos.py:231-235 | after a clean build the cmake directory exists and is empty |
| MacBuild.CompileStopsAtConfigure | builder/macos.py:284-299 | cmake is issued first and ninja only when cmake exits 0; a failed cmake or a failed ninja exits 1, and no other exit code occurs; `compile` returns exactly when ninja, issued after `write_buildinfo`, exits 0; without a build directory to enter nothing is issued and an `OSError` ends it |
| MacBuild.BuildCmakeList | builder/macos.py:237-279 | the appended list is `CmakeArgs` |
| MacBuild.Compile | builder/macos.py:230-299 | `compile` on the machine equals `CompileSpec` |
| MacBuild.PrepareOn | builder/macos.py:231-235 | cleaning and creating the cmake directory on the machine equals `PrepareBuildDir` |
| MacBuild.BuildOn | builder/macos.py:284-299 | configure and build on the machine equals `ConfigureAndBuild` |
| MacBuild.ArchiveIsZip | builder/macos.py:302-338 | the returned archive is the installer path with `.dmg` replaced by `.zip`; the subdir is `macos/<arch>` |
| MacBuild.ArchiveWithoutDmg | builder/macos.py:338 | an installer path without `.dmg` is returned unchanged |
| MacBuild.ArtefactsInRelease | builder/macos.py:329-333 | three artefacts, all inside the release path |
| MacBuild.PackageEffects | builder/macos.py:301-338 | test mode returns after the installer generator alone, keeping the directory and environment; the result never depends on exit codes; otherwise a return ends in the release path |
| MacBuild.Package | builder/macos.py:301-338 | `package` on the machine equals `PackageSpec` |
| Jenkins.FormatTemplated | jenkins.py:36-62 | every `{CGR_SDK}`-prefixed entry formats to the SDK root followed by its suffix |
| Jenkins.Templated | jenkins.py:38-56 | one entry per suffix, each `{CGR_SDK}` followed by the suffix |
| Jenkins.Rooted | jenkins.py:38-56 | one entry per suffix, each the root with its suffix appended |
| Jenkins.IncludeBraceFree | jenkins.py:38-43 | the INCLUDE suffixes contain no braces |
| Jenkins.LibBraceFree | jenkins.py:47-50 | the LIB suffixes contain no braces |
| Jenkins.BinBraceFree | jenkins.py:54-56 | the PATH suffixes contain no braces |
| Jenkins.FormattedSdk | jenkins.py:62 | a `;`-joined SDK list formats to the rooted entries joined by `;` |
| Jenkins.PathTemplate | jenkins.py:53-57 | the PATH list joined by `;` is the SDK bin entries, then `;` and the old `PATH` |
| Jenkins.FormattedPath | jenkins.py:53-62 | when the old `PATH` formats, the new `PATH` is the rooted bin entries, then `;` and the formatted old `PATH` |
| Jenkins.FailedPath | jenkins.py:53-62 | when the old `PATH` does not format, neither does the new one |
| Jenkins.WriteStep | jenkins.py:61-62 | one loop round writes one formatted variable |
| Jenkins.SdkWrites | jenkins.py:36-62 | INCLUDE and LIB are written first, each to its rooted entries joined by `;` |
| Jenkins.PathWrite | jenkins.py:53-62 | writing PATH either raises ValueError with no change or sets the rooted PATH |
| Jenkins.SetupMsvcWrites | jenkins.py:35-62 | on success exactly the four variables are set, to the rooted values |
| Jenkins.SetupMsvcKeepsPath | jenkins.py:53-62 | a brace-free old `PATH` is kept, behind the SDK bin entries |
| Jenkins.SetupMsvcFails | jenkins.py:57-62 | without `PATH`, KeyError and no change; an unformattable `PATH`, ValueError after the other three writes |
| Jenkins.SetupMsvc2013 | jenkins.py:35-62 | the loop on the machine's environment equals `SetupMsvcSpec`, and files and working directory are kept |
| Jenkins.ModeNormalisation | jenkins.py:73-77 | the normalised mode is nightly or release, `default` maps to nightly, and normalising twice changes nothing |
| Jenkins.NormaliseMode | jenkins.py:74-77 | returns the minimal flag and the arguments with only the mode normalised |
| Jenkins.OsTablesDistinct | jenkins.py:88-149 | each OS table is injective, with non-empty names and no separator |
| Jenkins.CommandFrame | jenkins.py:163-216 | 28 to 32 arguments: the interpreter, script, `--jenkins`, source and build dirs first, install and release dirs last, and the build mode among them |
| Jenkins.OutputDirsPlain | jenkins.py:215-216 | install and release dirs are `<output>/install/vray_for_blender` and `<output>/release/vray_for_blender` |
| Jenkins.SigOf | jenkins.py:163-216 | the signature of an option with a value is that of the option |
| Jenkins.ConditionalSigs | jenkins.py:184-205 | the four conditional options have four distinct signatures |
| Jenkins.OpeningUnconditional | jenkins.py:164-182 | no fixed opening argument looks like a conditional option |
| Jenkins.FeaturesUnconditional | jenkins.py:187-192 | no feature switch looks like a conditional option |
| Jenkins.ModeUnconditional | jenkins.py:198-202 | no mode or installer argument looks like a conditional option |
| Jenkins.ClosingUnconditional | jenkins.py:207-216 | no closing argument looks like a conditional option |
| Jenkins.ConditionalOptions | jenkins.py:184-205 | the exporter branch appears exactly when it is not master; `--vc_2013` exactly on Windows; the minimal flag exactly for a minimal build; static libc exactly when requested |
| Jenkins.BuildCommand | jenkins.py:163-216 | the appended list is `BuilderCommand` |
| Jenkins.MissingCgrepo | jenkins.py:82-87 | without `VRAY_CGREPO_PATH`, KeyError after the proxies and nothing else |
| Jenkins.ProxiesKeepCgrepo | jenkins.py:82-87 | setting the proxies neither adds nor changes `VRAY_CGREPO_PATH` |
| Jenkins.LaunchEnvSet | jenkins.py:152-173 | the AppSDK path and version, build type and kdrive variables hold their values |
| Jenkins.LaunchStage | jenkins.py:172-221 | the last stage exits exactly when it launched the assembled command, with the exit status and the state the runner gives for that command, and only sets the kdrive variable before it |
| Jenkins.SourcesStage | jenkins.py:126-156 | same, with the AppSDK variables also set |
| Jenkins.NinjaStage | jenkins.py:108-115 | same, with ninja in front of `PATH` |
| Jenkins.WorkspaceStage | jenkins.py:98-105 | same, after the workspace is prepared |
| Jenkins.WorkspaceLaunch | jenkins.py:98-221 | from the workspace on, a launch happens exactly with an exit, with the assembled command and the launch variables set |
| Jenkins.ToolchainStage | jenkins.py:93-221 | from the tool chain on, the same; an MSVC setup failure raises |
| Jenkins.MainLaunch | jenkins.py:65-221 | with the cgrepo variable set, `main` exits exactly when it launched the assembled command, with the status the runner gives for that command and the launch environment set; otherwise it raised |
| Jenkins.LaunchedCommandShape | jenkins.py:163-216 | the launched command starts with the source and build dirs, carries the normalised mode, has the minimal flag exactly for a minimal build, and ends with the output dirs |
| Jenkins.RunMain | jenkins.py:65-221 | `main` on the machine equals `MainSpec` |
| Jenkins.RunToolchain | jenkins.py:93-96 | the tool-chain stage on the machine equals `ToolchainSpec` |
| Jenkins.RunWorkspace | jenkins.py:98-105 | the workspace stage on the machine equals `WorkspaceSpec` |
| Jenkins.RunSources | jenkins.py:118-156 | the sources stage on the machine equals `SourcesSpec` |
| Jenkins.RunLaunch | jenkins.py:172-221 | the launch stage on the machine equals `LaunchSpec` |

## Left out

- MacDeps.Perform, MacDeps.PerformOutcome and MacDeps.PerformStep run the corrected dylib step of the Findings row, not the glob as written at builder/macos.py:60. As written the glob looks under `./%s`; when nothing lies there, the step passes and changes nothing, whatever `dir` holds. The model removes the regular dylib files in `dir` and fails when a match is not a regular file. MacDeps.AsWrittenOutcomeDiverges gives a state where the two disagree.
- MacDeps.RemoveDylibsVacuous states the vacuous pass of the corrected step; as written the step also passes when matches exist in `dir`.
- MacDeps.RunUnit, MacDeps.InstallUnit, MacDeps.RunUnits and MacDeps.DepsBuild inherit the corrected dylib step. Where the source would pass that step and go on, the model can fail it and exit with -1, as on the state of MacDeps.AsWrittenOutcomeDiverges.
- MacBuild.Compile and MacBuild.BuildOn model `write_buildinfo` as an oracle call whose exceptions are not modelled.
- MacBuild.PackageEffects and MacBuild.Package model `GenCGRInstaller` as an oracle call whose exceptions are not modelled.
- Output to stdout and stderr (progress lines, the TeamCity artefact line, `inspect.getsource`) is not modelled. It changes no state.
- `sys.exit` is a `Termination` value. The runs stop there.
- Exceptions are represented by their class name only ("KeyError", "OSError", "ValueError"). Any unsupported `str.format` input gives "ValueError". The exact class Python would raise is not modelled.
- `str.format` handles only `{{`, `}}` and the one named field `{CGR_SDK}`. Other fields, indices, attributes and format specs count as failures. The scripts only call it with that field.
- `os.path.join` is always the POSIX join. The Windows `ntpath` rules (drive letters, backslashes) are not modelled. Paths are never normalised (`.`, `..`, repeated `/`).
- `utils.get_repo`: the three calls are one `fetchRepos` function of the state, given in `World`. The git operations themselves are outside the model.
- These `utils` helpers are not part of this model. They appear as parameters:
  - `get_git_head_hash` (`World.zmqHash`);
  - `get_host_os` (`World.hostOs`);
  - `get_linux_distribution` (`DepsConfig.distro`);
  - `GetCmakeOnOff`, `path_join` and `GetPackageName` (`Utils`);
  - `sys.executable` and `sys.platform` (`World`).
- `utils.remove_directory` and `utils.remove_path` are both modelled as deleting the whole tree below the path.
- `utils.path_create` is not part of this model's sources. It is modelled as `os.makedirs` of the path when the path does not exist yet; an `OSError` from it ends `package`.
- `MacBuilder.write_buildinfo` and `utils.GenCGRInstaller` are Python helpers outside the model. Each is a `Helper` command given to the oracle, which decides the filesystem it leaves. Their exceptions are not modelled, and their return value is ignored, as the code ignores it.
- The `zip` call in `package` is a shell command given to the oracle; its exit status is ignored, as `os.system`'s is in the code.
- `platform.mac_ver()` is the `version` parameter of `PatchLibs`.
- The home directory behind `~` is `DepsConfig.home`.
- The `subprocess.call(cmd, cwd=dir_build)` at the end of `main` runs in the working directory `main` has already returned to, which is `dir_build`. A separate child cwd is not modelled.
- `boost_lib_dir` (builder/macos.py:177) is computed but never used. The commented-out vb35 patch steps (builder/macos.py:191-206) do not run. Neither is modelled.
- `MacBuilder.config` and `post_init` are not modelled. The first does nothing; the second only calls `DepsBuild` and `PatchLibs`, which are modelled.
- argparse itself is not modelled. `ValidArgs` states the choices it enforces. `main` is modelled for any `Args`, as the code accepts.
- `build_jobs` is a `nat`. A negative job count is not modelled.
- Concurrency and timing of external programs are not modelled. The oracle is deterministic.
- A program that cannot be started is not modelled. `subprocess.call` on an argument list raises `FileNotFoundError` or `OSError` in that case (`cmake` and `ninja` at builder/macos.py:285-296, `sys.executable` at jenkins.py:221), while the runner oracle always returns an exit status. `os.system` and `shell=True` calls report such failures as a status, as the model does.
- MacBuild.CompileStopsAtConfigure, MacBuild.Compile, Jenkins.LaunchStage and Jenkins.MainLaunch hold only for programs that start, because of the line above.
- Symbolic links are not modelled. The filesystem maps paths to files and directories only, and `ln -s` (builder/macos.py:73) leaves whatever filesystem the oracle returns. MacDeps.RemoveDylibsEffect and the corrected dylib step remove only the keys under `prefix/boost/lib`; a `prefix/boost-1.61.0/lib/x.dylib` that the link would alias in Python stays in the model.
- Environment keys are exact-case strings in `Proc.env`. On Windows `os.environ` upper-cases keys, so `os.environ['PATH']` (jenkins.py:57, jenkins.py:115) would find a variable spelled `Path`, and the proxy and `jenkins_kdrive_path` writes (jenkins.py:82-85, jenkins.py:173) are stored upper-cased. This case-insensitive environment is not modelled. A Windows environment that has `Path` but no `PATH` raises KeyError in the model (Jenkins.SetupMsvcFails, Jenkins.MainLaunch), while the script would go on.
- Dictionary order: `setup_msvc_2013` writes INCLUDE, LIB, PATH in insertion order, as CPython 3.7+ iterates them. Other orders are not modelled.
- builder/macos.py:249-266 appends no locale toggle for the vb35 variant, and neither does the model.

## Findings

| source | as written | input that shows it | evidently intended | confidence | as-written member | corrected member |
|---|---|---|---|---|---|---|
| builder/macos.py:60 | the glob pattern `'%s/*.dylib*'` is never formatted with `dir`; it looks in a directory literally named `%s` under the working directory | working directory `/root/blender-libs-builds/boost-1.61.0`, a file `/opt/boost/lib/x.dylib`, `dir` = `/opt/boost/lib`: the dylib stays and the step reports success | `glob.glob('%s/*.dylib*' % dir)`, removing the dylibs in `dir` | not executed | MacDeps.AsWrittenCounterexample | MacDeps.RemoveDylibsEffect |
