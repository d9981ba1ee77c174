/** The macOS dependency build of builder/macos.py: the step table
    (`getDepsCompilationData` and its helper callables) and the fail-fast
    runner `DepsBuild` that installs every unit whose completion marker is
    missing. */
module MacDeps {
  import opened Strings
  import opened Paths
  import opened Host

  const BoostVersion := "1.61.0"

  /** The spelling of the version the archive uses, `1_61_0`. */
  function BoostUnderscored(): string {
    "1_61_0"
  }

  /** It is `BOOST_VERSION.replace('.', '_')`. */
  lemma BoostUnderscoredIsReplace()
    ensures BoostUnderscored() == Replace(BoostVersion, ".", "_")
  {
    assert Replace("0", ".", "_") == "0";
    assert ".0"[..1] == "." && ".0"[1..] == "0";
    assert "1.0"[..1] != "." && "1.0"[1..] == ".0";
    assert "61.0"[..1] != "." && "61.0"[1..] == "1.0";
    assert ".61.0"[..1] == "." && ".61.0"[1..] == "61.0";
    assert "1.61.0"[..1] != "." && "1.61.0"[1..] == ".61.0";
  }

  // ---------------------------------------------------------------------
  // Actions and units

  /** One step of a unit: the callables built by `getChDirCmd`,
      `getDownloadCmd` (which downloads into the working directory `dest`)
      and `getRemoveSoFiles`, or a shell command string. */
  datatype Action =
    | Chdir(dir: string)
    | Download(url: string, dest: string, name: string)
    | Command(line: string)
    | RemoveDylibs(dir: string)

  /** `(name, completion marker, actions)`. */
  datatype Unit = Unit(name: string, marker: string, actions: seq<Action>)

  /** The shell line the download callable hands to `os.system`. */
  function WgetLine(url: string, dest: string, name: string): string {
    "wget -c \"" + url + "\" -O " + dest + "/" + name
  }

  /** The archive's top directory, `boost_1_61_0`. */
  function BoostStem(): string {
    "boost_" + BoostUnderscored()
  }

  const BoostDownloads: string := "http://sourceforge.net/projects/boost/files/boost/"

  function BoostUrl(): string {
    BoostDownloads + BoostVersion + BoostArchivePath() + "download"
  }

  /** The path component of the URL that names the archive. */
  function BoostArchivePath(): string {
    "/" + BoostStem() + ".tar.bz2/"
  }

  /** The name the archive is saved under. */
  const BoostArchive: string := "boost.tar.bz2"

  /** The b2 install command: options, the install prefix, then the
      remaining switches and the target. */
  function B2InstallLine(jobs: nat, prefix: string): string {
    B2Options(jobs) + B2Prefix(prefix) + B2Target
  }

  function B2Options(jobs: nat): string {
    "./b2 -j " + NatToString(jobs) + B2Switches
  }

  const B2Switches: string :=
    " -a link=static threading=multi --layout=tagged --with-system --with-filesystem"
    + " --with-thread --with-regex --with-locale --with-date_time --with-wave "

  const B2Target: string := "--disable-icu boost.locale.icu=off install"

  function B2Prefix(prefix: string): string {
    "--prefix=" + BoostMarker(prefix) + " "
  }

  /** Where boost is installed, which is also its completion marker. */
  function BoostMarker(prefix: string): string {
    prefix + "/boost-" + BoostVersion
  }

  /** `getDepsCompilationData(prefix, wd, jobs)`: one unit, boost, with
      its completion marker and its ten actions. */
  function DepsTable(prefix: string, wd: string, jobs: nat): (units: seq<Unit>)
    ensures |units| == 1 && units[0].name == "boost" && |units[0].actions| == 10
    ensures units[0].marker == prefix + "/boost-" + BoostVersion
  {
    var marker := BoostMarker(prefix);
    [Unit("boost", marker, [
      Chdir(wd),
      Download(BoostUrl(), wd, BoostArchive),
      Command("tar -xf " + BoostArchive),
      Command("mv " + BoostStem() + " boost-" + BoostVersion),
      Chdir(PathJoin(wd, "boost-" + BoostVersion)),
      Command("./bootstrap.sh"),
      Command(B2InstallLine(jobs, prefix)),
      Command("./b2 clean"),
      Command("ln -s " + marker + " " + prefix + "/boost"),
      RemoveDylibs(prefix + "/boost/lib")
    ])]
  }

  /** The boost unit enters the build directory, downloads, extracts and
      renames, enters the tree, bootstraps, installs, cleans, links, and
      finally removes the dylibs. */
  lemma BoostActionKinds(prefix: string, wd: string, jobs: nat)
    ensures var a := DepsTable(prefix, wd, jobs)[0].actions;
      && a[0].Chdir? && a[1].Download? && a[2].Command? && a[3].Command? && a[4].Chdir?
      && a[5].Command? && a[6].Command? && a[7].Command? && a[8].Command? && a[9].RemoveDylibs?
  {
  }

  /** The archive is downloaded into the directory entered first and
      extracted there; the renamed tree is entered next. */
  lemma BoostFetchConsistent(prefix: string, wd: string, jobs: nat)
    ensures var a := DepsTable(prefix, wd, jobs)[0].actions;
      && a[0].Chdir? && a[1].Download? && a[2].Command? && a[4].Chdir?
      && a[1].dest == a[0].dir == wd
      && a[2].line == "tar -xf " + a[1].name
      && a[4].dir == PathJoin(a[0].dir, "boost-" + BoostVersion)
  {
  }

  /** The tree the archive unpacks to, named in the URL, is what the
      rename moves to `boost-1.61.0`. */
  lemma BoostRenameConsistent(prefix: string, wd: string, jobs: nat)
    ensures var a := DepsTable(prefix, wd, jobs)[0].actions;
      && a[1].Download? && a[3].Command?
      && Contains(a[1].url, "/" + BoostStem() + ".tar.bz2/")
      && a[3].line == "mv " + BoostStem() + " boost-" + BoostVersion
  {
    var a := DepsTable(prefix, wd, jobs)[0].actions;
    assert a[1].url == BoostUrl();
    BoostUrlNamesStem();
  }

  /** b2 installs into the completion marker, the marker is linked as
      `prefix/boost`, and the dylibs are removed from the link's lib
      directory. */
  lemma BoostInstallConsistent(prefix: string, wd: string, jobs: nat)
    ensures var u := DepsTable(prefix, wd, jobs)[0];
      var a := u.actions;
      && a[6].Command? && a[8].Command? && a[9].RemoveDylibs?
      && Contains(a[6].line, "--prefix=" + u.marker + " ")
      && a[8].line == "ln -s " + u.marker + " " + prefix + "/boost"
      && a[9].dir == prefix + "/boost/lib"
  {
    B2InstallsIntoMarker(jobs, prefix);
  }

  lemma BoostUrlNamesStem()
    ensures Contains(BoostUrl(), "/" + BoostStem() + ".tar.bz2/")
  {
    ContainsInside(BoostDownloads + BoostVersion, BoostArchivePath(), "download");
  }

  lemma B2InstallsIntoMarker(jobs: nat, prefix: string)
    ensures Contains(B2InstallLine(jobs, prefix), "--prefix=" + BoostMarker(prefix) + " ")
  {
    ContainsInside(B2Options(jobs), B2Prefix(prefix), B2Target);
  }

  lemma {:induction false} ContainsInside(head: string, mid: string, tail: string)
    ensures Contains(head + mid + tail, mid)
    decreases |head|
  {
    var s := head + mid + tail;
    if |head| == 0 {
      assert s[..|mid|] == mid;
    } else {
      assert s[1..] == head[1..] + mid + tail;
      ContainsInside(head[1..], mid, tail);
    }
  }

  // ---------------------------------------------------------------------
  // What one action does

  datatype Outcome = Passed | Failed | Crashed

  /** A name matched by the glob `*.dylib*`: no separator, not hidden. */
  predicate DylibName(n: string) {
    |n| > 0 && n[0] != '.' && '/' !in n && Contains(n, ".dylib")
  }

  /** `path` is an entry of directory `base` whose name the glob
      `*.dylib*` matches. */
  predicate DylibIn(path: string, base: string) {
    StartsWith(path, base + "/") && DylibName(path[|base| + 1..])
  }

  /** The resolved paths the dylib glob over `dir` returns. */
  function DylibMatches(p: Proc, dir: string): set<string> {
    set k | k in p.fs && DylibIn(k, Resolve(p, dir))
  }

  function DylibFiles(p: Proc, dir: string): set<string> {
    set k | k in DylibMatches(p, dir) && p.fs[k] == File
  }

  /** `all([removeSoFile(path) for path in <the dylib glob over dir>])`:
      the list is built first, so every matching regular file is removed;
      the result is true exactly when every match was a regular file
      (vacuously when nothing matches). */
  function RemoveDylibsIn(p: Proc, dir: string): (Proc, bool) {
    (p.(fs := p.fs - DylibFiles(p, dir)), forall k :: k in DylibMatches(p, dir) ==> p.fs[k] == File)
  }

  /** Every matching regular file goes, nothing else changes, and the
      result says whether every match was a regular file. */
  lemma RemoveDylibsEffect(p: Proc, dir: string)
    ensures var r := RemoveDylibsIn(p, dir);
      && r.0.cwd == p.cwd && r.0.env == p.env
      && (r.1 <==> forall k :: k in p.fs && DylibIn(k, Resolve(p, dir)) ==> p.fs[k] == File)
      && (forall k :: k in r.0.fs ==> k in p.fs && r.0.fs[k] == p.fs[k])
      && (forall k :: k in p.fs && k !in r.0.fs ==> DylibIn(k, Resolve(p, dir)) && p.fs[k] == File)
      && (forall k :: k in r.0.fs && DylibIn(k, Resolve(p, dir)) ==> r.0.fs[k] != File)
  {
  }

  /** `getRemoveSoFiles(dir)` as written: the pattern, `%s` then
      the dylib glob, is never formatted, so the glob looks in a directory literally named
      `%s` under the working directory and `dir` plays no part. */
  function RemoveDylibsAsWritten(p: Proc, dir: string): (Proc, bool) {
    RemoveDylibsIn(p, "%s")
  }

  /** As written, a dylib in `dir` survives the helper, which still
      reports success when nothing lies under `./%s`. */
  lemma AsWrittenKeepsDylibs(p: Proc, dir: string, k: string)
    requires k in p.fs && p.fs[k] == File && DylibIn(k, Resolve(p, dir))
    requires !StartsWith(k, Resolve(p, "%s") + "/")
    ensures k in RemoveDylibsAsWritten(p, dir).0.fs
    ensures (forall q :: q in p.fs ==> !StartsWith(q, Resolve(p, "%s") + "/")) ==> RemoveDylibsAsWritten(p, dir).1
  {
    RemoveDylibsEffect(p, "%s");
  }

  /** A concrete case: the boost lib directory holds a dylib; as written it
      stays and the step passes, while the corrected helper removes it. */
  lemma AsWrittenCounterexample()
    ensures var p := Proc(map["/opt/boost/lib" := Dir, "/opt/boost/lib/x.dylib" := File],
                          "/root/blender-libs-builds/boost-1.61.0", map[]);
      && RemoveDylibsAsWritten(p, "/opt/boost/lib").1
      && "/opt/boost/lib/x.dylib" in RemoveDylibsAsWritten(p, "/opt/boost/lib").0.fs
      && "/opt/boost/lib/x.dylib" !in RemoveDylibsIn(p, "/opt/boost/lib").0.fs
  {
    var lib := "/opt/boost/lib";
    var k := "/opt/boost/lib/x.dylib";
    var p := Proc(map[lib := Dir, k := File], "/root/blender-libs-builds/boost-1.61.0", map[]);
    RelativeName("%s");
    var base := Resolve(p, "%s");
    assert base == "/root/blender-libs-builds/boost-1.61.0/%s";
    assert forall q :: q in p.fs ==> !StartsWith(q, base + "/") by {
      forall q | q in p.fs
        ensures !StartsWith(q, base + "/")
      {
        assert q == lib || q == k;
        assert |q| < |base + "/"|;
      }
    }
    assert Resolve(p, lib) == lib;
    assert k == lib + "/" + "x.dylib";
    assert k[|lib| + 1..] == "x.dylib";
    assert Contains("x.dylib", ".dylib") by { assert "x.dylib"[1..][..6] == ".dylib"; }
    assert DylibIn(k, lib);
    AsWrittenKeepsDylibs(p, lib, k);
    RemoveDylibsEffect(p, lib);
  }

  /** A glob that finds nothing removes nothing and passes. */
  lemma NothingUnder(p: Proc, dir: string)
    requires forall q :: q in p.fs ==> !StartsWith(q, Resolve(p, dir) + "/")
    ensures RemoveDylibsIn(p, dir) == (p, true)
  {
    assert DylibMatches(p, dir) == {};
    assert p.fs - DylibFiles(p, dir) == p.fs;
  }

  /** A matching directory makes the corrected step fail. */
  lemma MatchingDirFails(p: Proc, dir: string, k: string)
    requires k in p.fs && p.fs[k] == Dir && DylibIn(k, Resolve(p, dir))
    ensures !RemoveDylibsIn(p, dir).1
  {
    assert k in DylibMatches(p, dir);
  }

  /** A state where the two helpers disagree on the outcome: a directory
      whose name matches the dylib glob sits in the boost lib directory. */
  function DylibDirState(): Proc {
    var lib := "/opt/boost/lib";
    Proc(map[lib := Dir, lib + "/" + "a.dylib" := Dir], "/w", map[])
  }

  /** As written nothing under `./%s` matches, so the step passes. */
  lemma AsWrittenPassesOnDylibDir()
    ensures RemoveDylibsAsWritten(DylibDirState(), "/opt/boost/lib") == (DylibDirState(), true)
  {
    var p := DylibDirState();
    RelativeName("%s");
    var base := Resolve(p, "%s");
    assert base == "/w/%s";
    assert forall q :: q in p.fs ==> !StartsWith(q, base + "/") by {
      forall q | q in p.fs
        ensures !StartsWith(q, base + "/")
      {
        assert q == "/opt/boost/lib" || q == "/opt/boost/lib" + "/" + "a.dylib";
        assert q[1] != (base + "/")[1];
      }
    }
    NothingUnder(p, "%s");
  }

  /** A glob-matching name placed in `base` is one of its dylib entries. */
  lemma DylibEntry(base: string, name: string)
    requires DylibName(name)
    ensures DylibIn(base + "/" + name, base)
  {
    assert (base + "/" + name)[|base| + 1..] == name;
  }

  /** The corrected step runs `removeSoFile` on the directory, which
      reports failure. */
  lemma CorrectedFailsOnDylibDir()
    ensures !RemoveDylibsIn(DylibDirState(), "/opt/boost/lib").1
  {
    var p := DylibDirState();
    var lib := "/opt/boost/lib";
    assert Resolve(p, lib) == lib by { assert lib[..1] == "/"; }
    assert DylibName("a.dylib") by { assert "a.dylib"[1..][..6] == ".dylib"; }
    DylibEntry(lib, "a.dylib");
    MatchingDirFails(p, lib, lib + "/" + "a.dylib");
  }

  /** On that state the source's step passes and leaves the state alone,
      while the modelled step fails, so the unit stops there. */
  lemma AsWrittenOutcomeDiverges(run: Runner)
    ensures RemoveDylibsAsWritten(DylibDirState(), "/opt/boost/lib") == (DylibDirState(), true)
    ensures Perform(RemoveDylibs("/opt/boost/lib"), DylibDirState(), run).0 == Failed
  {
    AsWrittenPassesOnDylibDir();
    CorrectedFailsOnDylibDir();
  }

  /** What one action does to the process and whether it passed. */
  function Perform(a: Action, p: Proc, run: Runner): (Outcome, Proc)
  {
    match a
    case Chdir(d) =>
      (match AfterChdir(p, d)
       case None => (Crashed, p)
       case Some(q) => (Passed, q))
    case Download(url, dest, name) =>
      var (q, code) := AfterCall(p, Shell(WgetLine(url, dest, name)), run);
      (if code == 0 then Passed else Failed, q)
    case Command(line) =>
      var (q, code) := AfterCall(p, Shell(line), run);
      (if code == 0 then Passed else Failed, q)
    case RemoveDylibs(dir) =>
      var (q, ok) := RemoveDylibsIn(p, dir);
      (if ok then Passed else Failed, q)
  }

  /** A chdir passes whenever it returns (it can only raise), a download
      or a command passes exactly when its exit status is 0 and changes
      only the filesystem, and the dylib helper passes exactly when every
      match was a regular file. */
  lemma PerformOutcome(a: Action, p: Proc, run: Runner)
    ensures var r := Perform(a, p, run);
      && (r.0 == Crashed <==> a.Chdir? && !IsDir(p, a.dir))
      && (a.Chdir? ==> r.0 != Failed && r.1 == if IsDir(p, a.dir) then p.(cwd := Resolve(p, a.dir)) else p)
      && (a.Download? ==> (r.0 == Passed <==> run(Shell(WgetLine(a.url, a.dest, a.name)), p).code == 0))
      && (a.Command? ==> (r.0 == Passed <==> run(Shell(a.line), p).code == 0))
      && ((a.Download? || a.Command?) ==> r.1 == p.(fs := r.1.fs))
      && (a.RemoveDylibs? ==>
            (r.0 == Passed <==> forall k :: k in p.fs && DylibIn(k, Resolve(p, a.dir)) ==> p.fs[k] == File))
  {
    if a.RemoveDylibs? {
      RemoveDylibsEffect(p, a.dir);
    }
  }

  /** With nothing to match, the dylib helper passes and changes nothing. */
  lemma RemoveDylibsVacuous(p: Proc, dir: string, run: Runner)
    requires forall k :: k in p.fs ==> !DylibIn(k, Resolve(p, dir))
    ensures Perform(RemoveDylibs(dir), p, run) == (Passed, p)
  {
    assert DylibFiles(p, dir) == {};
    assert p.fs - DylibFiles(p, dir) == p.fs;
  }

  // ---------------------------------------------------------------------
  // The runner

  /** The inner loop over `acts[j..]`: the outcomes of the actions it
      attempted and the state it leaves. */
  function RunActions(acts: seq<Action>, j: nat, p: Proc, run: Runner): (seq<Outcome>, Proc)
    requires j <= |acts|
    decreases |acts| - j
  {
    if j == |acts| then ([], p)
    else
      var (o, q) := Perform(acts[j], p, run);
      if o == Passed then
        var (os, q') := RunActions(acts, j + 1, q, run);
        ([Passed] + os, q')
      else ([o], q)
  }

  /** Every attempted action but the last passed; the loop stops early
      only at an action that did not pass, and it attempts all of them
      exactly when none failed. */
  lemma {:induction false} RunActionsStops(acts: seq<Action>, j: nat, p: Proc, run: Runner)
    requires j <= |acts|
    ensures var os := RunActions(acts, j, p, run).0;
      && |os| <= |acts| - j
      && (forall k :: 0 <= k < |os| - 1 ==> os[k] == Passed)
      && (|os| < |acts| - j ==> |os| > 0 && Last(os) != Passed)
      && (|os| == |acts| - j && (|os| == 0 || Last(os) == Passed) <==> forall k :: 0 <= k < |os| ==> os[k] == Passed)
    decreases |acts| - j
  {
    if j < |acts| {
      var (o, q) := Perform(acts[j], p, run);
      if o == Passed {
        RunActionsStops(acts, j + 1, q, run);
        var os := RunActions(acts, j + 1, q, run).0;
        assert RunActions(acts, j, p, run).0 == [Passed] + os;
        if |os| > 0 {
          assert Last([Passed] + os) == Last(os);
        }
      }
    }
  }

  /** One attempted action: its unit, its index in the unit and its outcome
      (what `DepsBuild` logs before running it). */
  datatype Attempt = Attempt(unit: nat, action: nat, outcome: Outcome)

  function Tag(u: nat, os: seq<Outcome>): (r: seq<Attempt>)
    ensures |r| == |os|
    ensures forall k :: 0 <= k < |os| ==> r[k] == Attempt(u, k, os[k])
  {
    if |os| == 0 then [] else Tag(u, os[..|os| - 1]) + [Attempt(u, |os| - 1, os[|os| - 1])]
  }

  /** Attempts go in order: a unit starts at its first action, the next
      attempt is the next action of the same unit or the first action of
      a later unit. */
  predicate InOrder(t: seq<Attempt>) {
    && (|t| > 0 ==> t[0].action == 0)
    && forall k, l :: 0 <= k < |t| && 0 <= l < |t| && l == k + 1 ==> Follows(t[k], t[l])
  }

  predicate Follows(a: Attempt, b: Attempt) {
    (b.unit == a.unit && b.action == a.action + 1) || (b.unit > a.unit && b.action == 0)
  }

  /** The run leaves a unit only at its last action. */
  predicate UnitsFinished(units: seq<Unit>, t: seq<Attempt>)
    requires forall k :: 0 <= k < |t| ==> t[k].unit < |units|
  {
    forall k, l :: 0 <= k < |t| && 0 <= l < |t| && l == k + 1 && t[l].unit != t[k].unit ==>
      t[k].action == |units[t[k].unit].actions| - 1
  }

  datatype Run = Run(end: Termination, trace: seq<Attempt>, proc: Proc)

  function Last<T>(s: seq<T>): T
    requires |s| > 0
  {
    s[|s| - 1]
  }

  /** The attempts within one unit, tagged with their indices, respect
      the bounds and the order. */
  lemma TagBlock(units: seq<Unit>, i: nat, os: seq<Outcome>)
    requires i < |units| && |os| <= |units[i].actions|
    ensures var t := Tag(i, os);
      && (forall k :: 0 <= k < |t| ==> t[k].unit == i && t[k].action < |units[i].actions|)
      && InOrder(t) && UnitsFinished(units, t)
  {
  }

  /** A completed unit followed by the attempts of later units stays in
      bounds. */
  lemma AppendBlockBounds(units: seq<Unit>, i: nat, os: seq<Outcome>, rest: seq<Attempt>)
    requires i < |units| && |os| == |units[i].actions|
    requires forall k :: 0 <= k < |rest| ==>
               i < rest[k].unit < |units| && rest[k].action < |units[rest[k].unit].actions|
    ensures var t := Tag(i, os) + rest;
      forall k :: 0 <= k < |t| ==>
        i <= t[k].unit < |units| && t[k].action < |units[t[k].unit].actions|
  {
    var t := Tag(i, os) + rest;
    assert forall k :: 0 <= k < |t| ==> t[k] == if k < |os| then Tag(i, os)[k] else rest[k - |os|];
  }

  /** A completed unit followed by the attempts of later units keeps the
      order and leaves each unit only at its last action. */
  lemma AppendBlockOrder(units: seq<Unit>, i: nat, os: seq<Outcome>, rest: seq<Attempt>)
    requires i < |units| && |os| == |units[i].actions|
    requires forall k :: 0 <= k < |rest| ==>
               i < rest[k].unit < |units| && rest[k].action < |units[rest[k].unit].actions|
    requires InOrder(rest) && UnitsFinished(units, rest)
    requires var t := Tag(i, os) + rest;
      forall k :: 0 <= k < |t| ==> t[k].unit < |units|
    ensures InOrder(Tag(i, os) + rest) && UnitsFinished(units, Tag(i, os) + rest)
  {
    var head := Tag(i, os);
    var t := head + rest;
    forall k, l | 0 <= k < |t| && 0 <= l < |t| && l == k + 1
      ensures Follows(t[k], t[l])
      ensures t[l].unit != t[k].unit ==> t[k].action == |units[t[k].unit].actions| - 1
    {
      if l < |head| {
        assert t[k] == head[k] && t[l] == head[l];
      } else if l == |head| {
        assert t[k] == head[k] && t[l] == rest[0];
      } else {
        assert t[k] == rest[k - |head|] && t[l] == rest[l - |head|];
      }
    }
    if |head| == 0 {
      assert t == rest;
    } else {
      assert t[0] == head[0];
    }
  }

  /** Passed attempts followed by a run's attempts: outcomes and the last
      attempt carry over. */
  lemma AppendPassed(head: seq<Attempt>, rest: seq<Attempt>)
    requires forall k :: 0 <= k < |head| ==> head[k].outcome == Passed
    ensures (forall k :: 0 <= k < |rest| - 1 ==> rest[k].outcome == Passed) ==>
              forall k :: 0 <= k < |head + rest| - 1 ==> (head + rest)[k].outcome == Passed
    ensures (forall k :: 0 <= k < |rest| ==> rest[k].outcome == Passed) ==>
              forall k :: 0 <= k < |head + rest| ==> (head + rest)[k].outcome == Passed
    ensures |rest| > 0 ==> Last(head + rest) == Last(rest)
  {
    var t := head + rest;
    assert forall k :: 0 <= k < |t| ==> t[k] == if k < |head| then head[k] else rest[k - |head|];
  }

  /** The outer loop of `DepsBuild` from unit `i` on. A unit whose marker
      exists is skipped; otherwise its actions run until the first that
      does not pass. A failure removes that unit's marker path if it exists
      and ends the run with exit code -1; a raising chdir ends it with the
      exception. */
  function RunFrom(units: seq<Unit>, i: nat, p: Proc, run: Runner): Run
    requires i <= |units|
    decreases |units| - i
  {
    if i == |units| then Run(Returned, [], p)
    else
      var u := units[i];
      if Exists(p, u.marker) then RunFrom(units, i + 1, p, run)
      else
        var ran := RunActions(u.actions, 0, p, run);
        var os, q := ran.0, ran.1;
        var attempts := Tag(i, os);
        if |os| > 0 && Last(os) == Failed then
          Run(Exit(-1), attempts, if Exists(q, u.marker) then AfterRemoveTree(q, u.marker) else q)
        else if |os| > 0 && Last(os) == Crashed then
          Run(Raised("OSError"), attempts, q)
        else
          var rest := RunFrom(units, i + 1, q, run);
          Run(rest.end, attempts + rest.trace, rest.proc)
  }

  /** The run stops at the first action that does not pass: every attempt
      but the last passed, and a run that returns passed all of them. A
      failure ends it with -1 and leaves no marker of the failed unit
      behind; a raising chdir ends it with the exception. */
  lemma {:induction false} RunFromStops(units: seq<Unit>, i: nat, p: Proc, run: Runner)
    requires i <= |units|
    ensures var r := RunFrom(units, i, p, run);
      && (r.end == Returned || r.end == Exit(-1) || r.end.Raised?)
      && (forall k :: 0 <= k < |r.trace| - 1 ==> r.trace[k].outcome == Passed)
      && (r.end == Returned ==> forall k :: 0 <= k < |r.trace| ==> r.trace[k].outcome == Passed)
      && (r.end == Exit(-1) ==>
            |r.trace| > 0 && Last(r.trace).outcome == Failed
            && Last(r.trace).unit < |units| && !Exists(r.proc, units[Last(r.trace).unit].marker))
      && (r.end.Raised? ==> |r.trace| > 0 && Last(r.trace).outcome == Crashed)
    decreases |units| - i
  {
    if i == |units| {
    } else if Exists(p, units[i].marker) {
      RunFromStops(units, i + 1, p, run);
    } else {
      var u := units[i];
      var ran := RunActions(u.actions, 0, p, run);
      var os, q := ran.0, ran.1;
      RunActionsStops(u.actions, 0, p, run);
      var attempts := Tag(i, os);
      if |os| > 0 && Last(os) == Failed {
        assert Last(attempts) == Attempt(i, |os| - 1, Failed);
      } else if |os| > 0 && Last(os) == Crashed {
        assert Last(attempts) == Attempt(i, |os| - 1, Crashed);
      } else {
        RunFromStops(units, i + 1, q, run);
        var rest := RunFrom(units, i + 1, q, run);
        assert forall k :: 0 <= k < |os| ==> attempts[k].outcome == Passed;
        AppendPassed(attempts, rest.trace);
        assert RunFrom(units, i, p, run) == Run(rest.end, attempts + rest.trace, rest.proc);
      }
    }
  }

  /** The attempts of a run stay within the units from `i` on and within
      each unit's actions, go in order, and leave a unit only at its last
      action. */
  lemma {:induction false} RunFromShape(units: seq<Unit>, i: nat, p: Proc, run: Runner)
    requires i <= |units|
    ensures var t := RunFrom(units, i, p, run).trace;
      && (forall k :: 0 <= k < |t| ==>
            i <= t[k].unit < |units| && t[k].action < |units[t[k].unit].actions|)
      && InOrder(t) && UnitsFinished(units, t)
    decreases |units| - i
  {
    if i == |units| {
    } else if Exists(p, units[i].marker) {
      RunFromShape(units, i + 1, p, run);
    } else {
      var ran := RunActions(units[i].actions, 0, p, run);
      var os, q := ran.0, ran.1;
      RunActionsStops(units[i].actions, 0, p, run);
      TagBlock(units, i, os);
      if |os| > 0 && Last(os) != Passed {
        assert RunFrom(units, i, p, run).trace == Tag(i, os);
      } else {
        var rest := RunFrom(units, i + 1, q, run).trace;
        assert RunFrom(units, i, p, run).trace == Tag(i, os) + rest;
        RunFromShape(units, i + 1, q, run);
        AppendBlockBounds(units, i, os, rest);
        AppendBlockOrder(units, i, os, rest);
      }
    }
  }

  /** A run that returns has finished the last unit it started. */
  lemma {:induction false} RunFromReturnsFinished(units: seq<Unit>, i: nat, p: Proc, run: Runner)
    requires i <= |units|
    ensures var r := RunFrom(units, i, p, run);
      r.end == Returned && |r.trace| > 0 ==>
        Last(r.trace).unit < |units| && Last(r.trace).action == |units[Last(r.trace).unit].actions| - 1
    decreases |units| - i
  {
    if i == |units| {
    } else if Exists(p, units[i].marker) {
      RunFromReturnsFinished(units, i + 1, p, run);
    } else {
      var ran := RunActions(units[i].actions, 0, p, run);
      var os, q := ran.0, ran.1;
      RunActionsStops(units[i].actions, 0, p, run);
      if !(|os| > 0 && Last(os) != Passed) {
        RunFromReturnsFinished(units, i + 1, q, run);
        var rest := RunFrom(units, i + 1, q, run);
        var t := Tag(i, os) + rest.trace;
        if |rest.trace| > 0 {
          assert Last(t) == Last(rest.trace);
        } else if |os| > 0 {
          assert Last(t) == Attempt(i, |os| - 1, Last(os));
        }
      }
    }
  }

  /** A unit whose marker exists when the run reaches it is skipped: none
      of its actions is attempted and the run goes on as if it were not
      there. */
  lemma InstalledUnitSkipped(units: seq<Unit>, i: nat, p: Proc, run: Runner)
    requires i < |units| && Exists(p, units[i].marker)
    ensures RunFrom(units, i, p, run) == RunFrom(units, i + 1, p, run)
    ensures forall k :: 0 <= k < |RunFrom(units, i, p, run).trace| ==>
              RunFrom(units, i, p, run).trace[k].unit != i
  {
    RunFromShape(units, i + 1, p, run);
  }

  // ---------------------------------------------------------------------
  // DepsBuild

  /** The inputs `DepsBuild` reads: the Linux distribution's short name,
      the builder's jenkins flag, `dir_blender_libs`, `build_jobs`,
      `mode_test`, and the home directory `~` expands to. */
  datatype DepsConfig = DepsConfig(
    distro: string, jenkins: bool, dirBlenderLibs: string, buildJobs: nat, modeTest: bool, home: string)

  datatype Placement = Abort | Placement(prefix: string, wd: string)

  /** The install prefix and the build directory. Under jenkins
      `dir_blender_libs` is mandatory; a non-empty one overrides the
      distribution default; the build directory then lies inside the
      prefix. */
  function SelectDirs(distro: string, jenkins: bool, libs: string, home: string): (r: Placement)
    ensures r.Abort? <==> jenkins && libs == ""
    ensures r.Placement? ==>
              r.prefix == if libs != "" then libs else if distro == "centos" then "/opt/lib" else "/opt"
    ensures r.Placement? && jenkins ==>
              r.wd == PathJoin(r.prefix, "builds") && StartsWith(r.wd, r.prefix) && |r.wd| > |r.prefix|
    ensures r.Placement? && !jenkins ==> r.wd == ExpandHome(home, "/blender-libs-builds")
  {
    RelativeName("builds");
    var prefix := if distro == "centos" then "/opt/lib" else "/opt";
    if jenkins && libs == "" then Abort
    else
      var prefix' := if libs != "" then libs else prefix;
      var wd := ExpandHome(home, "/blender-libs-builds");
      var wd' := if jenkins then PathJoin(prefix', "builds") else wd;
      Placement(prefix', wd')
  }

  /** What a whole call of `DepsBuild` does, and the prefix it records as
      `_blender_libs_location` (when it gets that far). */
  function DepsBuildSpec(cfg: DepsConfig, p: Proc, run: Runner): (Run, Option<string>) {
    match SelectDirs(cfg.distro, cfg.jenkins, cfg.dirBlenderLibs, cfg.home)
    case Abort => (Run(Exit(-1), [], p), None)
    case Placement(prefix, wd) =>
      var made := if IsDir(p, wd) then Some(p) else AfterMakedirs(p, wd);
      match made
      case None => (Run(Raised("OSError"), [], p), None)
      case Some(q) =>
        if cfg.modeTest then (Run(Returned, [], q), Some(prefix))
        else (RunFrom(DepsTable(prefix, wd, cfg.buildJobs), 0, q, run), Some(prefix))
  }

  /** Under jenkins without `dir_blender_libs` the build stops with -1
      before it touches anything. */
  lemma JenkinsNeedsLibsDir(cfg: DepsConfig, p: Proc, run: Runner)
    requires cfg.jenkins && cfg.dirBlenderLibs == ""
    ensures DepsBuildSpec(cfg, p, run) == (Run(Exit(-1), [], p), None)
  {
  }

  /** In test mode no action runs; at most the build directory is
      created, and nothing that existed changes. */
  lemma TestModeRunsNothing(cfg: DepsConfig, p: Proc, run: Runner)
    requires cfg.modeTest && !(cfg.jenkins && cfg.dirBlenderLibs == "")
    ensures var r := DepsBuildSpec(cfg, p, run).0;
      && r.trace == [] && r.end != Exit(-1)
      && r.proc.cwd == p.cwd && r.proc.env == p.env
      && forall k :: k in p.fs ==> k in r.proc.fs && r.proc.fs[k] == p.fs[k]
  {
  }

  /** One action on the host: the body of the inner loop of `DepsBuild`. */
  method PerformStep(host: Machine, a: Action, run: Runner) returns (o: Outcome)
    modifies host
    ensures (o, host.State()) == Perform(a, old(host.State()), run)
  {
    match a
    case Chdir(d) =>
      var ok := host.Chdir(d);
      o := if ok then Passed else Crashed;
    case Download(url, dest, name) =>
      var code := host.Call(Shell(WgetLine(url, dest, name)), run);
      o := if code == 0 then Passed else Failed;
    case Command(line) =>
      var code := host.Call(Shell(line), run);
      o := if code == 0 then Passed else Failed;
    case RemoveDylibs(dir) =>
      var ok := RemoveDylibsIn(host.State(), dir).1;
      host.RemoveFiles(DylibFiles(host.State(), dir));
      o := if ok then Passed else Failed;
  }

  /** The inner loop of `DepsBuild` over one unit's actions, with its
      `fail` flag and `break`. */
  method RunUnit(host: Machine, acts: seq<Action>, run: Runner) returns (outcomes: seq<Outcome>)
    modifies host
    ensures (outcomes, host.State()) == RunActions(acts, 0, old(host.State()), run)
  {
    ghost var whole := RunActions(acts, 0, host.State(), run);
    outcomes := [];
    var j := 0;
    assert whole.0 == outcomes + RunActions(acts, j, host.State(), run).0;
    while j < |acts|
      invariant 0 <= j <= |acts|
      invariant |outcomes| == j && forall k :: 0 <= k < j ==> outcomes[k] == Passed
      invariant whole.0 == outcomes + RunActions(acts, j, host.State(), run).0
      invariant whole.1 == RunActions(acts, j, host.State(), run).1
      decreases |acts| - j
    {
      ghost var before := host.State();
      ghost var left := RunActions(acts, j, before, run);
      var o := PerformStep(host, acts[j], run);
      if o != Passed {
        assert left == ([o], host.State());
        outcomes := outcomes + [o];
        return;
      }
      ghost var next := RunActions(acts, j + 1, host.State(), run);
      assert left == ([Passed] + next.0, next.1);
      assert outcomes + left.0 == (outcomes + [o]) + next.0;
      outcomes := outcomes + [o];
      j := j + 1;
    }
    assert RunActions(acts, j, host.State(), run) == ([], host.State());
    assert outcomes + [] == outcomes;
  }

  /** One pass of the outer loop of `DepsBuild` for a unit whose marker is
      missing: its attempts, and how the build ends if it ends here. */
  method InstallUnit(host: Machine, data: seq<Unit>, i: nat, run: Runner)
    returns (attempts: seq<Attempt>, stop: Option<Termination>)
    requires i < |data| && !Exists(host.State(), data[i].marker)
    modifies host
    ensures stop.Some? ==> RunFrom(data, i, old(host.State()), run) == Run(stop.value, attempts, host.State())
    ensures stop.None? ==>
              var rest := RunFrom(data, i + 1, host.State(), run);
              RunFrom(data, i, old(host.State()), run) == Run(rest.end, attempts + rest.trace, rest.proc)
  {
    var item := data[i];
    var outcomes := RunUnit(host, item.actions, run);
    attempts := Tag(i, outcomes);
    if |outcomes| > 0 && Last(outcomes) == Failed {
      if Exists(host.State(), item.marker) {
        host.RemoveTree(item.marker);
      }
      return attempts, Some(Exit(-1));
    }
    if |outcomes| > 0 && Last(outcomes) == Crashed {
      return attempts, Some(Raised("OSError"));
    }
    stop := None;
  }

  /** The outer loop of `DepsBuild` over the units. */
  method RunUnits(host: Machine, data: seq<Unit>, run: Runner) returns (end: Termination, trace: seq<Attempt>)
    modifies host
    ensures Run(end, trace, host.State()) == RunFrom(data, 0, old(host.State()), run)
  {
    ghost var whole := RunFrom(data, 0, host.State(), run);
    trace := [];
    var i := 0;
    while i < |data|
      invariant 0 <= i <= |data|
      invariant whole.end == RunFrom(data, i, host.State(), run).end
      invariant whole.trace == trace + RunFrom(data, i, host.State(), run).trace
      invariant whole.proc == RunFrom(data, i, host.State(), run).proc
      decreases |data| - i
    {
      if Exists(host.State(), data[i].marker) {
        i := i + 1;
        continue;
      }
      var attempts, stop := InstallUnit(host, data, i, run);
      if stop.Some? {
        return stop.value, trace + attempts;
      }
      ghost var rest := RunFrom(data, i + 1, host.State(), run);
      assert trace + (attempts + rest.trace) == (trace + attempts) + rest.trace;
      trace := trace + attempts;
      i := i + 1;
    }
    assert trace + [] == trace;
    end := Returned;
  }

  /** `DepsBuild`: choose the directories, create the build directory,
      record the prefix, then install every unit whose marker is missing,
      stopping at the first action that does not pass. */
  method DepsBuild(host: Machine, cfg: DepsConfig, run: Runner)
    returns (end: Termination, trace: seq<Attempt>, location: Option<string>)
    modifies host
    ensures (Run(end, trace, host.State()), location) == DepsBuildSpec(cfg, old(host.State()), run)
  {
    var sel := SelectDirs(cfg.distro, cfg.jenkins, cfg.dirBlenderLibs, cfg.home);
    if sel.Abort? {
      return Exit(-1), [], None;
    }
    var prefix, wd := sel.prefix, sel.wd;
    if !IsDir(host.State(), wd) {
      var ok := host.Makedirs(wd);
      if !ok {
        return Raised("OSError"), [], None;
      }
    }
    location := Some(prefix);
    var data := DepsTable(prefix, wd, cfg.buildJobs);
    if cfg.modeTest {
      return Returned, [], location;
    }
    end, trace := RunUnits(host, data, run);
  }
}
