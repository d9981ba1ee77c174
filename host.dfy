/** The outside world the build scripts act on: a filesystem of paths,
    a current working directory, the process environment, and external
    programs whose exit codes and effects come from an oracle. */
module Host {
  import opened Strings
  import opened Paths

  datatype Node = File | Dir

  /** Existing paths (absolute, as resolved against the working
      directory) and whether each is a regular file or a directory. */
  type FileSystem = map<string, Node>

  /** The state of the build process. */
  datatype Proc = Proc(fs: FileSystem, cwd: string, env: map<string, string>)

  /** A command handed to `subprocess.call`/`os.system` (a shell line or an
      argument vector), or a call of a Python helper whose source is not
      part of this model, by name and arguments. */
  datatype Command = Shell(line: string) | Argv(args: seq<string>) | Helper(name: string, args: seq<string>)

  /** What an external program did: its exit status as Python sees it and
      the filesystem it left behind. */
  datatype Ran = Ran(code: int, fs: FileSystem)

  /** The external world: given a command and the state it is started in,
      its exit status and its effect on the filesystem. */
  type Runner = (Command, Proc) -> Ran

  /** How a script ends: by returning, by `sys.exit(code)`, or by an
      uncaught exception. */
  datatype Termination = Returned | Exit(code: int) | Raised(error: string)

  function Resolve(p: Proc, path: string): string {
    PathJoin(p.cwd, path)
  }

  /** `os.path.exists`. */
  predicate Exists(p: Proc, path: string) {
    Resolve(p, path) in p.fs
  }

  /** `os.path.isdir`. */
  predicate IsDir(p: Proc, path: string) {
    Exists(p, path) && p.fs[Resolve(p, path)] == Dir
  }

  /** `os.chdir(path)`: `None` when it raises because `path` is not a
      directory. */
  function AfterChdir(p: Proc, path: string): (r: Option<Proc>)
    ensures r.Some? <==> IsDir(p, path)
    ensures r.Some? ==> r.value == p.(cwd := Resolve(p, path))
  {
    if IsDir(p, path) then Some(p.(cwd := Resolve(p, path))) else None
  }

  /** `os.makedirs(path)` raises when the path exists already or when one
      of its ancestors is a regular file. */
  predicate MakedirsBlocked(p: Proc, path: string) {
    var q := Resolve(p, path);
    q in p.fs || exists a :: a in Ancestors(q) && a in p.fs && p.fs[a] == File
  }

  /** `os.makedirs(path)`: `None` when it raises; otherwise the path and all
      its missing ancestors become directories and nothing else changes. */
  function AfterMakedirs(p: Proc, path: string): (r: Option<Proc>)
    ensures r.None? <==> MakedirsBlocked(p, path)
    ensures r.Some? ==> IsDir(r.value, path) && r.value.cwd == p.cwd && r.value.env == p.env
    ensures r.Some? ==> forall k :: k in p.fs ==> k in r.value.fs && r.value.fs[k] == p.fs[k]
    ensures r.Some? ==> forall k :: k in r.value.fs && k !in p.fs ==>
                          k == Resolve(p, path) || k in Ancestors(Resolve(p, path))
  {
    var q := Resolve(p, path);
    if MakedirsBlocked(p, path) then None
    else Some(p.(fs := map k | k in p.fs.Keys + Ancestors(q) + {q} :: if k in p.fs then p.fs[k] else Dir))
  }

  /** Recursive removal (`shutil.rmtree`-like): the path and everything
      beneath it disappear, nothing else changes. */
  function AfterRemoveTree(p: Proc, path: string): (r: Proc)
    ensures !Exists(r, path)
    ensures r.cwd == p.cwd && r.env == p.env
    ensures forall k :: k in r.fs <==> k in p.fs && !Within(k, Resolve(p, path))
    ensures forall k :: k in r.fs ==> r.fs[k] == p.fs[k]
  {
    var q := Resolve(p, path);
    p.(fs := map k | k in p.fs && !Within(k, q) :: p.fs[k])
  }

  /** Running an external command: the oracle decides the exit status and
      the new filesystem; the working directory and environment of this
      process are unaffected. */
  function AfterCall(p: Proc, c: Command, run: Runner): (r: (Proc, int))
    ensures r.0.cwd == p.cwd && r.0.env == p.env
    ensures r.0.fs == run(c, p).fs && r.1 == run(c, p).code
  {
    var ran := run(c, p);
    (p.(fs := ran.fs), ran.code)
  }

  /** The build process as an object whose state its methods update. */
  class Machine {
    var fs: FileSystem
    var cwd: string
    var env: map<string, string>

    function State(): Proc
      reads this
    {
      Proc(fs, cwd, env)
    }

    constructor (fs0: FileSystem, cwd0: string, env0: map<string, string>)
      ensures State() == Proc(fs0, cwd0, env0)
    {
      fs, cwd, env := fs0, cwd0, env0;
    }

    /** `os.chdir(path)`; `ok` is false when it raises. */
    method Chdir(path: string) returns (ok: bool)
      modifies this
      ensures ok == IsDir(old(State()), path)
      ensures State() == if ok then AfterChdir(old(State()), path).value else old(State())
    {
      var r := AfterChdir(State(), path);
      ok := r.Some?;
      if ok {
        cwd := r.value.cwd;
      }
    }

    /** `os.makedirs(path)`; `ok` is false when it raises. */
    method Makedirs(path: string) returns (ok: bool)
      modifies this
      ensures ok == !MakedirsBlocked(old(State()), path)
      ensures State() == if ok then AfterMakedirs(old(State()), path).value else old(State())
    {
      var r := AfterMakedirs(State(), path);
      ok := r.Some?;
      if ok {
        fs := r.value.fs;
      }
    }

    /** Recursive removal of `path`. */
    method RemoveTree(path: string)
      modifies this
      ensures State() == AfterRemoveTree(old(State()), path)
    {
      fs := AfterRemoveTree(State(), path).fs;
    }

    /** `os.remove` of each of the given (resolved) paths. */
    method RemoveFiles(paths: set<string>)
      modifies this
      ensures State() == old(State()).(fs := old(fs) - paths)
    {
      fs := fs - paths;
    }

    /** `subprocess.call`/`os.system`: the exit status of the command. */
    method Call(c: Command, run: Runner) returns (code: int)
      modifies this
      ensures (State(), code) == AfterCall(old(State()), c, run)
    {
      var r := AfterCall(State(), c, run);
      fs, code := r.0.fs, r.1;
    }

    /** `os.environ[name] = value`. */
    method SetEnv(name: string, value: string)
      modifies this
      ensures State() == old(State()).(env := old(env)[name := value])
    {
      env := env[name := value];
    }
  }
}
