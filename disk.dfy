/** The part of the host filesystem the pipeline changes: regular files
    with their contents, directories, and the argument vector of every
    child process started.  Paths are the strings handed to `open`,
    `mkdir` and the commands; they are not normalised, but a relative
    name handed to `open` is joined onto the working directory. */
module Disk {
  import opened Wrappers
  import opened PyValues
  import opened Paths

  /** A file's contents, as written in text or in binary mode. */
  datatype Blob = Text(text: string) | Bytes(data: seq<byte>)

  datatype Fs = Fs(files: map<string, Blob>, dirs: set<string>, log: seq<seq<string>>)

  /** The state reached by a statement sequence and how it ended. */
  datatype Step<S> = Step(state: S, out: Outcome)

  /** `os.path.exists(p)` */
  predicate Exists(fs: Fs, p: string)
  {
    p in fs.files || p in fs.dirs
  }

  /** `p` and each ancestor named by a prefix of `p` ending before a '/'. */
  function Ancestry(p: string): (r: set<string>)
    ensures p in r
  {
    {p} + set i | 0 < i < |p| && p[i] == '/' :: p[..i]
  }

  /** No ancestor is longer than the path. */
  lemma AncestryShorter(p: string, q: string)
    requires q in Ancestry(p)
    ensures |q| <= |p|
  {
  }

  /** `pathlib.Path(p).mkdir(parents=True, exist_ok=True)`: every missing
      ancestor becomes a directory; a regular file at `p` raises
      FileExistsError and one at an ancestor NotADirectoryError. */
  function MkdirParents(fs: Fs, p: string): (r: Step<Fs>)
    ensures r.out.Pass? <==> forall q :: q in Ancestry(p) ==> q !in fs.files
    ensures r.out.Pass? ==> r.state == fs.(dirs := fs.dirs + Ancestry(p))
    ensures r.out.Fail? ==> r.state == fs
  {
    if p in fs.files then Step(fs, Fail(Raised("FileExistsError", p)))
    else if exists q :: q in Ancestry(p) && q in fs.files then Step(fs, Fail(Raised("NotADirectoryError", p)))
    else Step(fs.(dirs := fs.dirs + Ancestry(p)), Pass)
  }

  /** Creating the same directories twice changes nothing the second time. */
  lemma MkdirIdempotent(fs: Fs, p: string)
    requires MkdirParents(fs, p).out.Pass?
    ensures MkdirParents(MkdirParents(fs, p).state, p) == MkdirParents(fs, p)
  {
    var fs1 := MkdirParents(fs, p).state;
    assert fs1.dirs + Ancestry(p) == fs1.dirs;
  }

  /** A directory that exists whatever the filesystem holds: the root, or
      the working directory named by the empty string. */
  predicate IsDir(fs: Fs, d: string)
  {
    AllSlashes(d) || d in fs.dirs
  }

  /** `open(a, "w")` on the absolute name `a` creates or truncates a
      regular file: `a` names no directory, its directory exists, and no
      directory on the way there is a regular file. */
  predicate Writable(fs: Fs, a: string)
  {
    a != [] && a[|a| - 1] != '/' && a !in fs.dirs && IsDir(fs, Dirname(a)) && Ancestry(Dirname(a)) !! fs.files.Keys
  }

  /** An absolute file name whose directory `mkdir(parents=True)` can
      make: it names no directory and no directory on the way to it is a
      regular file. */
  predicate Creatable(fs: Fs, p: string)
  {
    IsAbsolute(p) && p[|p| - 1] != '/' && p !in fs.dirs && Ancestry(Dirname(p)) !! fs.files.Keys
  }

  /** `open(p, mode).write(...)` from the working directory `cwd`: a path
      of None raises TypeError before anything is opened, the empty name
      and a missing directory FileNotFoundError, a directory
      IsADirectoryError, a regular file on the way NotADirectoryError.
      On success the file at the joined name holds the blob. */
  function WriteFile(fs: Fs, cwd: string, p: Option<string>, b: Blob): (r: Step<Fs>)
    ensures r.out.Pass? <==> p.Some? && p.value != "" && Writable(fs, Abspath(cwd, p.value))
    ensures r.out.Pass? ==> r.state == fs.(files := fs.files[Abspath(cwd, p.value) := b])
    ensures r.out.Fail? ==> r.state == fs
    ensures p.None? ==> r.out.error.kind == "TypeError"
    ensures p.Some? && p.value == "" ==> r.out.error.kind == "FileNotFoundError"
    ensures p.Some? && p.value != "" ==>
      var a := Abspath(cwd, p.value);
      (a[|a| - 1] == '/' || a in fs.dirs ==> r.out.error.kind == "IsADirectoryError") &&
      (a[|a| - 1] != '/' && a !in fs.dirs && !(Ancestry(Dirname(a)) !! fs.files.Keys) ==>
         r.out.error.kind == "NotADirectoryError") &&
      (a[|a| - 1] != '/' && a !in fs.dirs && Ancestry(Dirname(a)) !! fs.files.Keys && !IsDir(fs, Dirname(a)) ==>
         r.out.error.kind == "FileNotFoundError")
  {
    match p
    case None => Step(fs, Fail(Raised("TypeError", "expected str, bytes or os.PathLike object, not NoneType")))
    case Some(path) =>
      if path == "" then Step(fs, Fail(Raised("FileNotFoundError", path)))
      else
        var a := Abspath(cwd, path);
        if a[|a| - 1] == '/' || a in fs.dirs then Step(fs, Fail(Raised("IsADirectoryError", a)))
        else if !(Ancestry(Dirname(a)) !! fs.files.Keys) then Step(fs, Fail(Raised("NotADirectoryError", a)))
        else if !IsDir(fs, Dirname(a)) then Step(fs, Fail(Raised("FileNotFoundError", a)))
        else Step(fs.(files := fs.files[a := b]), Pass)
  }

  /** Writing a file leaves it writable: the name is not on its own way. */
  lemma WriteKeepsWritable(fs: Fs, a: string, b: Blob)
    requires Writable(fs, a)
    ensures Writable(fs.(files := fs.files[a := b]), a)
  {
    DirnameShorter(a);
    if a in Ancestry(Dirname(a)) {
      AncestryShorter(Dirname(a), a);
    }
  }

  /** Once the directory of a creatable name exists, or has been made
      with its parents, the name is writable. */
  lemma {:induction false} MkdirMakesWritable(fs: Fs, p: string)
    requires Creatable(fs, p)
    ensures MkdirParents(fs, Dirname(p)).out.Pass?
    ensures Writable(MkdirParents(fs, Dirname(p)).state, p)
    ensures Exists(fs, Dirname(p)) ==> Writable(fs, p)
  {
    DirnameShorter(p);
    var d := Dirname(p);
    assert d in Ancestry(d);
    if p in Ancestry(d) {
      AncestryShorter(d, p);
    }
  }

  predicate AllSet(argv: seq<Option<string>>)
  {
    forall j :: 0 <= j < |argv| ==> argv[j].Some?
  }

  function Unwrapped(argv: seq<Option<string>>): (r: seq<string>)
    requires AllSet(argv)
    ensures |r| == |argv| && forall j :: 0 <= j < |argv| ==> r[j] == argv[j].value
  {
    seq(|argv|, j requires 0 <= j < |argv| => argv[j].value)
  }

  /** `subprocess.run(argv)` without `check`: the command is started and
      its exit status never raises.  A None in the vector raises TypeError
      before anything runs. */
  function RunCommand(fs: Fs, argv: seq<Option<string>>): (r: Step<Fs>)
    ensures r.out.Pass? <==> AllSet(argv)
    ensures r.state.files == fs.files && r.state.dirs == fs.dirs && fs.log <= r.state.log
    ensures AllSet(argv) ==> r.state == fs.(log := fs.log + [Unwrapped(argv)])
    ensures !AllSet(argv) ==> r.state == fs && r.out.error.kind == "TypeError"
  {
    if AllSet(argv) then Step(fs.(log := fs.log + [Unwrapped(argv)]), Pass)
    else Step(fs, Fail(Raised("TypeError", "expected str, bytes or os.PathLike object, not NoneType")))
  }

  /** The filesystem as a mutable object. */
  class Disk {
    var files: map<string, Blob>
    var dirs: set<string>
    var log: seq<seq<string>>

    function State(): Fs
      reads this
    {
      Fs(files, dirs, log)
    }

    constructor(fs: Fs)
      ensures State() == fs
    {
      files := fs.files;
      dirs := fs.dirs;
      log := fs.log;
    }

    method MakeDirs(p: string) returns (out: Outcome)
      modifies this
      ensures Step(State(), out) == MkdirParents(old(State()), p)
    {
      if p in files {
        return Fail(Raised("FileExistsError", p));
      }
      if exists q :: q in Ancestry(p) && q in files {
        return Fail(Raised("NotADirectoryError", p));
      }
      dirs := dirs + Ancestry(p);
      out := Pass;
    }

    /** `TemporaryDirectory()`: the fresh directory named `d`. */
    method AddDir(d: string)
      modifies this
      ensures State() == old(State()).(dirs := old(dirs) + {d})
    {
      dirs := dirs + {d};
    }

    method Write(cwd: string, p: Option<string>, b: Blob) returns (out: Outcome)
      modifies this
      ensures Step(State(), out) == WriteFile(old(State()), cwd, p, b)
    {
      ghost var fs := State();
      match p
      case None =>
        out := Fail(Raised("TypeError", "expected str, bytes or os.PathLike object, not NoneType"));
      case Some(path) =>
        if path == "" {
          return Fail(Raised("FileNotFoundError", path));
        }
        var a := Abspath(cwd, path);
        if a[|a| - 1] == '/' || a in dirs {
          return Fail(Raised("IsADirectoryError", a));
        }
        if !(Ancestry(Dirname(a)) !! files.Keys) {
          return Fail(Raised("NotADirectoryError", a));
        }
        if !(AllSlashes(Dirname(a)) || Dirname(a) in dirs) {
          return Fail(Raised("FileNotFoundError", a));
        }
        files := files[a := b];
        out := Pass;
        assert State() == fs.(files := fs.files[a := b]);
    }

    method Run(argv: seq<Option<string>>) returns (out: Outcome)
      modifies this
      ensures Step(State(), out) == RunCommand(old(State()), argv)
    {
      if AllSet(argv) {
        log := log + [Unwrapped(argv)];
        out := Pass;
      } else {
        out := Fail(Raised("TypeError", "expected str, bytes or os.PathLike object, not NoneType"));
      }
    }
  }
}
