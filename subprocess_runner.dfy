/**
  SubprocessRunner, the fuzzer that runs an external generator once and then hands
  out the files it wrote, one per call. The file system and the child process are
  modelled by a Host object whose maps the runner's methods read and update.
 */
module Runner {
  import opened Wrappers
  import Utf8
  import Template

  type Bytes = seq<Utf8.byte>
  type Path = string

  /** os.path.join(dir, name) for two components. */
  function Join(dir: Path, name: string): (p: Path)
    ensures name != [] && name[0] == '/' ==> p == name
    ensures (name == [] || name[0] != '/') ==> p == DirPrefix(dir) + name
  {
    if name != [] && name[0] == '/' then name
    else if dir == [] || dir[|dir| - 1] == '/' then dir + name
    else dir + "/" + name
  }

  /** dir with the separator Join puts before a name under it. */
  function DirPrefix(dir: Path): Path {
    if dir == [] || dir[|dir| - 1] == '/' then dir else dir + "/"
  }

  /** A name os.listdir can report: not empty, not "." or "..", without a separator. */
  predicate ValidName(n: string) {
    n != [] && n != "." && n != ".." && '/' !in n
  }

  /** p lies somewhere strictly below dir. */
  predicate Below(p: Path, dir: Path) {
    |DirPrefix(dir)| < |p| && p[..|DirPrefix(dir)|] == DirPrefix(dir)
  }

  /** p is dir itself or lies somewhere below it. */
  predicate Under(p: Path, dir: Path) {
    p == dir || Below(p, dir)
  }

  /** p names an entry directly inside dir. */
  predicate IsEntry(p: Path, dir: Path) {
    |DirPrefix(dir)| < |p| && p[..|DirPrefix(dir)|] == DirPrefix(dir) && ValidName(p[|DirPrefix(dir)|..])
  }

  /** A command line the runner started, with the directory and environment it got. */
  datatype Launch = Launch(command: string, cwd: Path, env: Option<map<string, string>>)

  /** Why a call of the runner raised. */
  datatype ReadError = CannotOpen(path: Path)  // the queued path is not a regular file, so opening it fails

  /** Why __enter__ raised. */
  datatype EnterError =
    | CannotCreateDirectory                          // creating the empty path fails
    | CommandFormatFailed(error: Template.FormatError)  // filling the command template failed

  /** The machine the runner works on: regular files with their contents, directories, and the child processes started. */
  class Host {
    var files: map<Path, Bytes>
    var dirs: set<Path>
    var launched: seq<Launch>

    constructor (files: map<Path, Bytes>, dirs: set<Path>)
      ensures this.files == files && this.dirs == dirs && launched == []
    {
      this.files := files;
      this.dirs := dirs;
      launched := [];
    }
  }

  // ---------------------------------------------------------------------------
  // The runner's settings and the file-system effects it relies on
  // ---------------------------------------------------------------------------

  /** The working directory: the given cwd, or the current directory when cwd is missing or empty. */
  function WorkingDirectory(cwd: Option<Path>, currentDir: Path): (r: Path)
    ensures cwd.Some? && cwd.value != [] ==> r == cwd.value
    ensures cwd == None || cwd == Some([]) ==> r == currentDir
  {
    if cwd.Some? && cwd.value != [] then cwd.value else currentDir
  }

  /**
    The child's environment: none (the child inherits the parent's) when env is
    missing or empty, else the parent's variables updated with the overrides parsed
    from env.
   */
  function Environment(environ: map<string, string>, overrides: Option<map<string, string>>): (r: Option<map<string, string>>)
    ensures r.Some? <==> overrides.Some?
    ensures overrides.Some? ==> r.value.Keys == environ.Keys + overrides.value.Keys
    ensures overrides.Some? ==> forall n :: n in overrides.value ==> r.value[n] == overrides.value[n]
    ensures overrides.Some? ==> forall n :: n in environ && n !in overrides.value ==> r.value[n] == environ[n]
  {
    if overrides.Some? then Some(environ + overrides.value) else None
  }

  /**
    shutil.rmtree(dir, ignore_errors=True) on the files: everything below dir goes. A
    file at dir itself is not a tree: rmtree fails on it, the error is ignored, and
    the file stays.
   */
  function RemoveFiles(files: map<Path, Bytes>, dir: Path): (r: map<Path, Bytes>)
    ensures forall p :: p in r <==> p in files && !Below(p, dir)
    ensures forall p :: p in r ==> r[p] == files[p]
    ensures dir in files ==> dir in r
  {
    map p | p in files && !Below(p, dir) :: files[p]
  }

  /** shutil.rmtree(dir, ignore_errors=True) on the directories: dir and all below it go. */
  function RemoveDirs(dirs: set<Path>, dir: Path): (r: set<Path>)
    ensures forall p :: p in r <==> p in dirs && !Under(p, dir)
  {
    set p | p in dirs && !Under(p, dir)
  }

  /**
    os.listdir(dir) as the runner sees it: listing names, once each and in some
    order, exactly the entries directly inside dir.
   */
  ghost predicate ListsEntries(listing: seq<string>, dir: Path, files: map<Path, Bytes>, dirs: set<Path>) {
    && (forall i :: 0 <= i < |listing| ==> ValidName(listing[i]))
    && (forall i, j :: 0 <= i < j < |listing| ==> listing[i] != listing[j])
    && (forall n :: ValidName(n) ==> (n in listing <==> Join(dir, n) in files || Join(dir, n) in dirs))
  }

  /** The queue __enter__ builds: every listed name joined to the output directory. */
  function Queue(outdir: Path, listing: seq<string>): (q: seq<Path>)
    ensures |q| == |listing|
    ensures forall i :: 0 <= i < |q| ==> q[i] == Join(outdir, listing[i])
  {
    seq(|listing|, i requires 0 <= i < |listing| => Join(outdir, listing[i]))
  }

  /**
    What one call returns for queue q: None once the queue is empty, else the
    contents of its last path, or the error of opening a path that is not a file.
   */
  function Pull(q: seq<Path>, files: map<Path, Bytes>): (r: Result<Option<Bytes>, ReadError>)
    ensures r == Ok(None) <==> q == []
    ensures q != [] && q[|q| - 1] in files ==> r == Ok(Some(files[q[|q| - 1]]))
    ensures q != [] && q[|q| - 1] !in files ==> r == Err(CannotOpen(q[|q| - 1]))
  {
    if q == [] then Ok(None)
    else
      var test := q[|q| - 1];
      if test in files then Ok(Some(files[test])) else Err(CannotOpen(test))
  }

  /** The queue after one call: its last path is popped, even when opening it fails. */
  function Rest(q: seq<Path>): (r: seq<Path>)
    ensures q == [] ==> r == []
    ensures q != [] ==> q == r + [q[|q| - 1]]
  {
    if q == [] then [] else q[..|q| - 1]
  }

  /** The results of n calls in a row, starting from queue q. */
  function Pulls(q: seq<Path>, files: map<Path, Bytes>, n: nat): (rs: seq<Result<Option<Bytes>, ReadError>>)
    ensures |rs| == n
  {
    if n == 0 then [] else [Pull(q, files)] + Pulls(Rest(q), files, n - 1)
  }

  // ---------------------------------------------------------------------------
  // The runner
  // ---------------------------------------------------------------------------

  class SubprocessRunner {
    const uid: string
    const outdir: Path
    const command: string
    const cwd: Path
    const env: Option<map<string, string>>
    var tests: seq<Path>

    /**
      __init__: the output directory is the template with {uid} filled in; the
      command is kept unformatted until __enter__; no test is queued yet.
      The process id and object id that make up uid, the current directory and the
      parent environment are parameters.
     */
    constructor (uid: string, outdirTemplate: string, command: string, cwd: Option<Path>,
                 overrides: Option<map<string, string>>, currentDir: Path, environ: map<string, string>)
      requires Template.Format(outdirTemplate, Template.UidArguments(uid)).Ok?
      ensures this.uid == uid
      ensures outdir == Template.Format(outdirTemplate, Template.UidArguments(uid)).value
      ensures this.command == command
      ensures this.cwd == WorkingDirectory(cwd, currentDir)
      ensures env == Environment(environ, overrides)
      ensures tests == []
    {
      this.uid := uid;
      outdir := Template.Format(outdirTemplate, Template.UidArguments(uid)).value;
      this.command := command;
      this.cwd := WorkingDirectory(cwd, currentDir);
      env := Environment(environ, overrides);
      tests := [];
    }

    /**
      __enter__ as written: create the output directory, format the command and run
      it to completion, then queue every entry of the output directory. The files
      the child writes into the output directory are the parameter written; listing
      is the order os.listdir returns the entries in.
      When formatting the command raises, the directory just created stays behind.
     */
    method Enter(host: Host, written: map<Path, Bytes>, listing: seq<string>) returns (r: Result<SubprocessRunner, EnterError>)
      requires forall p :: p in written ==> IsEntry(p, outdir)
      requires ListsEntries(listing, outdir, host.files + written, host.dirs + {outdir})
      modifies this, host
      ensures outdir == [] ==>
        && r == Err(CannotCreateDirectory)
        && host.files == old(host.files) && host.dirs == old(host.dirs) && host.launched == old(host.launched)
        && tests == old(tests)
      ensures outdir != [] && Template.Format(command, Template.UidArguments(uid)).Err? ==>
        && r == Err(CommandFormatFailed(Template.Format(command, Template.UidArguments(uid)).error))
        && host.dirs == old(host.dirs) + {outdir}
        && host.files == old(host.files) && host.launched == old(host.launched)
        && tests == old(tests)
      ensures outdir != [] && Template.Format(command, Template.UidArguments(uid)).Ok? ==>
        && r == Ok(this)
        && host.dirs == old(host.dirs) + {outdir}
        && host.launched == old(host.launched) + [Launch(Template.Format(command, Template.UidArguments(uid)).value, cwd, env)]
        && host.files == old(host.files) + written
        && tests == Queue(outdir, listing)
    {
      if outdir == [] {
        return Err(CannotCreateDirectory);
      }
      host.dirs := host.dirs + {outdir};
      var line := Template.Format(command, Template.UidArguments(uid));
      if line.Err? {
        return Err(CommandFormatFailed(line.error));
      }
      host.launched := host.launched + [Launch(line.value, cwd, env)];
      host.files := host.files + written;
      tests := Queue(outdir, listing);
      r := Ok(this);
    }

    /**
      __enter__ with the command formatted before the directory is created, so that
      an __enter__ that raises leaves the host exactly as it was.
     */
    method EnterChecked(host: Host, written: map<Path, Bytes>, listing: seq<string>) returns (r: Result<SubprocessRunner, EnterError>)
      requires forall p :: p in written ==> IsEntry(p, outdir)
      requires ListsEntries(listing, outdir, host.files + written, host.dirs + {outdir})
      modifies this, host
      ensures Template.Format(command, Template.UidArguments(uid)).Err? ==>
        r == Err(CommandFormatFailed(Template.Format(command, Template.UidArguments(uid)).error))
      ensures Template.Format(command, Template.UidArguments(uid)).Ok? && outdir == [] ==> r == Err(CannotCreateDirectory)
      ensures r.Ok? <==> outdir != [] && Template.Format(command, Template.UidArguments(uid)).Ok?
      ensures r.Err? ==>
        && host.files == old(host.files) && host.dirs == old(host.dirs) && host.launched == old(host.launched)
        && tests == old(tests)
      ensures r.Ok? ==>
        && r.value == this
        && host.dirs == old(host.dirs) + {outdir}
        && host.launched == old(host.launched) + [Launch(Template.Format(command, Template.UidArguments(uid)).value, cwd, env)]
        && host.files == old(host.files) + written
        && tests == Queue(outdir, listing)
    {
      var line := Template.Format(command, Template.UidArguments(uid));
      if line.Err? {
        return Err(CommandFormatFailed(line.error));
      }
      if outdir == [] {
        return Err(CannotCreateDirectory);
      }
      host.dirs := host.dirs + {outdir};
      host.launched := host.launched + [Launch(line.value, cwd, env)];
      host.files := host.files + written;
      tests := Queue(outdir, listing);
      r := Ok(this);
    }

    /** __call__: pop the last queued path and return its contents; None once the queue is empty. */
    method Call(host: Host) returns (r: Result<Option<Bytes>, ReadError>)
      modifies this
      ensures r == Pull(old(tests), host.files)
      ensures tests == Rest(old(tests))
    {
      if tests == [] {
        return Ok(None);
      }
      var test := tests[|tests| - 1];
      tests := tests[..|tests| - 1];
      if test in host.files {
        r := Ok(Some(host.files[test]));
      } else {
        r := Err(CannotOpen(test));
      }
    }

    /**
      __exit__: remove the output directory and everything below it, ignoring
      errors, and never suppress an exception. rmtree('') fails and is ignored.
     */
    method Exit(host: Host) returns (suppress: bool)
      modifies host
      ensures !suppress
      ensures outdir != [] ==> host.files == RemoveFiles(old(host.files), outdir) && host.dirs == RemoveDirs(old(host.dirs), outdir)
      ensures outdir == [] ==> host.files == old(host.files) && host.dirs == old(host.dirs)
      ensures host.launched == old(host.launched)
    {
      if outdir != [] {
        host.files := RemoveFiles(host.files, outdir);
        host.dirs := RemoveDirs(host.dirs, outdir);
      }
      suppress := false;
    }
  }

  /** SubprocessRunner(...) as a call that raises when the output directory template does not format. */
  method Create(uid: string, outdirTemplate: string, command: string, cwd: Option<Path>,
                overrides: Option<map<string, string>>, currentDir: Path, environ: map<string, string>)
    returns (r: Result<SubprocessRunner, Template.FormatError>)
    ensures r.Err? <==> Template.Format(outdirTemplate, Template.UidArguments(uid)).Err?
    ensures r.Err? ==> r.error == Template.Format(outdirTemplate, Template.UidArguments(uid)).error
    ensures r.Ok? ==>
      && fresh(r.value) && r.value.uid == uid
      && r.value.outdir == Template.Format(outdirTemplate, Template.UidArguments(uid)).value
      && r.value.command == command && r.value.cwd == WorkingDirectory(cwd, currentDir)
      && r.value.env == Environment(environ, overrides) && r.value.tests == []
  {
    var o := Template.Format(outdirTemplate, Template.UidArguments(uid));
    if o.Err? {
      return Err(o.error);
    }
    var runner := new SubprocessRunner(uid, outdirTemplate, command, cwd, overrides, currentDir, environ);
    r := Ok(runner);
  }

  // ---------------------------------------------------------------------------
  // Lemmas
  // ---------------------------------------------------------------------------

  /**
    Successive calls return every queued file exactly once, last queued first, and
    None for every call after that.
   */
  lemma {:induction false} PullsReturnEachOnce(q: seq<Path>, files: map<Path, Bytes>, n: nat)
    requires forall i :: 0 <= i < |q| ==> q[i] in files
    requires n >= |q|
    ensures forall i :: 0 <= i < |q| ==> Pulls(q, files, n)[i] == Ok(Some(files[q[|q| - 1 - i]]))
    ensures forall i :: |q| <= i < n ==> Pulls(q, files, n)[i] == Ok(None)
    decreases n
  {
    if n > 0 {
      var rest := Rest(q);
      PullsReturnEachOnce(rest, files, n - 1);
      var rs := Pulls(q, files, n);
      assert rs == [Pull(q, files)] + Pulls(rest, files, n - 1);
      if q != [] {
        forall i | 1 <= i < |q| ensures rs[i] == Ok(Some(files[q[|q| - 1 - i]])) {
          assert rs[i] == Pulls(rest, files, n - 1)[i - 1];
          assert rest[|rest| - 1 - (i - 1)] == q[|q| - 1 - i];
        }
      }
    }
  }

  /** Once the queue is empty every further call returns None and leaves it empty. */
  lemma {:induction false} ExhaustedStaysExhausted(files: map<Path, Bytes>, n: nat)
    ensures forall i :: 0 <= i < n ==> Pulls([], files, n)[i] == Ok(None)
    decreases n
  {
    if n > 0 {
      ExhaustedStaysExhausted(files, n - 1);
      assert Pulls([], files, n) == [Ok(None)] + Pulls([], files, n - 1);
    }
  }

  /** The queue __enter__ builds names exactly the entries of the output directory, each once. */
  lemma QueueIsDirectoryContents(outdir: Path, listing: seq<string>, files: map<Path, Bytes>, dirs: set<Path>)
    requires ListsEntries(listing, outdir, files, dirs)
    ensures forall i :: 0 <= i < |Queue(outdir, listing)| ==> IsEntry(Queue(outdir, listing)[i], outdir)
    ensures forall i :: 0 <= i < |Queue(outdir, listing)| ==>
      Queue(outdir, listing)[i] in files || Queue(outdir, listing)[i] in dirs
    ensures forall i, j :: 0 <= i < j < |Queue(outdir, listing)| ==> Queue(outdir, listing)[i] != Queue(outdir, listing)[j]
  {
    var q := Queue(outdir, listing);
    var d := DirPrefix(outdir);
    forall i | 0 <= i < |q| ensures IsEntry(q[i], outdir) && (q[i] in files || q[i] in dirs) {
      assert listing[i] in listing;
      assert q[i] == d + listing[i];
      assert q[i][..|d|] == d && q[i][|d|..] == listing[i];
    }
    forall i, j | 0 <= i < j < |q| ensures q[i] != q[j] {
      assert q[i] == d + listing[i] && q[j] == d + listing[j];
      assert q[i][|d|..] == listing[i] && q[j][|d|..] == listing[j];
    }
  }

  /** After __exit__ nothing under the output directory is left, and nothing elsewhere was touched. */
  lemma ExitRemovesWorkspace(files: map<Path, Bytes>, dirs: set<Path>, outdir: Path)
    requires outdir != []
    ensures outdir !in RemoveDirs(dirs, outdir)
    ensures forall p :: IsEntry(p, outdir) ==> p !in RemoveFiles(files, outdir) && p !in RemoveDirs(dirs, outdir)
    ensures forall p :: p in files && !Under(p, outdir) ==> p in RemoveFiles(files, outdir)
    ensures outdir in files ==> RemoveFiles(files, outdir)[outdir] == files[outdir]
  {
  }

  /** rmtree on a path that holds a regular file removes nothing. */
  lemma FileAtOutdirKept(files: map<Path, Bytes>, outdir: Path)
    requires outdir == "/w/42" && files == map[outdir := []]
    ensures RemoveFiles(files, outdir) == files
  {
    assert !Below(outdir, outdir);
  }

  // ---------------------------------------------------------------------------
  // Clients
  // ---------------------------------------------------------------------------

  /**
    A fuzz job on a generator that writes two files: __enter__ queues both, the
    calls return the last listed first, then None, and __exit__ removes the output
    directory and both files.
   */
  method RunnerScenario(uid: string, template: string, outdir: Path, command: string, line: string)
    requires uid == "42-7" && template == "/tmp/work/{uid}" && outdir == "/tmp/work/42-7"
    requires command == "gen -o {uid}" && line == "gen -o 42-7"
  {
    ScenarioFormats(uid, template, outdir, command, line);
    var runner := new SubprocessRunner(uid, template, command, None, None, "/home/fuzz", map[]);
    assert runner.outdir == outdir;
    assert runner.cwd == "/home/fuzz" && runner.env == None;
    var host := new Host(map[], {});
    var started := DrainTwoFiles(runner, host);
    assert started == line;
  }

  lemma ScenarioFormats(uid: string, template: string, outdir: Path, command: string, line: string)
    requires uid == "42-7" && template == "/tmp/work/{uid}" && outdir == "/tmp/work/42-7"
    requires command == "gen -o {uid}" && line == "gen -o 42-7"
    ensures Template.Format(template, Template.UidArguments(uid)) == Ok(outdir)
    ensures Template.Format(command, Template.UidArguments(uid)) == Ok(line)
    ensures outdir != []
  {
    Template.FormatLiteralThenUid("/tmp/work/", uid);
    assert template == "/tmp/work/" + "{uid}";
    assert outdir == "/tmp/work/" + uid;
    Template.FormatLiteralThenUid("gen -o ", uid);
    assert command == "gen -o " + "{uid}";
    assert line == "gen -o " + uid;
  }

  /** The part of the scenario above that holds for any non-empty output directory. */
  method DrainTwoFiles(runner: SubprocessRunner, host: Host) returns (line: string)
    requires runner.outdir != [] && Template.Format(runner.command, Template.UidArguments(runner.uid)).Ok?
    requires host.files == map[] && host.dirs == {} && host.launched == []
    modifies runner, host
    ensures line == Template.Format(runner.command, Template.UidArguments(runner.uid)).value
  {
    line := Template.Format(runner.command, Template.UidArguments(runner.uid)).value;
    var d := DirPrefix(runner.outdir);
    var a := d + "a";
    var b := d + "b";
    var written := map[a := [0x41], b := [0x42]];
    var listing := ["a", "b"];
    TwoEntries(runner.outdir, listing, written);
    var entered := runner.Enter(host, written, listing);
    assert entered == Ok(runner);
    assert host.launched == [Launch(line, runner.cwd, runner.env)];
    assert runner.tests == [a, b];

    var first := runner.Call(host);
    assert first == Ok(Some([0x42]));
    var second := runner.Call(host);
    assert second == Ok(Some([0x41]));
    var third := runner.Call(host);
    assert third == Ok(None) && runner.tests == [];

    RemoveTwoFiles(runner.outdir, written);
    var suppress := runner.Exit(host);
    assert !suppress;
    assert host.files == map[] && host.dirs == {};
  }

  lemma RemoveTwoFiles(outdir: Path, written: map<Path, Bytes>)
    requires outdir != [] && written.Keys == {DirPrefix(outdir) + "a", DirPrefix(outdir) + "b"}
    ensures RemoveFiles(written, outdir) == map[] && RemoveDirs({outdir}, outdir) == {}
  {
    var d := DirPrefix(outdir);
    assert (d + "a")[..|d|] == d && (d + "b")[..|d|] == d;
    assert RemoveFiles(written, outdir).Keys == {};
  }

  lemma TwoEntries(outdir: Path, listing: seq<string>, written: map<Path, Bytes>)
    requires outdir != [] && listing == ["a", "b"]
    requires written.Keys == {DirPrefix(outdir) + "a", DirPrefix(outdir) + "b"}
    ensures forall p :: p in written ==> IsEntry(p, outdir)
    ensures ListsEntries(listing, outdir, map[] + written, {} + {outdir})
  {
    var d := DirPrefix(outdir);
    assert (d + "a")[..|d|] == d && (d + "a")[|d|..] == "a";
    assert (d + "b")[..|d|] == d && (d + "b")[|d|..] == "b";
    assert map[] + written == written;
    forall n | ValidName(n) ensures n in listing <==> Join(outdir, n) in written || Join(outdir, n) == outdir {
      var p := Join(outdir, n);
      assert p == d + n && |p| > |outdir|;
      assert p[|d|..] == n;
    }
  }

  /**
    A command holding braces that are not a placeholder: __enter__ as written raises
    a KeyError after creating the output directory, and since __exit__ only runs
    after a successful __enter__, the directory is left behind. The corrected
    __enter__ raises the same error without creating anything.
   */
  method EnterLeaksDirectory(template: string, command: string, outdirText: Path)
    requires template == "/tmp/work/{uid}" && outdirText == "/tmp/work/42-7"
    requires command == "awk '{print $1}' > {uid}.txt"
  {
    Template.FormatLiteralThenUid("/tmp/work/", "42-7");
    assert template == "/tmp/work/" + "{uid}";
    assert outdirText == "/tmp/work/" + "42-7";
    Template.FormatOtherFieldFails(command, "42-7");
    var listing := [];
    var host := new Host(map[], {});
    var runner := new SubprocessRunner("42-7", template, command, None, None, "/home/fuzz", map[]);
    assert runner.outdir == outdirText;
    EmptyOutdirListing(outdirText, map[], {outdirText});
    var entered := runner.Enter(host, map[], listing);
    assert entered == Err(CommandFormatFailed(Template.MissingKey("print $1")));
    assert outdirText in host.dirs;

    var host2 := new Host(map[], {});
    var runner2 := new SubprocessRunner("42-7", template, command, None, None, "/home/fuzz", map[]);
    var entered2 := runner2.EnterChecked(host2, map[], listing);
    assert entered2 == Err(CommandFormatFailed(Template.MissingKey("print $1")));
    assert host2.dirs == {} && host2.files == map[];
  }

  lemma EmptyOutdirListing(outdir: Path, files: map<Path, Bytes>, dirs: set<Path>)
    requires outdir == "/tmp/work/42-7" && files == map[] && dirs == {outdir}
    ensures ListsEntries([], outdir, files + map[], dirs)
  {
    assert files + map[] == files;
    forall n | ValidName(n) ensures Join(outdir, n) !in dirs {
      assert |Join(outdir, n)| > |outdir|;
    }
  }
}
