/** The process runtime (packages/container-runtime/src/process.ts): the agent is a child of this process,
    its events update a `LiveRun`, and attachments follow the run's output from a byte offset.

    Handlers are atomic, so subscribing and reading the file is one step. Node may report `exit` before the
    last stdout data; nothing here excludes it. Successive children of a run share one output file. */
module ProcessRun {
  import opened RunSpec
  import opened RunStdin
  import opened ProcessFile
  import opened ProcessStdin
  import Lines

  /** The file's bytes from `from` to `to` (and no further than its end), read in as many short reads as
      the system makes of it. */
  method ReadFromByte(file: seq<Byte>, from: nat, to: Option<nat>) returns (out: seq<Byte>)
    ensures var end := if to.Some? && to.value < |file| then to.value else |file|;
            out == if end <= from then [] else file[from..end]
  {
    var end := if to.Some? && to.value < |file| then to.value else |file|;
    if end <= from { return []; }
    out := [];
    var length := end - from;
    while |out| < length
      invariant |out| <= length && out == file[from..from + |out|]
    {
      var n: nat :| 1 <= n <= length - |out|;
      out := out + file[from + |out|..from + |out| + n];
    }
  }

  /** `output.ndjson`: one file per run directory, whichever children append to it. */
  class OutputFile {
    var bytes: seq<Byte>

    constructor ()
      ensures bytes == []
    {
      bytes := [];
    }
  }

  /** One attachment: the byte it stands at, what was pushed to its `output`, whether the end was. */
  class Attachment {
    const from: nat
    var position: nat
    var output: seq<Byte>
    var ended: bool
    var exit: Option<RunExit>
    /** The run's output as the attachment was given it: what was on disk when it subscribed, and every
        chunk since. */
    ghost var image: seq<Byte>

    function View(): Follower<Byte>
      reads this
    {
      Follower(from, position, output, ended)
    }

    constructor (from: nat)
      ensures this.from == from && View() == Follower(from, from, [], false) && exit.None? && image == []
    {
      this.from, position, output, ended, exit, image := from, from, [], false, None, [];
    }

    /** Open, and exact: everything it was given from `from` on. */
    ghost predicate Follows()
      reads this
    {
      !ended && exit.None? && UpToDate(View(), image)
    }

    /** Over: it delivered what it was given from `from` on, up to where it ended. */
    ghost predicate Over()
      reads this
    {
      ended && exit.Some? && UpToDate(View(), image)
    }

    /** A chunk the child wrote behind its first `before` bytes. */
    method OnData(chunk: seq<Byte>, before: nat)
      requires Follows() && before == |image|
      modifies this
      ensures Follows() && image == old(image) + chunk
      ensures View() == TakeChunk(old(View()), chunk, before)
    {
      StaysUpToDate(View(), image, chunk);
      image := image + chunk;
      var rest := chunk;
      if before < position {
        var skip := position - before;
        if skip >= |chunk| { return; }
        rest := chunk[skip..];
      }
      position := position + |rest|;
      output := output + rest;
    }

    /** Ends the output, then settles `exit`; only the first call does anything. */
    method Finish(value: RunExit)
      modifies this`ended, this`exit
      ensures ended && (old(ended) ==> exit == old(exit)) && (!old(ended) ==> exit == Some(value))
    {
      if ended { return; }
      ended := true;
      exit := Some(value);
    }
  }

  function Without(list: seq<Attachment>, a: Attachment): (r: seq<Attachment>)
    ensures forall x | x in list :: x in r <==> x != a
    ensures forall x | x in r :: x in list
  {
    if list == [] then []
    else if list[0] == a then Without(list[1..], a)
    else [list[0]] + Without(list[1..], a)
  }

  ghost predicate Distinct(list: seq<Attachment>) {
    forall i, j :: 0 <= i < j < |list| ==> list[i] != list[j]
  }

  lemma {:induction false} WithoutDistinct(list: seq<Attachment>, a: Attachment)
    requires Distinct(list)
    ensures Distinct(Without(list, a))
    ensures a !in list ==> Without(list, a) == list
    ensures list != [] && list[0] == a ==> Without(list, a) == list[1..]
  {
    if list != [] {
      assert list[0] !in list[1..];
      WithoutDistinct(list[1..], a);
    }
  }

  class LiveRun {
    const runId: string
    const runDir: string
    const pid: nat
    const disk: OutputFile
    /** How many bytes this process appended for this child, and which: the disk may hold others too. */
    var written: nat
    ghost var own: seq<Byte>
    /** Who is subscribed to the run's events, in order. */
    var listeners: seq<Attachment>
    var exited: Option<int>
    /** `stdin.ndjson`, and the child's end of it. */
    var stdinFile: string
    var sent: string
    var stdinClosed: bool
    /** Every attachment the run ever had. */
    ghost var all: set<Attachment>

    ghost predicate Valid()
      reads this, all
    {
      && written == |own|
      && Distinct(listeners)
      && (forall a :: a in listeners ==> a in all && a.Follows() && |a.image| == written)
      && (forall a :: a in all ==> a in listeners || a.Over())
      && (exited.Some? ==> listeners == [])
    }

    ghost function StdinView(): Stdin
      reads this
    {
      Stdin(stdinFile, sent, stdinClosed)
    }

    /** A child that came up over an emptied output, with the initial stdin fed to it. */
    constructor (runId: string, runDir: string, pid: nat, disk: OutputFile, initialStdin: string)
      requires disk.bytes == []
      ensures Valid() && fresh(this) && this.disk == disk
      ensures this.runId == runId && this.runDir == runDir && this.pid == pid
      ensures written == 0 && own == [] && all == {} && exited.None? && StdinView() == Prime(initialStdin)
    {
      this.runId, this.runDir, this.pid, this.disk := runId, runDir, pid, disk;
      written, own, listeners, exited, all := 0, [], [], None, {};
      stdinFile, sent, stdinClosed := initialStdin, [], false;
      new;
      Feed(initialStdin);
    }

    // ---- Output ----

    /** A stdout chunk, before the child's exit or after: appended to the file as it is now, then handed to
        every subscriber. */
    method OnStdout(chunk: seq<Byte>)
      requires Valid()
      modifies disk, this`written, this`own, listeners
      ensures Valid() && disk.bytes == old(disk.bytes) + chunk && own == old(own) + chunk
      ensures forall a :: a in listeners ==> a.image == old(a.image) + chunk
      ensures forall a :: a in listeners ==> a.View() == TakeChunk(old(a.View()), chunk, old(written))
      ensures forall a :: a in all && old(a.ended) ==> a.output == old(a.output) && a.exit == old(a.exit)
    {
      var before := written;
      disk.bytes := disk.bytes + chunk;
      own := own + chunk;
      written := written + |chunk|;
      var i := 0;
      while i < |listeners|
        invariant 0 <= i <= |listeners|
        invariant forall j :: 0 <= j < i ==>
                    && listeners[j].Follows() && listeners[j].image == old(listeners[j].image) + chunk
                    && listeners[j].View() == TakeChunk(old(listeners[j].View()), chunk, before)
        invariant forall j :: i <= j < |listeners| ==>
                    && listeners[j].Follows() && listeners[j].image == old(listeners[j].image)
                    && listeners[j].View() == old(listeners[j].View())
        modifies listeners
      {
        listeners[i].OnData(chunk, before);
        i := i + 1;
      }
    }

    /** The child exited: recorded, and every attachment ends with its code. */
    method OnExit(code: int)
      requires Valid()
      modifies this`exited, this`listeners, listeners`ended, listeners`exit
      ensures Valid() && exited == Some(code) && listeners == []
      ensures forall a :: a in old(listeners) ==>
                a.ended && a.exit == Some(Exited(code)) && a.output == Tail(a.image, a.from)
      ensures forall a :: a in all && a !in old(listeners) ==> a.output == old(a.output) && a.exit == old(a.exit)
    {
      forall j | 0 <= j < |listeners| ensures !listeners[j].ended && listeners[j].exit.None? {
        assert listeners[j] in listeners && listeners[j].Follows();
      }
      exited := Some(code);
      var copy := listeners;
      var i := 0;
      while i < |copy|
        invariant 0 <= i <= |copy| && listeners == copy[i..]
        invariant forall j :: i <= j < |copy| ==> !copy[j].ended && copy[j].exit.None?
        invariant forall j :: 0 <= j < i ==> copy[j].ended && copy[j].exit == Some(Exited(code))
        modifies this`listeners, copy`ended, copy`exit
      {
        WithoutDistinct(listeners, copy[i]);
        listeners := Without(listeners, copy[i]);
        copy[i].Finish(Exited(code));
        i := i + 1;
      }
    }

    /** Attaches from `fromByte`: subscribed first, then what is on disk read up to `written`. While the file
        holds the child's output only, that is all the child wrote from there on. */
    method Attach(fromByte: int) returns (a: Attachment)
      requires Valid() && (exited.None? ==> written <= |disk.bytes|)
      modifies this`listeners, this`all
      ensures Valid() && fresh(a) && all == old(all) + {a} && a.from == (if fromByte < 0 then 0 else fromByte)
      ensures a.View().(done := false) == OpenAt(disk.bytes, written, a.from)
      ensures a.image == disk.bytes[..if written < |disk.bytes| then written else |disk.bytes|]
      ensures a.output == Tail(a.image, a.from) && (disk.bytes == own ==> a.image == own)
      ensures if exited.Some? then a.ended && a.exit == Some(Exited(exited.value)) else a in listeners
    {
      a := new Attachment(if fromByte < 0 then 0 else fromByte);
      Subscribe(a);
      if exited.Some? {
        assert listeners == [a];
        WithoutDistinct(listeners, a);
        listeners := Without(listeners, a);
        a.Finish(Exited(exited.value));
      }
    }

    /** Subscribes, then reads what is on disk: one step, as handlers are atomic. */
    method Subscribe(a: Attachment)
      requires a !in listeners && a.View() == Follower(a.from, a.from, [], false) && a.exit.None?
      modifies this`listeners, this`all, a`output, a`position, a`image
      ensures listeners == old(listeners) + [a] && all == old(all) + {a}
      ensures a.image == disk.bytes[..if written < |disk.bytes| then written else |disk.bytes|]
      ensures a.Follows() && a.View() == OpenAt(disk.bytes, written, a.from)
    {
      listeners := listeners + [a];
      all := all + {a};
      var bytes := ReadFromByte(disk.bytes, a.from, Some(written));
      if |bytes| > 0 {
        a.output := a.output + bytes;
        a.position := a.from + |bytes|;
      }
      a.image := disk.bytes[..if written < |disk.bytes| then written else |disk.bytes|];
    }

    /** `close()` of one of the run's attachments, at any time and any number of times. */
    method Close(a: Attachment)
      requires Valid() && a in all
      modifies this`listeners, a`ended, a`exit
      ensures Valid() && a.ended && a !in listeners
      ensures old(a.ended) ==> a.exit == old(a.exit)
      ensures !old(a.ended) ==> a.exit == Some(Detached(Closed)) && a.output == Tail(a.image, a.from)
    {
      WithoutDistinct(listeners, a);
      listeners := Without(listeners, a);
      a.Finish(Detached(Closed));
    }

    // ---- Stdin ----

    /** Lines to the agent's stdin; the sentinel ends it, and nothing is written after. */
    method Feed(text: string)
      modifies this`sent, this`stdinClosed
      ensures StdinView() == FeedText(old(StdinView()), text)
    {
      if stdinClosed || text == [] { return; }
      var lines := Lines.Split(text, NL);
      if lines[|lines| - 1] == [] { lines := lines[..|lines| - 1]; }
      assert lines == ReadLines(text);
      WriteLines(lines);
    }

    method WriteLines(lines: seq<string>)
      requires !stdinClosed
      modifies this`sent, this`stdinClosed
      ensures sent == old(sent) + Lines.Unlines(BeforeEof(lines), NL)
      ensures stdinClosed <==> EOF_LINE in lines
    {
      var i := 0;
      while i < |lines|
        invariant 0 <= i <= |lines| && !stdinClosed
        invariant sent + Lines.Unlines(BeforeEof(lines[i..]), NL) == old(sent) + Lines.Unlines(BeforeEof(lines), NL)
        invariant EOF_LINE in lines <==> EOF_LINE in lines[i..]
      {
        assert lines[i..][0] == lines[i] && lines[i..][1..] == lines[i + 1..];
        Lines.Associative(sent, lines[i] + [NL], Lines.Unlines(BeforeEof(lines[i + 1..]), NL));
        Lines.Associative(sent, lines[i], [NL]);
        assert EOF_LINE in lines[i..] <==> lines[i] == EOF_LINE || EOF_LINE in lines[i..][1..];
        if lines[i] == EOF_LINE {
          stdinClosed := true;
          return;
        }
        sent := sent + lines[i] + [NL];
        i := i + 1;
      }
    }

    /** A delivered line: refused once the run is over or its stdin closed. */
    method DeliverStdin(line: string) returns (ok: bool)
      modifies this`stdinFile, this`sent, this`stdinClosed
      ensures ok == (exited.None? && !old(stdinClosed))
      ensures StdinView() == if ok then DeliverLine(old(StdinView()), line) else old(StdinView())
    {
      if exited.Some? || stdinClosed { return false; }
      stdinFile := stdinFile + line + [NL];
      Feed(line + [NL]);
      ok := true;
    }
  }

  datatype StartError = InvalidRunDir | InvalidRunId | StillActive | SpawnFailed

  datatype Result<+T, +E> = Ok(value: T) | Err(error: E)

  predicate AlphaNum(c: char) { 'a' <= c <= 'z' || 'A' <= c <= 'Z' || '0' <= c <= '9' }

  predicate SafeRunId(id: string) {
    && 1 <= |id| <= 128 && AlphaNum(id[0])
    && forall i :: 1 <= i < |id| ==> AlphaNum(id[i]) || id[i] in "_-"
  }

  predicate SafeRunDir(dir: string) {
    && |dir| >= 2 && dir[0] == '/'
    && (forall i :: 1 <= i < |dir| ==> AlphaNum(dir[i]) || dir[i] in "_./-")
    && !exists i :: 0 <= i < |dir| - 1 && dir[i] == '.' && dir[i + 1] == '.'
  }

  /** What is special to a shell, or ends a word. */
  predicate ShellChar(c: char) {
    || c == ' ' || c == '\t' || c == '\n' || c == '\r' || c == '\'' || c == '"' || c == '`' || c == '$' || c == '\\'
    || c == ';' || c == '&' || c == '|' || c == '<' || c == '>' || c == '*' || c == '?' || c == '~' || c == '#'
    || c == '(' || c == ')' || c == '[' || c == ']' || c == '{' || c == '}' || c == '!'
  }

  /** An accepted run directory is absolute, leads nowhere up, and has nothing in it that a shell would read. */
  lemma {:induction false} RunDirInside(dir: string, c: char)
    requires SafeRunDir(dir)
    ensures dir[0] == '/' && ".." !in Lines.Split(dir, '/')
    ensures c in dir ==> !ShellChar(c)
  {
    var parts := Lines.Split(dir, '/');
    Lines.SplitParts(dir, '/');
    forall i | 0 <= i < |parts| ensures parts[i] != ".." {
      var at := Lines.PartOffset(parts, i, '/');
      assert |parts[i]| == 2 ==> dir[at] == parts[i][0] && dir[at + 1] == parts[i][1];
    }
    if c in dir {
      var i :| 0 <= i < |dir| && dir[i] == c;
      PlainChar(c);
    }
  }

  lemma PlainChar(c: char)
    requires AlphaNum(c) || c in "_./-"
    ensures !ShellChar(c)
  {
  }

  /** Letters, digits, `_`, `/`, `-` and single dots. */
  predicate PlainPath(path: string) {
    && (forall i :: 0 <= i < |path| ==> AlphaNum(path[i]) || path[i] in "_./-")
    && (forall i :: 0 <= i < |path| - 1 ==> path[i] != '.' || path[i + 1] != '.')
  }

  lemma PathGlued(a: string, b: string)
    requires PlainPath(a) && PlainPath(b)
    ensures PlainPath(a + ['/'] + b)
  {
    var path := a + ['/'] + b;
    forall i | 0 <= i < |path|
      ensures path[i] == if i < |a| then a[i] else if i == |a| then '/' else b[i - |a| - 1]
    {
    }
  }

  /** And every absolute path of plain names is accepted. */
  lemma {:induction false} RunDirAccepted(names: seq<string>)
    requires names != [] && names[0] != [] && forall i :: 0 <= i < |names| ==> PlainPath(names[i])
    ensures SafeRunDir("/" + Lines.Join(names, '/'))
  {
    PathPlain(names);
    var path := Lines.Join(names, '/');
    var dir := "/" + path;
    assert dir[0] == '/' && dir[1..] == path && |path| >= |names[0]|;
    assert forall i :: 1 <= i < |dir| ==> dir[i] == path[i - 1];
  }

  lemma {:induction false} PathPlain(names: seq<string>)
    requires names != [] && forall i :: 0 <= i < |names| ==> PlainPath(names[i])
    ensures PlainPath(Lines.Join(names, '/'))
  {
    if |names| > 1 {
      PathPlain(names[1..]);
      PathGlued(names[0], Lines.Join(names[1..], '/'));
    }
  }

  /** A run id is accepted iff it is of letters, digits, `_` and `-`, up to 128 of them, and does not begin with
      one of these two; so it has nothing of a path in it. */
  lemma RunIdIff(id: string)
    ensures SafeRunId(id) <==>
            0 < |id| <= 128 && id[0] !in "_-" && forall c :: c in id ==> AlphaNum(c) || c == '_' || c == '-'
    ensures SafeRunId(id) ==> '/' !in id && '.' !in id
  {
    if 0 < |id| {
      assert id[0] in id;
    }
    assert forall i :: 0 <= i < |id| ==> id[i] in id;
  }

  class ProcessRuntime {
    var runs: map<string, LiveRun>
    /** The output file of each run directory, and the run id it belongs to. */
    var dirs: map<string, OutputFile>
    ghost var owner: map<string, string>
    /** Every child ever started. */
    ghost var started: set<LiveRun>

    /** The map finds every child that has not exited. */
    ghost predicate TableOk()
      reads this, started
    {
      && (forall id :: id in runs ==> runs[id] in started && runs[id].runId == id)
      && (forall r :: r in started && r.exited.None? ==> r.runId in runs && runs[r.runId] == r)
    }

    /** A run directory, and its output file, belong to one run id. */
    ghost predicate DirsOk()
      reads this, started
    {
      && dirs.Keys == owner.Keys
      && (forall d, e :: d in dirs && e in dirs && d != e ==> dirs[d] != dirs[e])
      && (forall r :: r in started ==> r.runDir in dirs && dirs[r.runDir] == r.disk && owner[r.runDir] == r.runId)
    }

    /** A running child's file has all it wrote. */
    ghost predicate DisksOk()
      reads this, started, set r | r in started :: r.disk
    {
      forall r :: r in started && r.exited.None? ==> r.written <= |r.disk.bytes|
    }

    ghost predicate Valid()
      reads this, started, set r | r in started :: r.disk
    {
      TableOk() && DirsOk() && DisksOk()
    }

    constructor ()
      ensures Valid() && runs == map[] && dirs == map[] && started == {}
    {
      runs, dirs, owner, started := map[], map[], map[], {};
    }

    /** A start; `pid` is what the spawn gave. The output is emptied before the spawn: a failed one leaves it
        so. A run directory belongs to one run. */
    method StartRun(runId: string, runDir: string, initialStdin: string, pid: Option<nat>)
      returns (r: Result<LiveRun, StartError>)
      requires Valid() && (runDir in owner ==> owner[runDir] == runId)
      modifies this, if runDir in dirs then {dirs[runDir]} else {}
      ensures Valid()
      ensures r == Err(InvalidRunDir) <==> !SafeRunDir(runDir)
      ensures r == Err(InvalidRunId) <==> SafeRunDir(runDir) && !SafeRunId(runId)
      ensures r == Err(StillActive) <==> SafeRunDir(runDir) && SafeRunId(runId) &&
                                         runId in old(runs) && old(runs)[runId].exited.None?
      ensures r.Err? ==> runs == old(runs) && started == old(started)
      ensures r.Err? && r.error != SpawnFailed && runDir in dirs ==>
                runDir in old(dirs) && dirs[runDir] == old(dirs[runDir]) && unchanged(dirs[runDir])
      ensures r.Ok? ==> pid.Some?
      ensures r == Err(SpawnFailed) ==> pid.None?
      ensures r == Err(SpawnFailed) || r.Ok? ==>
                && runDir in dirs && dirs[runDir].bytes == []
                && (runDir in old(dirs) ==> dirs[runDir] == old(dirs[runDir]))
      ensures r.Ok? ==> && fresh(r.value) && r.value.Valid() && r.value.runId == runId && r.value.runDir == runDir
                        && Some(r.value.pid) == pid
                        && r.value.exited.None? && r.value.own == [] && r.value.all == {}
                        && runs == old(runs)[runId := r.value] && started == old(started) + {r.value}
                        && r.value.disk == dirs[runDir] && r.value.StdinView() == Prime(initialStdin)
    {
      if !SafeRunDir(runDir) { return Err(InvalidRunDir); }
      if !SafeRunId(runId) { return Err(InvalidRunId); }
      if runId in runs && runs[runId].exited.None? { return Err(StillActive); }
      var run := Launch(runId, runDir, initialStdin, pid);
      r := if run.Some? then Ok(run.value) else Err(SpawnFailed);
    }

    /** Empties the output where it is, then spawns; only a child that came up is entered in the table. */
    method Launch(runId: string, runDir: string, initialStdin: string, pid: Option<nat>)
      returns (r: Option<LiveRun>)
      requires Valid() && (runDir in owner ==> owner[runDir] == runId)
      requires runId in runs ==> runs[runId].exited.Some?
      modifies this, if runDir in dirs then {dirs[runDir]} else {}
      ensures Valid() && runDir in dirs && dirs[runDir].bytes == []
      ensures runDir in old(dirs) ==> dirs == old(dirs)
      ensures r.Some? <==> pid.Some?
      ensures r.None? ==> runs == old(runs) && started == old(started)
      ensures r.Some? ==> && fresh(r.value) && r.value.Valid() && r.value.runId == runId && r.value.runDir == runDir
                          && r.value.pid == pid.value
                          && r.value.exited.None? && r.value.own == [] && r.value.all == {}
                          && runs == old(runs)[runId := r.value] && started == old(started) + {r.value}
                          && r.value.disk == dirs[runDir] && r.value.StdinView() == Prime(initialStdin)
    {
      OpenDir(runId, runDir);
      EmptyOutput(runId, runDir);
      if pid.None? { return None; }
      var run := new LiveRun(runId, runDir, pid.value, dirs[runDir], initialStdin);
      Enter(run);
      r := Some(run);
    }

    method OpenDir(runId: string, runDir: string)
      requires Valid() && (runDir in owner ==> owner[runDir] == runId)
      modifies this`dirs, this`owner
      ensures Valid() && runDir in dirs && owner[runDir] == runId
      ensures if runDir in old(dirs) then dirs == old(dirs) else fresh(dirs[runDir])
    {
      if runDir !in dirs {
        var disk := new OutputFile();
        dirs, owner := dirs[runDir := disk], owner[runDir := runId];
      }
    }

    method EmptyOutput(runId: string, runDir: string)
      requires Valid() && runDir in dirs && owner[runDir] == runId
      requires runId in runs ==> runs[runId].exited.Some?
      modifies dirs[runDir]
      ensures Valid() && dirs[runDir].bytes == []
    {
      assert forall q :: q in started && q.exited.None? ==> q.runId != runId && q.disk != dirs[runDir];
      dirs[runDir].bytes := [];
    }

    method Enter(run: LiveRun)
      requires Valid() && run !in started && run.exited.None? && run.written == 0
      requires run.runDir in dirs && dirs[run.runDir] == run.disk && owner[run.runDir] == run.runId
      requires run.runId in runs ==> runs[run.runId].exited.Some?
      modifies this`runs, this`started
      ensures Valid() && runs == old(runs)[run.runId := run] && started == old(started) + {run}
    {
      runs := runs[run.runId := run];
      started := started + {run};
    }

    /** A chunk of a child's stdout, whether it has exited or not. */
    method ChildWrites(run: LiveRun, chunk: seq<Byte>)
      requires Valid() && run in started && run.Valid()
      modifies run.disk, run`written, run`own, run.listeners
      ensures Valid() && run.Valid() && run.disk.bytes == old(run.disk.bytes) + chunk
    {
      run.OnStdout(chunk);
    }

    /** A child's exit event. */
    method ChildExits(run: LiveRun, code: int)
      requires Valid() && run in started && run.Valid()
      modifies run`exited, run`listeners, run.listeners`ended, run.listeners`exit
      ensures Valid() && run.exited == Some(code)
    {
      run.OnExit(code);
    }

    /** A kill: the pid it signals, if any, and whether a signal went through, to the group or else to the
        process itself. With `named`, only that pid. */
    method KillRun(runId: string, named: Option<nat>, groupTakes: bool, processTakes: bool)
      returns (target: Option<nat>, signalled: bool)
      requires Valid()
      ensures target.Some? ==> named.None? || named == target
      ensures forall r :: r in started && r.runId == runId && r.exited.None? ==>
                if named.None? || named.value == r.pid then target == Some(r.pid) else target.None?
      ensures (forall r :: r in started && r.runId == runId ==> r.exited.Some?) ==> target.None?
      ensures signalled <==> target.Some? && (groupTakes || processTakes)
    {
      if runId !in runs || runs[runId].exited.Some? { return None, false; }
      var run := runs[runId];
      if named.Some? && named.value != run.pid { return None, false; }
      target := Some(run.pid);
      signalled := groupTakes || processTakes;
    }

    /** A run has at most one child that has not exited. */
    lemma OneChild(a: LiveRun, b: LiveRun)
      requires Valid() && a in started && b in started && a.runId == b.runId
      requires a.exited.None? && b.exited.None?
      ensures a == b
    {
      assert runs[a.runId] == a;
    }
  }
}
