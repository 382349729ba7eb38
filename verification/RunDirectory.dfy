/** A run directory over successive attempts (packages/container-runtime/src/run-protocol.ts:86-99, 129-171,
    191-262): start scripts that stop the previous supervisor and move its files aside, supervisors that
    publish their pid file, agents that open their output and write, stragglers that write on, attachments
    that read. The polling fake (packages/container-runtime/src/fake.ts:400-454) starts the same way.

    Files are inodes reached through names; writers and readers hold descriptors, that is inodes. Starts
    are serialized, and a launched supervisor publishes its pid file or dies before the next start looks.
    A process is known by its pid and its start time; no two processes ever share both. The supervisor
    starts its agent in the background before it publishes its pid file, so the agent, while it lives, opens
    its output, by name, at any time from then on: even when its supervisor is gone. */
module RunDirectory {
  import opened RunSpec

  datatype Name = Agent | Supervisor | Stdin | StdinPipe | Output | Stderr | PidFile | PidTmp | ExitFile

  /** The files of one attempt, in the order a start moves them aside. */
  const ATTEMPT_FILES: seq<Name> := [Agent, Supervisor, Stdin, StdinPipe, Output, Stderr, PidFile, PidTmp, ExitFile]

  /** The files a start makes before it launches the supervisor, in order. */
  const CREATED_FILES: seq<Name> := [Agent, Supervisor, Output, Stderr, Stdin, StdinPipe]

  const STALE_STOP_POLLS := 100

  type Inode = nat
  type Attempt = nat

  datatype Ident = Ident(pid: nat, start: nat)

  /** A byte, and the attempt whose agent wrote it. */
  datatype Tagged = Tagged(writer: Attempt, byte: Byte)

  datatype File = Log(bytes: seq<Tagged>) | PidRecord(id: Ident) | Plain

  type Directory = map<Name, Inode>

  datatype Fs = Fs(names: Directory, inodes: seq<File>)

  /** `Forked`: its agent is started. */
  datatype SupPhase = Launched | Forked | TmpWritten | Published

  /** A process of the pod. A zombie still answers to its pid. */
  datatype Proc =
    | Other(start: nat, zombie: bool)
    | Sup(start: nat, zombie: bool, attempt: Attempt, phase: SupPhase)

  type Procs = map<nat, Proc>

  /** Where the start script is. `was` records the directory as the script found it, `prev` the process its
      pid file named then; the script itself keeps only that one's pid. */
  datatype Starter =
    | Idle
    | Look(was: Fs)
    | WaitStop(prev: Ident, killed: bool, polls: nat, was: Fs)
    | KillCheck(prev: Ident, was: Fs)
    | Gate(prev: Ident, was: Fs)
    | Moving(i: nat)
    | Creating(j: nat)
    | Launching
    | WaitPid(id: Ident)
    | Started(pid: nat)
    | Refused(was: Fs)
    | Failed

  /** An attachment: the descriptor `tail` opened, and what it sent from `from` on. */
  datatype Reader = Reader(inode: Inode, from: nat, offset: nat, sent: seq<Tagged>)

  type Writers = map<Attempt, Inode>
  type Readers = map<nat, Reader>

  /** `zombiesAnswer`: whether these scripts count a zombie as alive, as the polling fake does. `agents`: the
      attempts whose agent, or a straggler of it, lives. `writers`: who opened which output, living or not. */
  datatype State = State(
    zombiesAnswer: bool,
    fs: Fs,
    procs: Procs,
    used: set<Ident>,
    starter: Starter,
    attempts: nat,
    agents: set<Attempt>,
    writers: Writers,
    readers: Readers)

  datatype Label =
    /** A start script begins, takes its next step, launches the supervisor as `id`, or is cut short. */
    | Begin
    | StartStep
    | Launch(id: Ident)
    | Abort
    /** The wait for a stopped supervisor ends early, by the clock. */
    | TimeUp
    /** The supervisor `pid` takes its next step, or records an exit code. */
    | SupStep(pid: nat)
    | RecordExit(pid: nat)
    /** An attempt's agent opens its output; it, or a straggler of it, writes through the descriptor; the
        last of them dies. */
    | OpenOutput(attempt: Attempt)
    | Write(attempt: Attempt, bytes: seq<Byte>)
    | AgentDies(attempt: Attempt)
    /** Processes come and go; a restart ends them all, agents too, and leaves the files. */
    | Spawn(id: Ident)
    | Die(pid: nat)
    | Reap(pid: nat)
    | PodRestart
    /** An attachment opens the output, and reads `n` bytes more. */
    | OpenReader(reader: nat, from: nat)
    | ReadMore(reader: nat, n: nat)

  // ---- The file system ----

  predicate Has(fs: Fs, name: Name) { name in fs.names && fs.names[name] < |fs.inodes| }

  function FileAt(fs: Fs, name: Name): File
    requires Has(fs, name)
  {
    fs.inodes[fs.names[name]]
  }

  /** A redirection `> name`: truncates the file when the name is there, else makes a new one. */
  function Redirect(fs: Fs, name: Name, file: File): Fs {
    if Has(fs, name) then fs.(inodes := fs.inodes[fs.names[name] := file])
    else Fs(fs.names[name := |fs.inodes|], fs.inodes + [file])
  }

  /** `mv` into the directory of old files. */
  function Unlink(fs: Fs, name: Name): Fs { fs.(names := fs.names - {name}) }

  /** `mv pid.tmp pid`. */
  function RenamePid(fs: Fs): Fs {
    if PidTmp !in fs.names then fs else fs.(names := (fs.names - {PidTmp})[PidFile := fs.names[PidTmp]])
  }

  function AppendTo(fs: Fs, inode: Inode, more: seq<Tagged>): Fs {
    if inode < |fs.inodes| && fs.inodes[inode].Log?
    then fs.(inodes := fs.inodes[inode := Log(fs.inodes[inode].bytes + more)])
    else fs
  }

  // ---- What scripts ask ----

  predicate Alive(procs: Procs, pid: nat) { pid in procs && !procs[pid].zombie }

  /** `optio_alive`: the pid answers and is no zombie; the fake asks only whether it answers. */
  predicate Answers(s: State, pid: nat) { Alive(s.procs, pid) || (s.zombiesAnswer && pid in s.procs) }

  /** `optio_run_pid`: the pid of the process that wrote the pid file, while it is there. */
  function RunPid(fs: Fs, procs: Procs): Option<nat> {
    if !Has(fs, PidFile) || !FileAt(fs, PidFile).PidRecord? then None
    else
      var id := FileAt(fs, PidFile).id;
      if id.pid > 1 && id.pid in procs && procs[id.pid].start == id.start then Some(id.pid) else None
  }

  predicate LiveSup(procs: Procs, pid: nat) { Alive(procs, pid) && procs[pid].Sup? }

  predicate LivePublished(procs: Procs, pid: nat) { LiveSup(procs, pid) && procs[pid].phase.Published? }

  predicate NoneUnpublished(procs: Procs) {
    forall pid | pid in procs :: LiveSup(procs, pid) ==> procs[pid].phase.Published?
  }

  // ---- Steps ----

  /** What a start puts into a file it makes: nothing yet, in the output's case. */
  function Contents(name: Name): File {
    if name.Output? then Log([]) else Plain
  }

  function AfterWait(w: Starter): Starter
    requires w.WaitStop?
  {
    if w.killed then Gate(w.prev, w.was) else KillCheck(w.prev, w.was)
  }

  /** Where the script goes on while it stops the previous supervisor: it asks for that one's pid only. */
  function StopNext(s: State): Starter {
    match s.starter
    case Look(was) =>
      (match RunPid(s.fs, s.procs)
       case Some(pid) => WaitStop(Ident(pid, s.procs[pid].start), false, 0, was)
       case None => Moving(0))
    case WaitStop(prev, killed, polls, was) =>
      if Answers(s, prev.pid) && polls < STALE_STOP_POLLS then WaitStop(prev, killed, polls + 1, was)
      else AfterWait(s.starter)
    case KillCheck(prev, was) => if Answers(s, prev.pid) then WaitStop(prev, true, 0, was) else Gate(prev, was)
    case Gate(prev, was) => if Answers(s, prev.pid) then Refused(was) else Moving(0)
    case other => other
  }

  /** And while it waits for its own supervisor's pid file. */
  function WaitPidNext(s: State, id: Ident): Starter {
    if Has(s.fs, PidFile) && FileAt(s.fs, PidFile).PidRecord? then Started(FileAt(s.fs, PidFile).id.pid)
    else if Alive(s.procs, id.pid) && s.procs[id.pid].start == id.start then WaitPid(id)
    else Failed
  }

  function StartNext(s: State): State {
    match s.starter
    case Moving(i) =>
      if i >= |ATTEMPT_FILES| then s.(starter := Creating(0))
      else s.(fs := Unlink(s.fs, ATTEMPT_FILES[i]), starter := Moving(i + 1))
    case Creating(j) =>
      if j >= |CREATED_FILES| then s.(starter := Launching)
      else s.(fs := Redirect(s.fs, CREATED_FILES[j], Contents(CREATED_FILES[j])), starter := Creating(j + 1))
    case WaitPid(id) => s.(starter := WaitPidNext(s, id))
    case _ => s.(starter := StopNext(s))
  }

  function LaunchNext(s: State, id: Ident): State {
    if !s.starter.Launching? || id.pid <= 1 || id.pid in s.procs || id in s.used then s
    else s.(procs := s.procs[id.pid := Sup(id.start, false, s.attempts, Launched)], used := s.used + {id},
            attempts := s.attempts + 1, starter := WaitPid(id))
  }

  function After(phase: SupPhase): SupPhase {
    match phase case Launched => Forked case Forked => TmpWritten case _ => Published
  }

  function SupNext(s: State, pid: nat): State {
    if !LiveSup(s.procs, pid) then s
    else
      var p := s.procs[pid];
      s.(fs := (match p.phase
                case Forked => Redirect(s.fs, PidTmp, PidRecord(Ident(pid, p.start)))
                case TmpWritten => RenamePid(s.fs)
                case _ => s.fs),
         agents := if p.phase.Launched? then s.agents + {p.attempt} else s.agents,
         procs := s.procs[pid := p.(phase := After(p.phase))])
  }

  /** `>> output.ndjson`: the file the name leads to now, made when there is none. */
  function OpenNext(s: State, attempt: Attempt): State {
    if attempt !in s.agents || attempt in s.writers then s
    else
      var fs := if Has(s.fs, Output) then s.fs else Redirect(s.fs, Output, Log([]));
      s.(fs := fs, writers := s.writers[attempt := fs.names[Output]])
  }

  function TagAll(attempt: Attempt, bytes: seq<Byte>): seq<Tagged> {
    seq(|bytes|, i requires 0 <= i < |bytes| => Tagged(attempt, bytes[i]))
  }

  function WriteNext(s: State, attempt: Attempt, bytes: seq<Byte>): State {
    if attempt !in s.agents || attempt !in s.writers then s
    else s.(fs := AppendTo(s.fs, s.writers[attempt], TagAll(attempt, bytes)))
  }

  function ReadNext(s: State, reader: nat, n: nat): State {
    if reader !in s.readers then s
    else
      var r := s.readers[reader];
      if r.inode >= |s.fs.inodes| || !s.fs.inodes[r.inode].Log? then s
      else
        var bytes := s.fs.inodes[r.inode].bytes;
        if r.offset + n > |bytes| then s
        else
          var more := r.(offset := r.offset + n, sent := r.sent + bytes[r.offset..r.offset + n]);
          s.(readers := s.readers[reader := more])
  }

  function OpenReaderNext(s: State, reader: nat, from: nat): State {
    if reader in s.readers || Output !in s.fs.names then s
    else s.(readers := s.readers[reader := Reader(s.fs.names[Output], from, from, [])])
  }

  predicate Quiet(starter: Starter) {
    starter.Idle? || starter.Started? || starter.Refused? || starter.Failed?
  }

  /** What happens to processes. */
  function ProcNext(s: State, l: Label): State
    requires l.AgentDies? || l.Spawn? || l.Die? || l.Reap? || l.PodRestart?
  {
    match l
    case AgentDies(attempt) => s.(agents := s.agents - {attempt})
    case Spawn(id) =>
      if id.pid in s.procs || id in s.used then s
      else s.(procs := s.procs[id.pid := Other(id.start, false)], used := s.used + {id})
    case Die(pid) => if pid in s.procs then s.(procs := s.procs[pid := s.procs[pid].(zombie := true)]) else s
    case Reap(pid) => if pid in s.procs && s.procs[pid].zombie then s.(procs := s.procs - {pid}) else s
    case PodRestart => s.(procs := map[], agents := {}, starter := Idle)
  }

  function Next(s: State, l: Label): State {
    match l
    case Begin => if Quiet(s.starter) && NoneUnpublished(s.procs) then s.(starter := Look(s.fs)) else s
    case StartStep => StartNext(s)
    case Launch(id) => LaunchNext(s, id)
    case Abort => s.(starter := Idle)
    case TimeUp => if s.starter.WaitStop? then s.(starter := AfterWait(s.starter)) else s
    case SupStep(pid) => SupNext(s, pid)
    case RecordExit(pid) => if LiveSup(s.procs, pid) then s.(fs := Redirect(s.fs, ExitFile, Plain)) else s
    case OpenOutput(attempt) => OpenNext(s, attempt)
    case Write(attempt, bytes) => WriteNext(s, attempt, bytes)
    case OpenReader(reader, from) => OpenReaderNext(s, reader, from)
    case ReadMore(reader, n) => ReadNext(s, reader, n)
    case _ => ProcNext(s, l)
  }

  function Run(s: State, labels: seq<Label>): State
    decreases |labels|
  {
    if labels == [] then s else Run(Next(s, labels[0]), labels[1..])
  }

  /** An empty directory, in a pod whose processes are none of ours. */
  ghost predicate Fresh(s: State) {
    && s.fs == Fs(map[], []) && s.starter.Idle?
    && s.attempts == 0 && s.agents == {} && s.writers == map[] && s.readers == map[]
    && (forall pid :: pid in s.procs ==> s.procs[pid].Other? && Ident(pid, s.procs[pid].start) in s.used)
  }

  lemma {:induction false} RunAppend(s: State, xs: seq<Label>, ys: seq<Label>)
    ensures Run(s, xs + ys) == Run(Run(s, xs), ys)
    decreases |xs|
  {
    hide Next;
    if xs == [] {
      assert xs + ys == ys;
    } else {
      RunAppend(Next(s, xs[0]), xs[1..], ys);
      assert (xs + ys)[1..] == xs[1..] + ys;
    }
  }

  lemma {:induction false} RunThen(s: State, labels: seq<Label>, l: Label)
    ensures Run(s, labels + [l]) == Next(Run(s, labels), l)
  {
    hide Next;
    RunAppend(s, labels, [l]);
    var r := Run(s, labels);
    assert Run(Next(r, l), [l][1..]) == Next(r, l);
  }
}
