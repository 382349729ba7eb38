/** Whom the scripts stop and kill (packages/container-runtime/src/run-protocol.ts:129-144, 184-204, 310-334):
    the pid file leads to supervisors only; but while a start waits for one to go it asks for its pid alone. */
module RunStops {
  import opened RunSpec
  import opened RunDirectory
  import opened RunSupervisors
  import opened RunStarts

  /** The process with this pid and start time, while there is one, is a supervisor. */
  ghost predicate Ours(procs: Procs, id: Ident) {
    id.pid in procs && procs[id.pid].start == id.start ==> procs[id.pid].Sup?
  }

  /** Every pid ever recorded is a supervisor's. */
  ghost predicate RecordsOk(fs: Fs, procs: Procs, used: set<Ident>) {
    forall i :: 0 <= i < |fs.inodes| && fs.inodes[i].PidRecord? ==>
      fs.inodes[i].id in used && Ours(procs, fs.inodes[i].id)
  }

  /** The supervisor a start under way is stopping, as it found it. */
  function Previous(starter: Starter): Option<Ident> {
    match starter
    case WaitStop(prev, _, _, _) => Some(prev)
    case KillCheck(prev, _) => Some(prev)
    case Gate(prev, _) => Some(prev)
    case _ => None
  }

  ghost predicate StopsOk(s: State) {
    && RecordsOk(s.fs, s.procs, s.used)
    && (Previous(s.starter).Some? ==>
          Previous(s.starter).value in s.used && Ours(s.procs, Previous(s.starter).value))
  }

  /** Pid records are those that were there. */
  ghost predicate NoNewRecords(fs: Fs, r: Fs) {
    forall i :: 0 <= i < |r.inodes| && r.inodes[i].PidRecord? ==> i < |fs.inodes| && r.inodes[i] == fs.inodes[i]
  }

  /** Processes of known identity are what they were. */
  ghost predicate OursKept(procs: Procs, procs': Procs, used: set<Ident>) {
    forall id :: id in used && Ours(procs, id) ==> Ours(procs', id)
  }

  lemma StopsKept(s: State, r: State)
    requires StopsOk(s) && NoNewRecords(s.fs, r.fs) && OursKept(s.procs, r.procs, s.used) && s.used <= r.used
    requires Previous(r.starter) == None || Previous(r.starter) == Previous(s.starter)
    ensures StopsOk(r)
  {
    hide Ours;
  }

  lemma RedirectRecords(fs: Fs, name: Name, file: File)
    requires NamesOk(fs) && Fits(name, file) && !file.PidRecord?
    ensures NoNewRecords(fs, Redirect(fs, name, file))
  {
    RedirectOk(fs, name, file);
  }

  lemma StartStops(s: State)
    requires Inv(s) && StopsOk(s)
    ensures StopsOk(StartNext(s))
  {
    StartShape(s);
    hide StartNext, BytesOk, ProcsOk, AgentsOk, OneSupervisor, StarterOk, NamesOk, Redirect, Ours;
    if s.starter.Look? {
      LookStops(s);
    } else {
      if s.starter.Creating? && s.starter.j < |CREATED_FILES| {
        ContentsFit(s.starter.j);
        RedirectRecords(s.fs, CREATED_FILES[s.starter.j], Contents(CREATED_FILES[s.starter.j]));
      }
      PreviousStays(s);
      StopsKept(s, StartNext(s));
    }
  }

  lemma PreviousStays(s: State)
    requires !s.starter.Look?
    ensures Previous(StartNext(s).starter) == None || Previous(StartNext(s).starter) == Previous(s.starter)
  {
    hide Redirect, RunPid, Unlink;
  }

  lemma LookStops(s: State)
    requires StopsOk(s) && s.starter.Look?
    ensures StopsOk(StartNext(s))
  {
    if RunPid(s.fs, s.procs).Some? {
      var i := s.fs.names[PidFile];
      assert s.fs.inodes[i].PidRecord?;
    }
  }

  lemma LaunchStops(s: State, id: Ident)
    requires Inv(s) && StopsOk(s)
    ensures StopsOk(LaunchNext(s, id))
  {
    var r := LaunchNext(s, id);
    assert OursKept(s.procs, r.procs, s.used);
    hide Inv, Ours;
    StopsKept(s, r);
  }

  lemma SupStops(s: State, pid: nat)
    requires Inv(s) && StopsOk(s)
    ensures StopsOk(SupNext(s, pid))
  {
    hide BytesOk, AgentsOk, OneSupervisor, StarterOk;
    if LiveSup(s.procs, pid) {
      var r := SupNext(s, pid);
      assert OursKept(s.procs, r.procs, s.used);
      var id := Ident(pid, s.procs[pid].start);
      if s.procs[pid].phase.Forked? {
        RedirectOk(s.fs, PidTmp, PidRecord(id));
        assert id in s.used && Ours(r.procs, id);
        hide Ours, NamesOk, Redirect;
        forall i | 0 <= i < |r.fs.inodes| && r.fs.inodes[i].PidRecord?
          ensures r.fs.inodes[i].id in s.used && Ours(r.procs, r.fs.inodes[i].id)
        {
          if i != r.fs.names[PidTmp] { assert r.fs.inodes[i] == s.fs.inodes[i]; }
        }
      } else {
        hide Ours, NamesOk;
        StopsKept(s, r);
      }
    }
  }

  lemma ProcStops(s: State, l: Label)
    requires Inv(s) && StopsOk(s) && (l.AgentDies? || l.Spawn? || l.Die? || l.Reap? || l.PodRestart?)
    ensures StopsOk(Next(s, l))
  {
    assert OursKept(s.procs, Next(s, l).procs, s.used);
    hide Inv, Ours;
    StopsKept(s, Next(s, l));
  }

  /** Agents, attachments, and a start that begins or is cut. */
  lemma OtherStops(s: State, l: Label)
    requires Inv(s) && StopsOk(s)
    requires l.Begin? || l.Abort? || l.TimeUp? || l.OpenOutput? || l.Write? || l.OpenReader? || l.ReadMore?
    ensures StopsOk(Next(s, l))
  {
    hide BytesOk, ProcsOk, AgentsOk, OneSupervisor, StarterOk, Ours, TagAll;
    if l.OpenOutput? { RedirectRecords(s.fs, Output, Log([])); }
    hide NamesOk;
    assert NoNewRecords(s.fs, Next(s, l).fs);
    assert OursKept(s.procs, Next(s, l).procs, s.used);
    StopsKept(s, Next(s, l));
  }

  lemma {:induction false} StopsNext(s: State, l: Label)
    requires Inv(s) && StopsOk(s)
    ensures StopsOk(Next(s, l))
  {
    hide Inv, StopsOk, StartNext, LaunchNext, SupNext, OpenNext, WriteNext, OpenReaderNext, ReadNext, ProcNext;
    match l {
      case StartStep => StartStops(s);
      case Launch(id) => LaunchStops(s, id);
      case SupStep(pid) => SupStops(s, pid);
      case RecordExit(pid) => ExitStops(s);
      case AgentDies(_) => ProcStops(s, l);
      case Spawn(_) => ProcStops(s, l);
      case Die(_) => ProcStops(s, l);
      case Reap(_) => ProcStops(s, l);
      case PodRestart => ProcStops(s, l);
      case _ => OtherStops(s, l);
    }
  }

  lemma ExitStops(s: State)
    requires Inv(s) && StopsOk(s)
    ensures StopsOk(s.(fs := Redirect(s.fs, ExitFile, Plain)))
  {
    RedirectRecords(s.fs, ExitFile, Plain);
    hide Inv, Ours, Redirect;
    StopsKept(s, s.(fs := Redirect(s.fs, ExitFile, Plain)));
  }

  lemma {:induction false} StopsRun(s: State, labels: seq<Label>)
    requires Inv(s) && StopsOk(s)
    ensures Inv(Run(s, labels)) && StopsOk(Run(s, labels))
    decreases |labels|
  {
    hide Inv, StopsOk, Next;
    if labels != [] {
      NextInv(s, labels[0]);
      StopsNext(s, labels[0]);
      StopsRun(Next(s, labels[0]), labels[1..]);
    }
  }

  lemma FreshStops(s: State)
    requires Fresh(s)
    ensures Inv(s) && StopsOk(s)
  {
    FreshInv(s);
  }

  // ---- Main results ----

  /** The pid file never leads to a stranger: whatever came before, starts and kills are aimed at supervisors
      of this directory only, however pids were reused. */
  lemma {:induction false} AimedAtSupervisors(s: State, labels: seq<Label>, named: Option<nat>)
    requires Fresh(s)
    ensures var r := Run(s, labels);
            && (RunPid(r.fs, r.procs).Some? ==> r.procs[RunPid(r.fs, r.procs).value].Sup?)
            && (KillTarget(r, named).Some? ==>
                  KillTarget(r, named).value in r.procs && r.procs[KillTarget(r, named).value].Sup?)
  {
    FreshStops(s);
    StopsRun(s, labels);
    hide Inv, Fresh, Run;
    var r := Run(s, labels);
    if RunPid(r.fs, r.procs).Some? { FoundIsOurs(r); }
  }

  /** And they find one exactly: the supervisor that the pid file names, alive or a zombie, while it is there. */
  lemma {:induction false} FoundIff(s: State, labels: seq<Label>, p: nat)
    requires Fresh(s)
    ensures var r := Run(s, labels);
            RunPid(r.fs, r.procs) == Some(p) <==>
            p in r.procs && r.procs[p].Sup? && Names(r.fs, PidFile, Ident(p, r.procs[p].start))
  {
    FreshStops(s);
    StopsRun(s, labels);
    hide Fresh, Run, BytesOk, AgentsOk, OneSupervisor, StarterOk;
    var r := Run(s, labels);
    if RunPid(r.fs, r.procs).Some? { FoundIsOurs(r); }
  }

  lemma FoundIsOurs(s: State)
    requires StopsOk(s) && RunPid(s.fs, s.procs).Some?
    ensures s.procs[RunPid(s.fs, s.procs).value].Sup?
  {
    var i := s.fs.names[PidFile];
    assert s.fs.inodes[i].PidRecord?;
  }

  /** But while it waits a start goes by the pid alone. When that pid still answers, what is killed, or what
      the start is refused for, is a live supervisor iff the process is no zombie and has the start time the
      pid file gave; and when it is another process, no supervisor is left at all. */
  lemma {:induction false} StopMeetsIff(s: State, labels: seq<Label>)
    requires Fresh(s) && (Run(s, labels).starter.KillCheck? || Run(s, labels).starter.Gate?)
    requires Answers(Run(s, labels), Run(s, labels).starter.prev.pid)
    ensures var r := Run(s, labels);
            var prev := r.starter.prev;
            && StartNext(r).starter == (if r.starter.Gate? then Refused(r.starter.was)
                                        else WaitStop(prev, true, 0, r.starter.was))
            && prev.pid in r.procs
            && (LiveSup(r.procs, prev.pid) <==>
                  !r.procs[prev.pid].zombie && r.procs[prev.pid].start == prev.start)
            && (NoSup(r.procs) <==> !LiveSup(r.procs, prev.pid))
  {
    FreshStops(s);
    StopsRun(s, labels);
    hide Fresh, Run, NamesOk, BytesOk, ProcsOk, AgentsOk, OneSupervisor;
  }

  // ---- How long a start waits ----

  function StartSteps(n: nat): seq<Label> {
    seq(n, i requires 0 <= i < n => StartStep)
  }

  lemma {:induction false} StepsFirst(s: State, n: nat)
    requires n > 0
    ensures Run(s, StartSteps(n)) == Run(StartNext(s), StartSteps(n - 1))
  {
    assert StartSteps(n)[0] == StartStep && StartSteps(n)[1..] == StartSteps(n - 1);
    hide StartNext;
  }

  lemma {:induction false} StepsSplit(s: State, m: nat, n: nat)
    ensures Run(s, StartSteps(m + n)) == Run(Run(s, StartSteps(m)), StartSteps(n))
  {
    RunAppend(s, StartSteps(m), StartSteps(n));
    assert StartSteps(m + n) == StartSteps(m) + StartSteps(n);
  }

  /** One wait on a process that goes on answering: a hundred polls, and one step more. */
  lemma {:induction false} WaitsOut(s: State, polls: nat)
    requires s.starter.WaitStop? && s.starter.polls == polls <= 100 && Answers(s, s.starter.prev.pid)
    ensures Run(s, StartSteps(101 - polls)) == s.(starter := AfterWait(s.starter))
    decreases 100 - polls
  {
    StepsFirst(s, 101 - polls);
    PollStep(s);
    hide StartNext, Answers;
    if polls < 100 {
      var s1 := s.(starter := s.starter.(polls := polls + 1));
      assert Answers(s1, s1.starter.prev.pid) by { SameAnswers(s, s1, s.starter.prev.pid); }
      WaitsOut(s1, polls + 1);
    } else {
      RunNone(StartNext(s));
      assert StartSteps(0) == [];
    }
  }

  lemma PollStep(s: State)
    requires s.starter.WaitStop? && s.starter.polls <= 100 && Answers(s, s.starter.prev.pid)
    ensures StartNext(s) == s.(starter := if s.starter.polls < 100 then s.starter.(polls := s.starter.polls + 1)
                                          else AfterWait(s.starter))
  {
  }

  lemma SameAnswers(s: State, s': State, pid: nat)
    requires s'.procs == s.procs && s'.zombiesAnswer == s.zombiesAnswer
    ensures Answers(s', pid) <==> Answers(s, pid)
  {
  }

  lemma LookStep(s: State, prev: nat)
    requires Quiet(s.starter) && NoneUnpublished(s.procs) && RunPid(s.fs, s.procs) == Some(prev)
    ensures var id := Ident(prev, s.procs[prev].start);
            StartNext(Next(s, Begin)) == s.(starter := WaitStop(id, false, 0, s.fs))
  {
  }

  lemma GateStep(s: State, id: Ident, was: Fs)
    requires Answers(s, id.pid)
    ensures StartNext(s.(starter := KillCheck(id, was))) == s.(starter := WaitStop(id, true, 0, was))
    ensures StartNext(s.(starter := Gate(id, was))) == s.(starter := Refused(was))
  {
  }

  lemma {:induction false} AfterWaits(s: State, n: nat)
    requires s.starter.WaitStop? && s.starter.polls == 0 && Answers(s, s.starter.prev.pid)
    ensures Run(s, StartSteps(101 + n)) == Run(s.(starter := AfterWait(s.starter)), StartSteps(n))
  {
    StepsSplit(s, 101, n);
    WaitsOut(s, 0);
  }

  lemma {:induction false} WaitsTwice(s: State, prev: nat, n: nat)
    requires Quiet(s.starter) && NoneUnpublished(s.procs) && RunPid(s.fs, s.procs) == Some(prev)
    requires !s.procs[prev].zombie || s.zombiesAnswer
    ensures Run(Next(s, Begin), StartSteps(204 + n)) ==
            Run(s.(starter := Gate(Ident(prev, s.procs[prev].start), s.fs)), StartSteps(n))
  {
    var id := Ident(prev, s.procs[prev].start);
    var first, second := s.(starter := WaitStop(id, false, 0, s.fs)), s.(starter := WaitStop(id, true, 0, s.fs));
    hide StartNext, Next, Answers, RunPid, Run, StartSteps, NoneUnpublished, Quiet;
    AnswersFound(s, prev);
    LookStep(s, prev);
    GateStep(s, id, s.fs);
    SameAnswers(s, first, prev);
    SameAnswers(s, second, prev);
    StepsFirst(Next(s, Begin), 204 + n);
    AfterWaits(first, 102 + n);
    StepsFirst(s.(starter := KillCheck(id, s.fs)), 102 + n);
    AfterWaits(second, n);
  }

  /** A start that finds a supervisor which goes on answering is refused, after two waits of a hundred polls
      and not before, and has touched nothing; a zombie goes on answering in the fake. */
  lemma {:induction false} RefusedAfterWaits(s: State, prev: nat)
    requires Quiet(s.starter) && NoneUnpublished(s.procs) && RunPid(s.fs, s.procs) == Some(prev)
    requires !s.procs[prev].zombie || s.zombiesAnswer
    ensures var id := Ident(prev, s.procs[prev].start);
            && Run(Next(s, Begin), StartSteps(204)) == s.(starter := Gate(id, s.fs))
            && Run(Next(s, Begin), StartSteps(205)) == s.(starter := Refused(s.fs))
  {
    hide StartNext, Next, Answers, RunPid, NoneUnpublished, Run, StartSteps, Quiet;
    AnswersFound(s, prev);
    GateEnds(s, Ident(prev, s.procs[prev].start));
    WaitsTwice(s, prev, 0);
    WaitsTwice(s, prev, 1);
  }

  lemma AnswersFound(s: State, prev: nat)
    requires RunPid(s.fs, s.procs) == Some(prev) && (!s.procs[prev].zombie || s.zombiesAnswer)
    ensures prev in s.procs && Answers(s, prev)
  {
  }

  lemma {:induction false} GateEnds(s: State, id: Ident)
    requires Answers(s, id.pid)
    ensures var gate := s.(starter := Gate(id, s.fs));
            && Run(gate, StartSteps(0)) == gate
            && Run(gate, StartSteps(1)) == s.(starter := Refused(s.fs))
  {
    var gate := s.(starter := Gate(id, s.fs));
    GateStep(s, id, s.fs);
    hide StartNext, Answers;
    StepsFirst(gate, 1);
    assert StartSteps(0) == [];
    RunNone(gate);
    RunNone(StartNext(gate));
  }

  /** One that does not answer, as a zombie outside the fake, is passed over in four steps. */
  lemma {:induction false} PassedOver(s: State, prev: nat)
    requires Quiet(s.starter) && NoneUnpublished(s.procs) && RunPid(s.fs, s.procs) == Some(prev)
    requires s.procs[prev].zombie && !s.zombiesAnswer
    ensures Run(Next(s, Begin), StartSteps(4)) == s.(starter := Moving(0))
  {
    var id := Ident(prev, s.procs[prev].start);
    LookStep(s, prev);
    ZombieSteps(s, id, s.fs);
    hide StartNext, Answers, RunPid;
    StepsFirst(Next(s, Begin), 4);
    StepsFirst(s.(starter := WaitStop(id, false, 0, s.fs)), 3);
    StepsFirst(s.(starter := KillCheck(id, s.fs)), 2);
    StepsFirst(s.(starter := Gate(id, s.fs)), 1);
    assert StartSteps(0) == [];
    RunNone(s.(starter := Moving(0)));
    hide Run;
  }

  lemma ZombieSteps(s: State, id: Ident, was: Fs)
    requires !Answers(s, id.pid)
    ensures StartNext(s.(starter := WaitStop(id, false, 0, was))) == s.(starter := KillCheck(id, was))
    ensures StartNext(s.(starter := KillCheck(id, was))) == s.(starter := Gate(id, was))
    ensures StartNext(s.(starter := Gate(id, was))) == s.(starter := Moving(0))
  {
  }

  // ---- How a start ends ----

  /** A start that launched `id` goes on waiting for it or has reported its pid, and `id` lives. */
  ghost predicate Awaits(s: State, id: Ident) {
    && (s.starter == WaitPid(id) || s.starter == Started(id.pid))
    && LiveSup(s.procs, id.pid) && s.procs[id.pid].start == id.start
  }

  predicate Cuts(l: Label, id: Ident) { l.Begin? || l.Abort? || l.PodRestart? || l == Die(id.pid) }

  lemma AwaitsNext(s: State, l: Label, id: Ident)
    requires Inv(s) && Awaits(s, id) && !Cuts(l, id)
    ensures Awaits(Next(s, l), id)
  {
    hide Inv, StartNext, SupNext, LaunchNext, OpenNext, WriteNext, ProcNext, ReadNext, OpenReaderNext;
    match l {
      case StartStep => AwaitsLook(s, id);
      case SupStep(pid) => AwaitsSup(s, pid, id);
      case AgentDies(_) => AwaitsProc(s, l, id);
      case Spawn(_) => AwaitsProc(s, l, id);
      case Die(_) => AwaitsProc(s, l, id);
      case Reap(_) => AwaitsProc(s, l, id);
      case _ => AwaitsOther(s, l, id);
    }
  }

  lemma AwaitsSup(s: State, pid: nat, id: Ident)
    requires Awaits(s, id)
    ensures Awaits(SupNext(s, pid), id)
  {
    hide Redirect, RenamePid;
  }

  lemma AwaitsProc(s: State, l: Label, id: Ident)
    requires Awaits(s, id) && !Cuts(l, id) && (l.AgentDies? || l.Spawn? || l.Die? || l.Reap?)
    ensures Awaits(ProcNext(s, l), id)
  {
  }

  lemma AwaitsOther(s: State, l: Label, id: Ident)
    requires Awaits(s, id) && !Cuts(l, id)
    requires !l.StartStep? && !l.SupStep? && !l.AgentDies? && !l.Spawn? && !l.Die? && !l.Reap?
    ensures Awaits(Next(s, l), id)
  {
    hide Redirect, StartNext, SupNext, ProcNext, TagAll, AppendTo, NoneUnpublished;
  }

  lemma AwaitsLook(s: State, id: Ident)
    requires Inv(s) && Awaits(s, id)
    ensures Awaits(StartNext(s), id)
  {
    hide NamesOk, BytesOk, AgentsOk, ProcsOk, OneSupervisor, Redirect, RenamePid, Unlink, RunPid;
    if s.starter.WaitPid? {
      WaitPidInv(s);
      assert StartNext(s) == s.(starter := WaitPidNext(s, id));
    }
  }

  /** No start gives its supervisor up: from the launch on, whatever runs, while the supervisor lives and the
      start is not cut short it waits for that supervisor, or has reported its pid. */
  lemma {:induction false} NeverFails(s: State, labels: seq<Label>, id: Ident)
    requires Inv(s) && Awaits(s, id) && forall l :: l in labels ==> !Cuts(l, id)
    ensures Awaits(Run(s, labels), id)
    decreases |labels|
  {
    hide Inv, Awaits, Next, Cuts;
    if labels != [] {
      assert labels[0] in labels;
      NextInv(s, labels[0]);
      AwaitsNext(s, labels[0], id);
      NeverFails(Next(s, labels[0]), labels[1..], id);
    }
  }

  /** It does fail when the supervisor is gone and left no pid file, and only then. */
  lemma FailsIff(s: State, id: Ident)
    requires Inv(s) && s.starter == WaitPid(id)
    ensures StartNext(s).starter == Failed <==>
            PidFile !in s.fs.names && !(Alive(s.procs, id.pid) && s.procs[id.pid].start == id.start)
  {
    hide BytesOk, AgentsOk, ProcsOk, OneSupervisor;
  }

  /** And the next look after the supervisor published its pid file reports it. */
  lemma {:induction false} ReportsPublished(s: State, labels: seq<Label>, id: Ident)
    requires Inv(s) && Awaits(s, id) && forall l :: l in labels ==> !Cuts(l, id)
    requires LivePublished(Run(s, labels).procs, id.pid)
    ensures StartNext(Run(s, labels)).starter == Started(id.pid)
  {
    NeverFails(s, labels, id);
    RunInv(s, labels);
    hide Inv, Run;
    var r := Run(s, labels);
    if r.starter.WaitPid? { WaitEnds(r, id); }
  }

  /** And that does happen: a supervisor goes when it is told to, its pid comes round again during the wait,
      and the stranger is killed, or the start refused, with no supervisor left. */
  lemma {:induction false} StrangerStopped(s: State) returns (killing: seq<Label>, refusing: seq<Label>)
    requires Fresh(s) && s.procs == map[] && s.used == {}
    ensures var r := Run(s, killing);
            && r.procs == map[5 := Other(2, false)] && r.starter.KillCheck? && Answers(r, 5)
            && r.starter.prev == Ident(5, 1)
    ensures var r := Run(s, refusing);
            && r.procs == map[5 := Other(2, false)] && r.starter.Refused? && NoSup(r.procs)
  {
    FreshInv(s);
    NoProcs(s);
    hide Inv, Run, StartNext, RunPid;
    var first := AttemptComesUp(s, Ident(5, 1));
    var more;
    more := StrangerComes(Run(s, first));
    RunAppend(s, first, more);
    killing := first + more;
    more := StrangerStays(Run(s, killing));
    RunAppend(s, killing, more);
    refusing := killing + more;
  }

  lemma {:induction false} StrangerComes(s: State) returns (labels: seq<Label>)
    requires Inv(s) && Quiet(s.starter) && s.used == {Ident(5, 1)}
    requires s.procs == map[5 := Sup(1, false, 0, Published)]
    ensures var r := Run(s, labels);
            Inv(r) && r.procs == map[5 := Other(2, false)] && r.starter == KillCheck(Ident(5, 1), s.fs)
  {
    hide Inv, Run, Next;
    labels := StopBegins(s, 5);
    var more := PidReused(Run(s, labels), Ident(5, 2));
    RunAppend(s, labels, more);
    labels := labels + more;
  }

  /** The process under the pid a start waits for goes, another comes, and the wait ends. */
  lemma {:induction false} PidReused(s: State, id: Ident) returns (labels: seq<Label>)
    requires Inv(s) && s.starter.WaitStop? && !s.starter.killed && s.starter.prev.pid == id.pid
    requires id.pid in s.procs && id !in s.used
    ensures var r := Run(s, labels);
            && Inv(r) && r.procs == (s.procs - {id.pid})[id.pid := Other(id.start, false)]
            && r.starter == KillCheck(s.starter.prev, s.starter.was)
  {
    assert Run(s, []) == s by { RunNone(s); }
    GoneSteps(s, id.pid);
    var gone := s.(procs := s.procs - {id.pid});
    SpawnStep(gone, id);
    WaitCut(Next(gone, Spawn(id)));
    hide Inv, Run, Next;
    Then(s, [], Die(id.pid));
    labels := [] + [Die(id.pid)];
    Then(s, labels, Reap(id.pid));
    labels := labels + [Reap(id.pid)];
    Then(s, labels, Spawn(id));
    labels := labels + [Spawn(id)];
    Then(s, labels, TimeUp);
    labels := labels + [TimeUp];
  }

  lemma {:induction false} StrangerStays(s: State) returns (labels: seq<Label>)
    requires Inv(s) && s.starter.KillCheck? && s.starter.prev.pid in s.procs
    requires s.procs[s.starter.prev.pid].Other? && !s.procs[s.starter.prev.pid].zombie
    ensures Run(s, labels) == s.(starter := Refused(s.starter.was))
  {
    StrangerAnswers(s, s.starter.prev, s.starter.was);
    assert Run(s, []) == s by { RunNone(s); }
    hide Inv, Run, StartNext, Answers;
    Then(s, [], StartStep);
    labels := [] + [StartStep];
    Then(s, labels, TimeUp);
    labels := labels + [TimeUp];
    Then(s, labels, StartStep);
    labels := labels + [StartStep];
  }

  lemma WaitCut(s: State)
    requires s.starter.WaitStop? && !s.starter.killed
    ensures Next(s, TimeUp) == s.(starter := KillCheck(s.starter.prev, s.starter.was))
  {
  }

  lemma SpawnStep(s: State, id: Ident)
    requires id.pid !in s.procs && id !in s.used
    ensures Next(s, Spawn(id)) == s.(procs := s.procs[id.pid := Other(id.start, false)], used := s.used + {id})
  {
  }

  lemma StrangerAnswers(s: State, prev: Ident, was: Fs)
    requires prev.pid in s.procs && s.procs[prev.pid].Other? && !s.procs[prev.pid].zombie
    ensures Answers(s, prev.pid)
    ensures StartNext(s.(starter := KillCheck(prev, was))) == s.(starter := WaitStop(prev, true, 0, was))
    ensures Next(s.(starter := WaitStop(prev, true, 0, was)), TimeUp) == s.(starter := Gate(prev, was))
    ensures StartNext(s.(starter := Gate(prev, was))) == s.(starter := Refused(was))
  {
  }
}
