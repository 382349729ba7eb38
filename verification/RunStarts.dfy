/** Runs that do happen: a start comes up, over nothing or over a live supervisor; and whom a kill hits
    (packages/container-runtime/src/run-protocol.ts:184-262, 310-334). */
module RunStarts {
  import opened RunSpec
  import opened RunDirectory
  import opened RunSupervisors

  /** One more label at the end of a run. */
  lemma {:induction false} Then(s: State, labels: seq<Label>, l: Label)
    requires Inv(Run(s, labels))
    ensures Run(s, labels + [l]) == Next(Run(s, labels), l) && Inv(Run(s, labels + [l]))
  {
    RunThen(s, labels, l);
    NextInv(Run(s, labels), l);
  }

  ghost predicate SamePods(s: State, s': State) {
    && s'.procs == s.procs && s'.used == s.used && s'.attempts == s.attempts
    && s'.agents == s.agents && s'.writers == s.writers
  }

  /** Where the output is stays so: the start makes none where there is one. */
  ghost predicate KeepsOutput(s: State, s': State) {
    Output in s.fs.names ==> Output in s'.fs.names && s'.fs.names[Output] == s.fs.names[Output]
  }

  lemma MoveStep(s: State)
    requires Inv(s) && s.starter.Moving? && s.starter.i <= |ATTEMPT_FILES|
    ensures var r, i := StartNext(s), s.starter.i;
            && Inv(r) && SamePods(s, r) && r.fs.inodes == s.fs.inodes
            && (i == MoveRank(Output) || Output !in s.fs.names ==> Output !in r.fs.names)
            && r.starter == (if i < |ATTEMPT_FILES| then Moving(i + 1) else Creating(0))
            && (i > MoveRank(Output) ==> KeepsOutput(s, r))
  {
    StartInv(s);
    StartShape(s);
    Ranks(s.starter.i);
  }

  lemma {:induction false} MovesAll(s: State) returns (labels: seq<Label>)
    requires Inv(s) && s.starter.Moving? && s.starter.i <= |ATTEMPT_FILES|
    ensures var r := Run(s, labels);
            && Inv(r) && r.starter == Creating(0) && SamePods(s, r) && r.fs.inodes == s.fs.inodes
            && (s.starter.i > MoveRank(Output) ==> KeepsOutput(s, r))
            && (s.starter.i <= MoveRank(Output) || Output !in s.fs.names ==> Output !in r.fs.names)
    decreases |ATTEMPT_FILES| - s.starter.i
  {
    MoveStep(s);
    var r := StartNext(s);
    hide StartNext, Inv;
    assert Run(s, [] + [StartStep]) == r by { RunThen(s, [], StartStep); }
    if s.starter.i < |ATTEMPT_FILES| {
      var rest := MovesAll(r);
      RunAppend(s, [] + [StartStep], rest);
      labels := [] + [StartStep] + rest;
    } else {
      labels := [] + [StartStep];
    }
  }

  /** Every file of the directory is new since `before`, and what was there then is as it was. */
  ghost predicate AllNew(before: Fs, fs: Fs) {
    && |before.inodes| <= |fs.inodes| && (forall i :: 0 <= i < |before.inodes| ==> fs.inodes[i] == before.inodes[i])
    && (forall n :: n in fs.names ==> |before.inodes| <= fs.names[n] < |fs.inodes|)
    && (Output in fs.names ==> fs.inodes[fs.names[Output]] == Log([]))
  }

  /** Of the files a start makes, the first `j` are there, all new, and no others. */
  ghost predicate Made(before: Fs, fs: Fs, j: nat) {
    AllNew(before, fs) && j <= |CREATED_FILES| && forall n :: n in fs.names <==> n in CREATED_FILES[..j]
  }

  lemma CreatedOnce(j: nat)
    requires j < |CREATED_FILES|
    ensures CREATED_FILES[j] !in CREATED_FILES[..j]
    ensures forall n :: n in CREATED_FILES[..j + 1] <==> n in CREATED_FILES[..j] || n == CREATED_FILES[j]
  {
    assert CREATED_FILES[..j + 1] == CREATED_FILES[..j] + [CREATED_FILES[j]];
    Ranks(j);
    forall k | 0 <= k < j ensures CREATED_FILES[k] != CREATED_FILES[j] {
      Ranks(k);
    }
  }

  lemma MadeNext(before: Fs, fs: Fs, r: Fs, j: nat)
    requires Made(before, fs, j) && j < |CREATED_FILES|
    requires Redirected(fs, r, CREATED_FILES[j], Contents(CREATED_FILES[j]))
    ensures Made(before, r, j + 1)
  {
    CreatedOnce(j);
    NewAdded(before, fs, r, CREATED_FILES[j]);
    hide AllNew, NamesOk, Contents;
  }

  lemma NewAdded(before: Fs, fs: Fs, r: Fs, name: Name)
    requires AllNew(before, fs) && name !in fs.names && Redirected(fs, r, name, Contents(name))
    ensures AllNew(before, r)
  {
    hide Contents;
    forall n | n in r.names ensures |before.inodes| <= r.names[n] < |r.inodes| {
      if n != name { assert n in fs.names; }
    }
    MadeOutput(before, fs, r, name);
  }

  lemma MadeOutput(before: Fs, fs: Fs, r: Fs, name: Name)
    requires AllNew(before, fs) && name !in fs.names && Redirected(fs, r, name, Contents(name))
    ensures Output in r.names ==> r.inodes[r.names[Output]] == Log([])
  {
    if Output in r.names && name != Output {
      assert Output in fs.names && r.names[Output] != r.names[name];
    }
  }

  lemma CreateMade(s: State, before: Fs)
    requires Inv(s) && s.starter.Creating? && Made(before, s.fs, s.starter.j)
    ensures Made(before, StartNext(s).fs, if s.starter.j < |CREATED_FILES| then s.starter.j + 1 else s.starter.j)
  {
    StartShape(s);
    hide StartNext, BytesOk, ProcsOk, OneSupervisor, StarterOk, AgentsOk, Made, Redirect, Redirected, NamesOk;
    var j := s.starter.j;
    if j < |CREATED_FILES| {
      ContentsFit(j);
      RedirectOk(s.fs, CREATED_FILES[j], Contents(CREATED_FILES[j]));
      MadeNext(before, s.fs, Redirect(s.fs, CREATED_FILES[j], Contents(CREATED_FILES[j])), j);
    }
  }

  lemma CreateStep(s: State)
    requires Inv(s) && s.starter.Creating?
    ensures var r, j := StartNext(s), s.starter.j;
            && Inv(r) && SamePods(s, r)
            && r.starter == (if j < |CREATED_FILES| then Creating(j + 1) else Launching)
            && KeepsOutput(s, r)
  {
    StartInv(s);
    StartShape(s);
    hide StartNext, BytesOk, ProcsOk, OneSupervisor;
    if s.starter.j < |CREATED_FILES| {
      ContentsFit(s.starter.j);
      RedirectOk(s.fs, CREATED_FILES[s.starter.j], Contents(CREATED_FILES[s.starter.j]));
    }
  }

  lemma {:induction false} CreatesAll(s: State, before: Fs) returns (labels: seq<Label>)
    requires Inv(s) && s.starter.Creating? && s.starter.j <= |CREATED_FILES|
    ensures var r := Run(s, labels);
            && Inv(r) && r.starter == Launching && SamePods(s, r) && KeepsOutput(s, r)
            && (Made(before, s.fs, s.starter.j) ==> Made(before, r.fs, |CREATED_FILES|))
    decreases |CREATED_FILES| - s.starter.j
  {
    CreateStep(s);
    if Made(before, s.fs, s.starter.j) { CreateMade(s, before); }
    var r := StartNext(s);
    hide StartNext, Inv, Made;
    assert Run(s, [] + [StartStep]) == r by { RunThen(s, [], StartStep); }
    if s.starter.j < |CREATED_FILES| {
      var rest := CreatesAll(r, before);
      RunAppend(s, [] + [StartStep], rest);
      labels := [] + [StartStep] + rest;
    } else {
      labels := [] + [StartStep];
    }
  }

  lemma LookMoves(s: State)
    requires Inv(s) && Quiet(s.starter) && NoSup(s.procs) && RunPid(s.fs, s.procs).None?
    ensures Next(s, Begin) == s.(starter := Look(s.fs))
    ensures StartNext(s.(starter := Look(s.fs))) == s.(starter := Moving(0))
  {
    assert NoneUnpublished(s.procs);
  }

  lemma {:induction false} BeginMoves(s: State) returns (labels: seq<Label>)
    requires Inv(s) && Quiet(s.starter) && NoSup(s.procs) && RunPid(s.fs, s.procs).None?
    ensures var r := Run(s, labels); Inv(r) && r.starter == Moving(0) && SamePods(s, r) && r.fs == s.fs
  {
    LookMoves(s);
    assert Run(s, []) == s;
    hide Inv, Run, RunPid, StartNext;
    Then(s, [], Begin);
    Then(s, [] + [Begin], StartStep);
    labels := [] + [Begin] + [StartStep];
  }

  lemma LaunchStep(s: State, id: Ident)
    requires Inv(s) && s.starter == Launching && id.pid > 1 && id.pid !in s.procs && id !in s.used
    ensures var r := LaunchNext(s, id);
            && r.procs == s.procs[id.pid := Sup(id.start, false, s.attempts, Launched)]
            && r.starter == WaitPid(id) && r.used == s.used + {id} && r.attempts == s.attempts + 1
            && r.agents == s.agents && r.writers == s.writers && r.fs == s.fs
  {
  }

  lemma SupAdvances(s: State, pid: nat)
    requires Inv(s) && LiveSup(s.procs, pid)
    ensures var r := SupNext(s, pid);
            && r.procs == s.procs[pid := s.procs[pid].(phase := After(s.procs[pid].phase))]
            && r.starter == s.starter && r.used == s.used && r.attempts == s.attempts && r.writers == s.writers
            && r.agents == (if s.procs[pid].phase.Launched? then s.agents + {s.procs[pid].attempt} else s.agents)
            && r.fs == (match s.procs[pid].phase
                        case Forked => Redirect(s.fs, PidTmp, PidRecord(Ident(pid, s.procs[pid].start)))
                        case TmpWritten => RenamePid(s.fs)
                        case _ => s.fs)
  {
    hide Redirect, RenamePid, NamesOk, BytesOk, ProcsOk, OneSupervisor, StarterOk;
  }

  lemma WaitEnds(s: State, id: Ident)
    requires Inv(s) && s.starter == WaitPid(id) && LivePublished(s.procs, id.pid)
    ensures StartNext(s) == s.(starter := Started(id.pid))
  {
    hide NamesOk, BytesOk, ProcsOk;
    assert Names(s.fs, PidFile, Ident(id.pid, s.procs[id.pid].start));
  }

  /** A launched supervisor starts its agent and publishes its pid file. */
  lemma {:induction false} SupComesUp(s: State, id: Ident) returns (labels: seq<Label>)
    requires Inv(s) && s.starter == WaitPid(id) && LiveSup(s.procs, id.pid) && s.procs[id.pid].phase.Launched?
    ensures var r := Run(s, labels);
            && Inv(r) && LivePublished(r.procs, id.pid) && r.starter == Started(id.pid)
            && r.procs == s.procs[id.pid := s.procs[id.pid].(phase := Published)]
            && r.used == s.used && r.attempts == s.attempts && r.writers == s.writers
            && r.agents == s.agents + {s.procs[id.pid].attempt}
            && r.fs == RenamePid(Redirect(s.fs, PidTmp, PidRecord(id)))
  {
    hide Inv, Run, StartNext, SupNext, Redirect, RenamePid;
    assert s.procs[id.pid].start == id.start by { OwnStart(s, id); }
    var pid := id.pid;
    assert Run(s, []) == s by { RunNone(s); }
    SupAdvances(s, pid);
    Then(s, [], SupStep(pid));
    labels := [] + [SupStep(pid)];
    SupAdvances(Run(s, labels), pid);
    Then(s, labels, SupStep(pid));
    labels := labels + [SupStep(pid)];
    SupAdvances(Run(s, labels), pid);
    Then(s, labels, SupStep(pid));
    labels := labels + [SupStep(pid)];
    assert Run(s, labels).procs == s.procs[pid := s.procs[pid].(phase := Published)];
    WaitEnds(Run(s, labels), id);
    Then(s, labels, StartStep);
    labels := labels + [StartStep];
  }

  lemma OwnStart(s: State, id: Ident)
    requires Inv(s) && s.starter == WaitPid(id) && LiveSup(s.procs, id.pid)
    ensures s.procs[id.pid].start == id.start
  {
  }

  /** What a started attempt finds: the files its start made and its supervisor's pid file, all new, with an
      empty output and nothing of what was there before; and that is as it was. */
  ghost predicate NewAttempt(before: Fs, fs: Fs, id: Ident) {
    && AllNew(before, fs) && Names(fs, PidFile, id)
    && Output in fs.names
    && forall n :: n in fs.names <==> n in {Agent, Supervisor, Output, Stderr, Stdin, StdinPipe, PidFile}
  }

  lemma PidPublished(before: Fs, fs: Fs, id: Ident)
    requires NamesOk(fs) && Made(before, fs, |CREATED_FILES|)
    ensures NewAttempt(before, RenamePid(Redirect(fs, PidTmp, PidRecord(id))), id)
  {
    hide NamesOk, Redirect, RenamePid, Made, AllNew, NewAttempt, Redirected;
    SixMade(before, fs);
    var r := Redirect(fs, PidTmp, PidRecord(id));
    RedirectOk(fs, PidTmp, PidRecord(id));
    TmpNew(before, fs, r, id);
    RenameOk(r);
    RenamedNew(before, r, RenamePid(r), id);
  }

  lemma SixMade(before: Fs, fs: Fs)
    requires Made(before, fs, |CREATED_FILES|)
    ensures AllNew(before, fs)
    ensures forall n :: n in fs.names <==> n in {Agent, Supervisor, Output, Stderr, Stdin, StdinPipe}
  {
    assert CREATED_FILES[..|CREATED_FILES|] == CREATED_FILES;
    hide AllNew;
  }

  lemma TmpNew(before: Fs, fs: Fs, r: Fs, id: Ident)
    requires AllNew(before, fs) && Redirected(fs, r, PidTmp, PidRecord(id))
    requires forall n :: n in fs.names <==> n in {Agent, Supervisor, Output, Stderr, Stdin, StdinPipe}
    ensures AllNew(before, r) && NamesOk(r) && r.inodes[r.names[PidTmp]] == PidRecord(id)
    ensures forall n :: n in r.names <==> n in {Agent, Supervisor, Output, Stderr, Stdin, StdinPipe, PidTmp}
  {
    assert PidTmp !in fs.names;
    forall n | n in r.names ensures |before.inodes| <= r.names[n] < |r.inodes| {
      if n != PidTmp { assert n in fs.names; }
    }
  }

  lemma RenamedNew(before: Fs, r: Fs, t: Fs, id: Ident)
    requires AllNew(before, r) && t.inodes == r.inodes && t.names.Keys == r.names.Keys - {PidTmp} + {PidFile}
    requires PidTmp in r.names && t.names[PidFile] == r.names[PidTmp] && r.inodes[r.names[PidTmp]] == PidRecord(id)
    requires forall n :: n in t.names && n != PidFile ==> t.names[n] == r.names[n]
    requires forall n :: n in r.names <==> n in {Agent, Supervisor, Output, Stderr, Stdin, StdinPipe, PidTmp}
    ensures NewAttempt(before, t, id)
  {
    forall n | n in t.names ensures |before.inodes| <= t.names[n] < |t.inodes| {
      if n != PidFile { assert n in r.names; }
    }
  }

  lemma RunNone(s: State)
    ensures Run(s, []) == s
  {
  }

  /** Once a start moves files, its supervisor comes up under any pid that is free. */
  lemma {:induction false} MovesUp(s: State, id: Ident) returns (labels: seq<Label>)
    requires Inv(s) && s.starter == Moving(0) && id.pid > 1 && id.pid !in s.procs && id !in s.used
    ensures var r := Run(s, labels);
            && Inv(r) && LivePublished(r.procs, id.pid) && r.starter == Started(id.pid)
            && r.procs == s.procs[id.pid := Sup(id.start, false, s.attempts, Published)]
            && r.used == s.used + {id} && r.attempts == s.attempts + 1
            && r.agents == s.agents + {s.attempts} && r.writers == s.writers
            && NewAttempt(s.fs, r.fs, id)
  {
    hide Inv, Run, StartNext, LaunchNext, SupNext, KeepsOutput, Made, NewAttempt, Redirect, RenamePid;
    var b := MovesAll(s);
    NoneMade(Run(s, b), s.fs);
    var c := CreatesAll(Run(s, b), s.fs);
    RunAppend(s, b, c);
    labels := b + c;
    LaunchStep(Run(s, labels), id);
    Then(s, labels, Launch(id));
    labels := labels + [Launch(id)];
    InvNames(Run(s, labels));
    PidPublished(s.fs, Run(s, labels).fs, id);
    var up := SupComesUp(Run(s, labels), id);
    RunAppend(s, labels, up);
    labels := labels + up;
  }

  lemma InvNames(s: State)
    requires Inv(s)
    ensures NamesOk(s.fs)
  {
  }

  /** With everything moved aside nothing is left. */
  lemma NoneMade(s: State, before: Fs)
    requires Inv(s) && s.starter == Creating(0) && Output !in s.fs.names && s.fs.inodes == before.inodes
    ensures Made(before, s.fs, 0)
  {
  }

  /** With no supervisor left, a start brings its own up, in a directory of its own files. */
  lemma {:induction false} AttemptComesUp(s: State, id: Ident) returns (labels: seq<Label>)
    requires Inv(s) && Quiet(s.starter) && NoSup(s.procs) && RunPid(s.fs, s.procs).None?
    requires id.pid > 1 && id.pid !in s.procs && id !in s.used
    ensures var r := Run(s, labels);
            && Inv(r) && LivePublished(r.procs, id.pid) && r.starter == Started(id.pid)
            && r.procs == s.procs[id.pid := Sup(id.start, false, s.attempts, Published)]
            && r.used == s.used + {id} && r.attempts == s.attempts + 1
            && r.agents == s.agents + {s.attempts} && r.writers == s.writers
            && NewAttempt(s.fs, r.fs, id)
  {
    hide NewAttempt, Inv, RunPid, Run;
    var a := BeginMoves(s);
    var up := MovesUp(Run(s, a), id);
    RunAppend(s, a, up);
    labels := a + up;
  }

  /** The stop of a live supervisor. */
  lemma StopSteps(s: State, prev: nat)
    requires Inv(s) && Quiet(s.starter) && LivePublished(s.procs, prev)
    ensures Next(s, Begin) == s.(starter := Look(s.fs))
    ensures StartNext(s.(starter := Look(s.fs))) ==
            s.(starter := WaitStop(Ident(prev, s.procs[prev].start), false, 0, s.fs))
  {
    hide NamesOk, BytesOk, StarterOk;
    LookFindsSup(s.fs, s.procs, s.used, s.attempts, prev);
  }

  lemma GateSteps(s: State, prev: Ident, was: Fs)
    requires s.starter == WaitStop(prev, false, 0, was) && prev.pid !in s.procs
    ensures StartNext(s) == s.(starter := KillCheck(prev, was))
    ensures StartNext(s.(starter := KillCheck(prev, was))) == s.(starter := Gate(prev, was))
    ensures StartNext(s.(starter := Gate(prev, was))) == s.(starter := Moving(0))
  {
  }

  lemma GoneSteps(s: State, pid: nat)
    requires pid in s.procs
    ensures Next(Next(s, Die(pid)), Reap(pid)) == s.(procs := s.procs - {pid})
  {
    var s1 := Next(s, Die(pid));
    assert s1.procs - {pid} == s.procs - {pid};
  }

  lemma {:induction false} StopBegins(s: State, prev: nat) returns (labels: seq<Label>)
    requires Inv(s) && Quiet(s.starter) && LivePublished(s.procs, prev)
    ensures var r := Run(s, labels);
            Inv(r) && r == s.(starter := WaitStop(Ident(prev, s.procs[prev].start), false, 0, s.fs))
  {
    StopSteps(s, prev);
    assert Run(s, []) == s by { RunNone(s); }
    hide Inv, RunPid, Run, StartNext;
    Then(s, [], Begin);
    Then(s, [] + [Begin], StartStep);
    labels := [] + [Begin] + [StartStep];
  }

  lemma {:induction false} StopsPrevious(s: State, prev: nat) returns (labels: seq<Label>)
    requires Inv(s) && Quiet(s.starter) && LivePublished(s.procs, prev)
    ensures var r := Run(s, labels);
            && Inv(r) && r.starter == Moving(0) && r.procs == s.procs - {prev} && r.fs == s.fs
            && r.used == s.used && r.attempts == s.attempts && r.agents == s.agents && r.writers == s.writers
  {
    hide Inv, RunPid, Run, StartNext, ProcNext;
    labels := StopBegins(s, prev);
    GoneSteps(Run(s, labels), prev);
    Then(s, labels, Die(prev));
    labels := labels + [Die(prev)];
    Then(s, labels, Reap(prev));
    labels := labels + [Reap(prev)];
    GateSteps(Run(s, labels), Ident(prev, s.procs[prev].start), s.fs);
    Then(s, labels, StartStep);
    labels := labels + [StartStep];
    Then(s, labels, StartStep);
    labels := labels + [StartStep];
    Then(s, labels, StartStep);
    labels := labels + [StartStep];
  }

  /** A start over a live supervisor that goes when it is told to: the new attempt's supervisor is up and the
      one the directory names, the old one is gone, and its agent's descriptor leads where it led. */
  lemma {:induction false} ReplacesPrevious(s: State, prev: nat, id: Ident) returns (labels: seq<Label>)
    requires Inv(s) && Quiet(s.starter) && LivePublished(s.procs, prev)
    requires id.pid > 1 && id.pid !in s.procs && id !in s.used
    ensures var r := Run(s, labels);
            && Inv(r) && LivePublished(r.procs, id.pid) && r.starter == Started(id.pid)
            && RunPid(r.fs, r.procs) == Some(id.pid) && prev !in r.procs
            && r.agents == s.agents + {s.attempts} && r.writers == s.writers && NewAttempt(s.fs, r.fs, id)
  {
    hide Next, Run, NewAttempt;
    var a := StopsPrevious(s, prev);
    var up := MovesUp(Run(s, a), id);
    RunAppend(s, a, up);
    labels := a + up;
    var r := Run(s, labels);
    LookFindsSup(r.fs, r.procs, r.used, r.attempts, id.pid);
  }

  // ---- Kill ----

  /** The pid the kill script signals; with `named`, only when it is that pid. */
  function KillTarget(s: State, named: Option<nat>): Option<nat> {
    match RunPid(s.fs, s.procs)
    case Some(pid) => if named == None || named == Some(pid) then Some(pid) else None
    case None => None
  }

  /** A named kill meets the live supervisor iff its pid has that number, whichever attempt it is of; so
      the attempt the caller did not mean is safe exactly while its supervisor's pid is another number. */
  lemma {:induction false} NamedKillHitsIff(s: State, labels: seq<Label>, live: nat, named: nat)
    requires Fresh(s) && LivePublished(Run(s, labels).procs, live)
    ensures KillTarget(Run(s, labels), Some(named)) == Some(live) <==> named == live
    ensures KillTarget(Run(s, labels), None) == Some(live)
  {
    OneAgent(s, labels, live, live);
  }

  lemma NoProcs(s: State)
    requires s.procs == map[]
    ensures NoSup(s.procs) && RunPid(s.fs, s.procs).None?
  {
  }

  lemma {:induction false} AttemptDies(s: State, pid: nat)
    requires Inv(s) && Quiet(s.starter) && pid in s.procs && s.procs.Keys == {pid}
    ensures var r := Run(s, [] + [Die(pid)] + [Reap(pid)]);
            && Inv(r) && r.procs == map[] && r.used == s.used && r.attempts == s.attempts
            && r.agents == s.agents && r.writers == s.writers && Quiet(r.starter)
  {
    assert Run(s, []) == s;
    hide Inv, Run;
    Then(s, [], Die(pid));
    Then(s, [] + [Die(pid)], Reap(pid));
    GoneSteps(s, pid);
    assert (s.procs - {pid}).Keys == {};
  }

  lemma {:induction false} FirstDies(s: State) returns (first: seq<Label>, gone: seq<Label>)
    requires Fresh(s) && s.procs == map[] && s.used == {}
    ensures var r1 := Run(s, first); LivePublished(r1.procs, 5) && r1.procs[5].attempt == 0
    ensures var r := Run(s, gone);
            && Inv(r) && r.procs == map[] && r.used == {Ident(5, 1)} && r.attempts == 1
            && r.agents == {0} && r.writers == map[] && Quiet(r.starter)
  {
    FreshInv(s);
    NoProcs(s);
    hide Next, Inv, Run, NewAttempt;
    first := AttemptComesUp(s, Ident(5, 1));
    var dies := [] + [Die(5)] + [Reap(5)];
    AttemptDies(Run(s, first), 5);
    RunAppend(s, first, dies);
    gone := first + dies;
  }

  /** A first attempt's supervisor, pid 5, dies, and its agent lives and has not opened its output; the next
      attempt comes up under `pid`. */
  lemma {:induction false} TwoAttempts(s: State, pid: nat) returns (first: seq<Label>, second: seq<Label>)
    requires Fresh(s) && s.procs == map[] && s.used == {} && pid > 1
    ensures var r1 := Run(s, first); LivePublished(r1.procs, 5) && r1.procs[5].attempt == 0
    ensures var r2 := Run(s, second);
            && Inv(r2) && LivePublished(r2.procs, pid) && r2.procs[pid].attempt == 1 && r2.procs.Keys == {pid}
            && r2.agents == {0, 1} && r2.writers == map[] && r2.starter == Started(pid)
  {
    hide Next, Inv, Run, NewAttempt, Fresh, RunPid;
    var gone;
    first, gone := FirstDies(s);
    NoProcs(Run(s, gone));
    var more := AttemptComesUp(Run(s, gone), Ident(pid, 2));
    RunAppend(s, gone, more);
    second := gone + more;
  }

  /** The promise that a named kill never hits a newer attempt fails when the pid comes round again: a
      first attempt under pid 5 dies, the next one gets pid 5, and the kill meant for the first hits it. */
  lemma {:induction false} NamedKillHitsNewer(s: State) returns (first: seq<Label>, second: seq<Label>)
    requires Fresh(s) && s.procs == map[] && s.used == {}
    ensures var r1 := Run(s, first);
            LivePublished(r1.procs, 5) && r1.procs[5].attempt == 0
    ensures var r2 := Run(s, second);
            && LivePublished(r2.procs, 5) && r2.procs[5].attempt == 1
            && KillTarget(r2, Some(5)) == Some(5)
  {
    first, second := TwoAttempts(s, 5);
    var r2 := Run(s, second);
    LookFindsSup(r2.fs, r2.procs, r2.used, r2.attempts, 5);
  }
}
