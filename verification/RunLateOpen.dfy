/** An agent that opens its output late (packages/container-runtime/src/run-protocol.ts:153-168, 236-255): the
    supervisor starts it in the background, so it may outlive its supervisor and open, by name, what a later
    start made meanwhile. Exactly when its file stays its own, over everything that may follow. */
module RunLateOpen {
  import opened RunSpec
  import opened RunDirectory
  import opened RunSupervisors
  import opened RunOutput
  import opened RunStarts

  /** A start is past moving the output aside, and has not launched: the next attempt's agent will open what
      the name leads to then. */
  predicate HandedOn(starter: Starter) {
    starter.Launching? || starter.Creating? || (starter.Moving? && starter.i > MoveRank(Output))
  }

  /** No supervisor has still to start its agent. */
  predicate AllForked(procs: Procs) {
    forall p | p in procs :: LiveSup(procs, p) ==> !procs[p].phase.Launched?
  }

  /** The file the name leads to is empty, and no living agent holds it. */
  predicate Clear(s: State) {
    Has(s.fs, Output) ==>
      && FileAt(s.fs, Output) == Log([])
      && forall a | a in s.agents && a in s.writers :: s.writers[a] != s.fs.names[Output]
  }

  /** The file is clear; no other living agent has still to open its output, and none will come that opens
      this file: no start under way hands it on, no supervisor has still to start its agent. */
  predicate Safe(s: State, attempt: Attempt) {
    && !HandedOn(s.starter) && AllForked(s.procs) && Clear(s)
    && forall a | a in s.agents :: a != attempt ==> a in s.writers
  }

  ghost predicate MayOpen(s: State, attempt: Attempt) { attempt in s.agents && attempt !in s.writers }

  /** Inode `i` is an output that holds the attempt's bytes, and no other's. */
  ghost predicate HoldsOnly(s: State, i: Inode, attempt: Attempt) {
    && i < |s.fs.inodes| && s.fs.inodes[i].Log?
    && forall k :: 0 <= k < |s.fs.inodes[i].bytes| ==> s.fs.inodes[i].bytes[k].writer == attempt
  }

  // ---- Safe: it stays so ----

  /** Inode `i` is the attempt's, no other living agent holds it, and while the name leads there none is to
      open it. */
  ghost predicate Owns(s: State, i: Inode, attempt: Attempt) {
    && HoldsOnly(s, i, attempt)
    && (forall a :: a in s.agents && a in s.writers && s.writers[a] == i ==> a == attempt)
    && (Output in s.fs.names && s.fs.names[Output] == i ==>
          !HandedOn(s.starter) && AllForked(s.procs) && forall a :: a in s.agents ==> a in s.writers)
  }

  lemma OwnsHolds(s: State, i: Inode, attempt: Attempt)
    requires Owns(s, i, attempt)
    ensures HoldsOnly(s, i, attempt)
  {
  }

  /** The file at `i`, as a log or not, is as it was, and the output's name does not come to it. */
  ghost predicate Spared(fs: Fs, r: Fs, i: Inode) {
    && i < |fs.inodes| && i < |r.inodes| && r.inodes[i] == fs.inodes[i]
    && (Output in r.names && r.names[Output] == i ==> Output in fs.names && fs.names[Output] == i)
  }

  /** Steps that spare the file, with no writer, agent or supervisor more, and hand nothing on. */
  lemma OwnsKept(s: State, r: State, i: Inode, attempt: Attempt)
    requires Owns(s, i, attempt) && Spared(s.fs, r.fs, i) && r.writers == s.writers && r.agents <= s.agents
    requires HandedOn(r.starter) ==> HandedOn(s.starter) || Output !in r.fs.names
    requires AllForked(s.procs) ==> AllForked(r.procs)
    ensures Owns(r, i, attempt)
  {
  }

  lemma RedirectSpares(fs: Fs, r: Fs, name: Name, file: File, i: Inode)
    requires NamesOk(fs) && Redirected(fs, r, name, file) && i < |fs.inodes| && fs.inodes[i].Log?
    requires name == Output && Output in fs.names ==> fs.names[Output] != i
    ensures Spared(fs, r, i)
  {
  }

  lemma OwnsStart(s: State, i: Inode, attempt: Attempt)
    requires Inv(s) && Owns(s, i, attempt)
    ensures Owns(StartNext(s), i, attempt)
  {
    StartShape(s);
    hide StartNext, BytesOk, ProcsOk, OneSupervisor, StarterOk, AgentsOk;
    if s.starter.Moving? {
      Ranks(s.starter.i);
    } else if s.starter.Creating? {
      var j := s.starter.j;
      if j < |CREATED_FILES| {
        var name, file := CREATED_FILES[j], Contents(CREATED_FILES[j]);
        ContentsFit(j);
        RedirectOk(s.fs, name, file);
        RedirectSpares(s.fs, Redirect(s.fs, name, file), name, file, i);
      }
    } else {
      StopsShort(s);
    }
    hide NamesOk, Redirect, HoldsOnly, AllForked;
    OwnsKept(s, StartNext(s), i, attempt);
  }

  lemma OwnsSup(s: State, pid: nat, i: Inode, attempt: Attempt)
    requires Inv(s) && Owns(s, i, attempt)
    ensures Owns(SupNext(s, pid), i, attempt)
  {
    hide BytesOk, ProcsOk, OneSupervisor, StarterOk, HoldsOnly;
    if LiveSup(s.procs, pid) {
      if s.procs[pid].phase.Launched? {
        OwnsFork(s, pid, i, attempt);
      } else {
        assert i < |s.fs.inodes| && s.fs.inodes[i].Log? by { HoldsLog(s, i, attempt); }
        var id := Ident(pid, s.procs[pid].start);
        if s.procs[pid].phase.Forked? {
          RedirectOk(s.fs, PidTmp, PidRecord(id));
          RedirectSpares(s.fs, Redirect(s.fs, PidTmp, PidRecord(id)), PidTmp, PidRecord(id), i);
        }
        assert AllForked(s.procs) ==> AllForked(SupNext(s, pid).procs);
        assert Spared(s.fs, SupNext(s, pid).fs, i);
        hide NamesOk, Redirect, AllForked;
        OwnsKept(s, SupNext(s, pid), i, attempt);
      }
    }
  }

  lemma HoldsLog(s: State, i: Inode, attempt: Attempt)
    requires HoldsOnly(s, i, attempt)
    ensures i < |s.fs.inodes| && s.fs.inodes[i].Log?
  {
  }

  /** A new agent, which holds nothing yet, and is to open another file. */
  lemma OwnsFork(s: State, pid: nat, i: Inode, attempt: Attempt)
    requires Inv(s) && Owns(s, i, attempt) && LiveSup(s.procs, pid) && s.procs[pid].phase.Launched?
    ensures Owns(SupNext(s, pid), i, attempt)
  {
    hide BytesOk, ProcsOk, OneSupervisor, StarterOk, NamesOk;
    assert !AllForked(s.procs);
    assert SupNext(s, pid).fs == s.fs;
  }

  lemma OwnsExit(s: State, i: Inode, attempt: Attempt)
    requires Inv(s) && Owns(s, i, attempt)
    ensures Owns(s.(fs := Redirect(s.fs, ExitFile, Plain)), i, attempt)
  {
    RedirectOk(s.fs, ExitFile, Plain);
    RedirectSpares(s.fs, Redirect(s.fs, ExitFile, Plain), ExitFile, Plain, i);
    hide Redirect, NamesOk, BytesOk, ProcsOk, AgentsOk, OneSupervisor, StarterOk;
    OwnsKept(s, s.(fs := Redirect(s.fs, ExitFile, Plain)), i, attempt);
  }

  lemma OwnsOpen(s: State, other: Attempt, i: Inode, attempt: Attempt)
    requires Inv(s) && Owns(s, i, attempt)
    ensures Owns(OpenNext(s, other), i, attempt)
  {
    hide BytesOk, ProcsOk, AgentsOk, OneSupervisor, StarterOk;
  }

  lemma OwnsWrite(s: State, other: Attempt, bytes: seq<Byte>, i: Inode, attempt: Attempt)
    requires Owns(s, i, attempt)
    ensures Owns(WriteNext(s, other, bytes), i, attempt)
  {
    if other in s.agents && other in s.writers && s.writers[other] == i {
      var had, more := s.fs.inodes[i].bytes, TagAll(attempt, bytes);
      var r := WriteNext(s, other, bytes);
      assert r.fs.inodes[i].bytes == had + more;
      forall k: nat | 0 <= k < |had + more| ensures r.fs.inodes[i].bytes[k].writer == attempt {
        if k >= |had| { assert (had + more)[k] == more[k - |had|]; }
      }
    }
  }

  lemma OwnsLaunch(s: State, id: Ident, i: Inode, attempt: Attempt)
    requires Owns(s, i, attempt)
    ensures Owns(LaunchNext(s, id), i, attempt)
  {
    hide HoldsOnly;
    assert HoldsOnly(LaunchNext(s, id), i, attempt) by { SameFile(s, LaunchNext(s, id), i, attempt); }
  }

  lemma SameFile(s: State, r: State, i: Inode, attempt: Attempt)
    requires HoldsOnly(s, i, attempt) && r.fs == s.fs
    ensures HoldsOnly(r, i, attempt)
  {
  }

  lemma OwnsOther(s: State, l: Label, i: Inode, attempt: Attempt)
    requires Owns(s, i, attempt) && !l.StartStep? && !l.SupStep? && !l.RecordExit? && !l.OpenOutput?
    requires !l.Write? && !l.Launch?
    ensures Owns(Next(s, l), i, attempt)
  {
    hide HoldsOnly, StartNext, LaunchNext, SupNext, OpenNext, WriteNext;
    SameFile(s, Next(s, l), i, attempt);
  }

  lemma {:induction false} OwnsRun(s: State, labels: seq<Label>, i: Inode, attempt: Attempt)
    requires Inv(s) && Owns(s, i, attempt)
    ensures HoldsOnly(Run(s, labels), i, attempt)
    decreases |labels|
  {
    hide Inv, Owns, StartNext, SupNext, OpenNext, LaunchNext, WriteNext, OpenReaderNext, ReadNext, ProcNext, HoldsOnly;
    if labels == [] {
      OwnsHolds(s, i, attempt);
    } else {
      NextInv(s, labels[0]);
      match labels[0] {
        case StartStep => OwnsStart(s, i, attempt);
        case Launch(id) => OwnsLaunch(s, id, i, attempt);
        case SupStep(pid) => OwnsSup(s, pid, i, attempt);
        case RecordExit(pid) => if LiveSup(s.procs, pid) { OwnsExit(s, i, attempt); }
        case OpenOutput(other) => OwnsOpen(s, other, i, attempt);
        case Write(other, bytes) => OwnsWrite(s, other, bytes, i, attempt);
        case _ => OwnsOther(s, labels[0], i, attempt);
      }
      OwnsRun(Next(s, labels[0]), labels[1..], i, attempt);
    }
  }

  lemma SafeOwns(s: State, attempt: Attempt)
    requires Inv(s) && MayOpen(s, attempt) && Safe(s, attempt)
    ensures Owns(OpenNext(s, attempt), OpenNext(s, attempt).writers[attempt], attempt)
  {
    hide ProcsOk, OneSupervisor, StarterOk, AgentsOk;
  }

  // ---- Unsafe: another attempt's bytes come in ----

  /** Another living holder of the file writes a byte. */
  lemma WriteSpoils(t: State, i: Inode, attempt: Attempt, other: Attempt, x: Byte)
    requires Inv(t) && other != attempt && other in t.agents && other in t.writers && t.writers[other] == i
    ensures !HoldsOnly(WriteNext(t, other, [x]), i, attempt)
  {
    hide NamesOk, ProcsOk, OneSupervisor, StarterOk;
    var had := t.fs.inodes[i].bytes;
    assert TagAll(other, [x]) == [Tagged(other, x)];
    var r := WriteNext(t, other, [x]);
    assert r.fs.inodes[i].bytes == had + [Tagged(other, x)];
    assert r.fs.inodes[i].bytes[|had|].writer == other;
  }

  lemma {:induction false} HeldSpoils(t: State, i: Inode, attempt: Attempt, other: Attempt) returns (labels: seq<Label>)
    requires Inv(t) && other != attempt && other in t.agents && other in t.writers && t.writers[other] == i
    ensures !HoldsOnly(Run(t, labels), i, attempt)
  {
    WriteSpoils(t, i, attempt, other, 0);
    RunThen(t, [], Write(other, [0]));
    labels := [] + [Write(other, [0])];
    hide WriteNext, HoldsOnly;
  }

  lemma OpensThere(t: State, i: Inode, other: Attempt)
    requires Inv(t) && MayOpen(t, other) && Output in t.fs.names && t.fs.names[Output] == i
    ensures OpenNext(t, other).writers == t.writers[other := i] && OpenNext(t, other).agents == t.agents
  {
  }

  /** An agent that has still to open its output opens that file, then writes. */
  lemma {:induction false} OpenerSpoils(t: State, i: Inode, attempt: Attempt, other: Attempt)
      returns (labels: seq<Label>)
    requires Inv(t) && other != attempt && MayOpen(t, other)
    requires Output in t.fs.names && t.fs.names[Output] == i
    ensures !HoldsOnly(Run(t, labels), i, attempt)
  {
    OpensThere(t, i, other);
    RunThen(t, [], OpenOutput(other));
    NextInv(t, OpenOutput(other));
    hide Inv, OpenNext, HoldsOnly;
    var r := Run(t, [] + [OpenOutput(other)]);
    var more := HeldSpoils(r, i, attempt, other);
    RunAppend(t, [] + [OpenOutput(other)], more);
    labels := [] + [OpenOutput(other)] + more;
  }

  lemma {:induction false} Above(used: set<nat>) returns (n: nat)
    ensures forall m :: m in used ==> m < n
  {
    if used == {} {
      n := 0;
    } else {
      var m :| m in used;
      var rest := Above(used - {m});
      n := if rest <= m then m + 1 else rest;
      assert forall k :: k in used ==> k == m || k in used - {m};
    }
  }

  lemma {:induction false} FreePid(s: State) returns (id: Ident)
    ensures id.pid > 1 && id.pid !in s.procs && id !in s.used
  {
    var pid := Above(s.procs.Keys + (set u | u in s.used :: u.pid));
    id := Ident(pid + 2, 0);
    assert id.pid !in s.procs.Keys;
    assert id in s.used ==> id.pid in (set u | u in s.used :: u.pid);
  }

  /** A supervisor that has still to start its agent does, and that one opens the file. */
  lemma {:induction false} ForkSpoils(t: State, p: nat, i: Inode, attempt: Attempt) returns (labels: seq<Label>)
    requires Inv(t) && LiveSup(t.procs, p) && t.procs[p].phase.Launched? && t.procs[p].attempt != attempt
    requires Output in t.fs.names && t.fs.names[Output] == i
    ensures !HoldsOnly(Run(t, labels), i, attempt)
  {
    SupAdvances(t, p);
    ForkFs(t, p);
    RunThen(t, [], SupStep(p));
    NextInv(t, SupStep(p));
    var other := t.procs[p].attempt;
    assert other !in t.writers;
    hide Inv, SupNext, HoldsOnly, Run;
    labels := [] + [SupStep(p)];
    assert Run(t, []) == t by { RunNone(t); }
    var more := OpenerSpoils(Run(t, labels), i, attempt, other);
    RunAppend(t, labels, more);
    labels := labels + more;
  }

  lemma ForkFs(s: State, p: nat)
    requires LiveSup(s.procs, p) && s.procs[p].phase.Launched?
    ensures SupNext(s, p).fs == s.fs
  {
  }

  /** A start that is past moving the output aside goes on and launches, and its agent opens that file. */
  lemma {:induction false} StartSpoils(t: State, i: Inode, attempt: Attempt) returns (labels: seq<Label>)
    requires Inv(t) && HandedOn(t.starter) && attempt in t.agents
    requires Output in t.fs.names && t.fs.names[Output] == i
    ensures !HoldsOnly(Run(t, labels), i, attempt)
  {
    NoneYet(t, attempt);
    hide Inv, LaunchNext, HoldsOnly, Run;
    labels := ToLaunch(t);
    var id := FreePid(Run(t, labels));
    LaunchStep(Run(t, labels), id);
    Then(t, labels, Launch(id));
    labels := labels + [Launch(id)];
    var more := ForkSpoils(Run(t, labels), id.pid, i, attempt);
    RunAppend(t, labels, more);
    labels := labels + more;
  }

  lemma NoneYet(s: State, attempt: Attempt)
    requires Inv(s) && attempt in s.agents
    ensures attempt != s.attempts
  {
  }

  lemma {:induction false} ToLaunch(t: State) returns (labels: seq<Label>)
    requires Inv(t) && HandedOn(t.starter)
    ensures var r := Run(t, labels); Inv(r) && r.starter == Launching && SamePods(t, r) && KeepsOutput(t, r)
  {
    if t.starter.Launching? {
      labels := [];
    } else if t.starter.Creating? {
      labels := CreatesAll(t, t.fs);
    } else {
      var t' := t;
      labels := [];
      if t.starter.i > |ATTEMPT_FILES| {
        StartShape(t);
        StartInv(t);
        RunThen(t, [], StartStep);
        labels := [] + [StartStep];
      } else {
        labels := MovesAll(t);
      }
      var rest := CreatesAll(Run(t, labels), t.fs);
      RunAppend(t, labels, rest);
      labels := labels + rest;
    }
  }

  lemma {:induction false} UnsafeSpoils(s: State, attempt: Attempt) returns (more: seq<Label>)
    requires Inv(s) && MayOpen(s, attempt) && !Safe(s, attempt)
    ensures var t := OpenNext(s, attempt); !HoldsOnly(Run(t, more), t.writers[attempt], attempt)
  {
    var t := OpenNext(s, attempt);
    OpenInv(s, attempt);
    Opened(s, attempt);
    var i := t.writers[attempt];
    if HandedOn(s.starter) {
      more := StartSpoils(t, i, attempt);
    } else if !AllForked(s.procs) {
      var p :| p in s.procs && LiveSup(s.procs, p) && s.procs[p].phase.Launched?;
      assert s.procs[p].attempt !in s.agents;
      more := ForkSpoils(t, p, i, attempt);
    } else if a :| a in s.agents && a != attempt && a !in s.writers {
      more := OpenerSpoils(t, i, attempt, a);
    } else if a :| a in s.agents && a in s.writers && Output in s.fs.names && s.writers[a] == s.fs.names[Output] {
      more := HeldSpoils(t, i, attempt, a);
    } else {
      BytesSpoil(s, attempt);
      more := [];
      RunNone(t);
    }
  }

  /** Bytes that were in the file are not the attempt's. */
  lemma BytesSpoil(s: State, attempt: Attempt)
    requires Inv(s) && MayOpen(s, attempt) && Has(s.fs, Output) && FileAt(s.fs, Output) != Log([])
    ensures var t := OpenNext(s, attempt); !HoldsOnly(t, t.writers[attempt], attempt)
  {
    hide ProcsOk, AgentsOk, OneSupervisor, StarterOk;
    var i := s.fs.names[Output];
    var bytes := s.fs.inodes[i].bytes;
    assert Claimed(bytes, s.writers, i);
    assert bytes[0].writer in s.writers;
  }

  lemma Opened(s: State, attempt: Attempt)
    requires Inv(s) && MayOpen(s, attempt)
    ensures var t := OpenNext(s, attempt);
            && t.writers == s.writers[attempt := t.writers[attempt]]
            && t.starter == s.starter && t.attempts == s.attempts && t.agents == s.agents && t.procs == s.procs
            && Has(t.fs, Output) && t.fs.names[Output] == t.writers[attempt]
            && (Output in s.fs.names ==> t.writers[attempt] == s.fs.names[Output])
  {
  }

  /** Exactly when a late agent's file stays its own. In any reachable directory, an agent that opens its
      output now will, whatever follows, share it with no other attempt iff that file is empty, no living agent
      holds it or has still to open its output, no supervisor has still to start its agent, and no start under
      way is past moving the output aside. */
  lemma {:induction false} LateOpenApartIff(s: State, labels: seq<Label>, late: Attempt)
    requires Fresh(s) && MayOpen(Run(s, labels), late)
    ensures var r := Run(s, labels);
            var t := OpenNext(r, late);
            && late in t.writers
            && (Safe(r, late) <==> forall more :: HoldsOnly(Run(t, more), t.writers[late], late))
  {
    FreshInv(s);
    RunInv(s, labels);
    var r := Run(s, labels);
    var t := OpenNext(r, late);
    Opened(r, late);
    if Safe(r, late) {
      SafeOwns(r, late);
      OpenInv(r, late);
      forall more ensures HoldsOnly(Run(t, more), t.writers[late], late) {
        OwnsRun(t, more, t.writers[late], late);
      }
    } else {
      var more := UnsafeSpoils(r, late);
    }
  }

  lemma HeldNotClear(s: State, holder: Attempt)
    requires holder in s.agents && holder in s.writers && Has(s.fs, Output) && s.writers[holder] == s.fs.names[Output]
    ensures !Clear(s)
  {
  }

  /** And it does happen, in both ways: the first attempt's supervisor dies before its agent opened the
      output, and the second is up, its own agent having opened its output or not. */
  lemma {:induction false} LateOpenUnsafe(s: State) returns (before: seq<Label>, behind: seq<Label>)
    requires Fresh(s) && s.procs == map[] && s.used == {}
    ensures var r := Run(s, before);
            MayOpen(r, 0) && MayOpen(r, 1) && LivePublished(r.procs, 7) && r.procs[7].attempt == 1 && !Safe(r, 0)
    ensures var r := Run(s, behind);
            MayOpen(r, 0) && 1 in r.writers && LivePublished(r.procs, 7) && r.procs[7].attempt == 1 && !Safe(r, 0)
  {
    hide Run, Inv, Fresh, OpenNext, Clear, AllForked;
    var first;
    first, before := TwoAttempts(s, 7);
    behind := before + [OpenOutput(1)];
    RunThen(s, before, OpenOutput(1));
    Opened(Run(s, before), 1);
    HeldNotClear(Run(s, behind), 1);
  }

  lemma NoWritersClear(s: State)
    requires Inv(s) && s.writers == map[] && Has(s.fs, Output)
    ensures FileAt(s.fs, Output) == Log([])
  {
    var bytes := FileAt(s.fs, Output).bytes;
    assert Claimed(bytes, s.writers, s.fs.names[Output]);
    if bytes != [] { NoneClaims(bytes, s.fs.names[Output]); }
  }

  lemma NoneClaims(bytes: seq<Tagged>, i: Inode)
    requires bytes != []
    ensures !Claimed(bytes, map[], i)
  {
    assert bytes[0].writer == bytes[0].writer;
  }

  lemma {:induction false} RestartedFirst(s: State) returns (labels: seq<Label>)
    requires Fresh(s) && s.procs == map[] && s.used == {}
    ensures var r := Run(s, labels);
            && Inv(r) && r.procs == map[] && r.used == {Ident(5, 1)} && r.attempts == 1
            && r.agents == {} && r.writers == map[] && Quiet(r.starter)
  {
    FreshInv(s);
    NoProcs(s);
    hide Next, Inv, Run, RunPid;
    var first := AttemptComesUp(s, Ident(5, 1));
    Restarted(Run(s, first));
    RunAppend(s, first, [PodRestart]);
    labels := first + [PodRestart];
  }

  /** A first attempt that a pod restart ends, agent and all, and a second one that comes up. */
  lemma {:induction false} RestartedAttempt(s: State) returns (labels: seq<Label>)
    requires Fresh(s) && s.procs == map[] && s.used == {}
    ensures var r := Run(s, labels);
            && Inv(r) && r.starter == Started(7) && r.procs.Keys == {7} && LivePublished(r.procs, 7)
            && r.procs[7].attempt == 1 && r.agents == {1} && r.writers == map[]
  {
    hide Next, Inv, Run, Fresh, RunPid;
    var first := RestartedFirst(s);
    NoProcs(Run(s, first));
    var more := AttemptComesUp(Run(s, first), Ident(7, 2));
    RunAppend(s, first, more);
    labels := first + more;
  }

  /** So does the other: after a pod restart, which ended the first attempt's agent before it opened its
      output, the second attempt's is safe. */
  lemma {:induction false} LateOpenSafe(s: State) returns (labels: seq<Label>)
    requires Fresh(s) && s.procs == map[] && s.used == {}
    ensures var r := Run(s, labels);
            MayOpen(r, 1) && LivePublished(r.procs, 7) && r.procs[7].attempt == 1 && Safe(r, 1)
  {
    labels := RestartedAttempt(s);
    hide Run, Fresh;
    var r := Run(s, labels);
    ClearNow(r);
    hide Clear, Inv;
    OnlyPublished(r.procs, 7);
    hide AllForked;
  }

  lemma OnlyPublished(procs: Procs, pid: nat)
    requires procs.Keys == {pid} && LivePublished(procs, pid)
    ensures AllForked(procs)
  {
  }

  lemma {:induction false} Restarted(s: State)
    requires Inv(s)
    ensures var r := Run(s, [PodRestart]); Inv(r) && r == s.(procs := map[], agents := {}, starter := Idle)
  {
    RunThen(s, [], PodRestart);
    NextInv(s, PodRestart);
    assert [] + [PodRestart] == [PodRestart];
  }

  lemma ClearNow(s: State)
    requires Inv(s) && s.writers == map[]
    ensures Clear(s)
  {
    if Has(s.fs, Output) { NoWritersClear(s); }
  }
}
