/** What an output file holds, byte for byte (packages/container-runtime/src/run-protocol.ts:158, 206-216,
    236-255): with agents that open their output while their supervisor lives, what they and their stragglers
    wrote to it, all of it, once and in order. */
module RunBytes {
  import opened RunSpec
  import opened RunDirectory
  import opened RunSupervisors
  import opened RunOutput
  import opened RunLateOpen

  /** The bytes an attempt's agent writes in a run, once it has its output open. */
  function AgentWrites(s: State, labels: seq<Label>, attempt: Attempt): seq<Byte>
    decreases |labels|
  {
    if labels == [] then []
    else WritesNow(s, labels[0], attempt) + AgentWrites(Next(s, labels[0]), labels[1..], attempt)
  }

  function WritesNow(s: State, l: Label, attempt: Attempt): seq<Byte> {
    if l.Write? && l.attempt == attempt && attempt in s.agents && attempt in s.writers then l.bytes else []
  }

  /** The attempt's output file, once its agent opened it. */
  function OutputOf(s: State, attempt: Attempt): seq<Tagged>
    requires Inv(s)
  {
    if attempt in s.writers then s.fs.inodes[s.writers[attempt]].bytes else []
  }

  lemma StartSpares(s: State, i: Inode)
    requires Inv(s) && Files(s) && i < |s.fs.inodes| && s.fs.inodes[i].Log?
    ensures Spared(s.fs, StartNext(s).fs, i)
  {
    StartShape(s);
    hide StartNext, BytesOk, ProcsOk, OneSupervisor, AgentsOk, StarterOk;
    if s.starter.Creating? && s.starter.j < |CREATED_FILES| {
      var j := s.starter.j;
      var name, file := CREATED_FILES[j], Contents(CREATED_FILES[j]);
      Ranks(j);
      ContentsFit(j);
      RedirectOk(s.fs, name, file);
      RedirectSpares(s.fs, Redirect(s.fs, name, file), name, file, i);
    }
  }

  lemma SupSpares(s: State, pid: nat, i: Inode)
    requires Inv(s) && i < |s.fs.inodes| && s.fs.inodes[i].Log?
    ensures Spared(s.fs, SupNext(s, pid).fs, i)
  {
    hide BytesOk, ProcsOk, OneSupervisor, StarterOk, AgentsOk;
    if LiveSup(s.procs, pid) && s.procs[pid].phase.Forked? {
      var id := Ident(pid, s.procs[pid].start);
      RedirectOk(s.fs, PidTmp, PidRecord(id));
      RedirectSpares(s.fs, Redirect(s.fs, PidTmp, PidRecord(id)), PidTmp, PidRecord(id), i);
    }
  }

  lemma ExitSpares(s: State, i: Inode)
    requires Inv(s) && i < |s.fs.inodes| && s.fs.inodes[i].Log?
    ensures Spared(s.fs, Redirect(s.fs, ExitFile, Plain), i)
  {
    RedirectOk(s.fs, ExitFile, Plain);
    RedirectSpares(s.fs, Redirect(s.fs, ExitFile, Plain), ExitFile, Plain, i);
  }

  /** A step that is no write leaves the files that agents hold as they were. */
  lemma {:induction false} StepSpares(s: State, l: Label, i: Inode)
    requires Inv(s) && Files(s) && !l.Write? && !l.OpenOutput? && i < |s.fs.inodes| && s.fs.inodes[i].Log?
    ensures Spared(s.fs, Next(s, l).fs, i) && Next(s, l).writers == s.writers
  {
    hide Inv, Files, Redirect, RunPid, NoneUnpublished, Quiet;
    match l {
      case StartStep => StartSpares(s, i);
      case SupStep(pid) => SupSpares(s, pid, i);
      case RecordExit(pid) => ExitSpares(s, i);
      case _ =>
    }
  }

  lemma OpenOutputs(s: State, other: Attempt, attempt: Attempt)
    requires Inv(s) && Files(s) && OnTimeStep(s, OpenOutput(other)) && Inv(OpenNext(s, other))
    ensures OutputOf(OpenNext(s, other), attempt) == OutputOf(s, attempt)
    ensures attempt in s.writers ==> attempt in OpenNext(s, other).writers
  {
    if other in s.agents && other !in s.writers {
      var p :| LiveSup(s.procs, p) && s.procs[p].attempt == other;
      assert Unclaimed(s.fs, s.writers);
      var i := s.fs.names[Output];
      assert Claimed(s.fs.inodes[i].bytes, s.writers, i);
      if s.fs.inodes[i].bytes != [] { SomeHolds(s.fs.inodes[i].bytes, s.writers, i); }
    }
  }

  lemma SomeHolds(bytes: seq<Tagged>, writers: Writers, i: Inode)
    requires Claimed(bytes, writers, i) && bytes != []
    ensures exists a :: a in writers && writers[a] == i
  {
    assert bytes[0].writer in writers;
  }

  lemma WriteOutputs(s: State, other: Attempt, bytes: seq<Byte>, attempt: Attempt)
    requires Inv(s) && Files(s) && Inv(WriteNext(s, other, bytes))
    ensures OutputOf(WriteNext(s, other, bytes), attempt) ==
            OutputOf(s, attempt) + TagAll(attempt, WritesNow(s, Write(other, bytes), attempt))
  {
    hide NamesOk, ProcsOk, OneSupervisor, AgentsOk, StarterOk;
    if attempt != other {
      assert TagAll(attempt, []) == [];
    }
  }

  lemma {:induction false} OutputsNext(s: State, l: Label, attempt: Attempt)
    requires Inv(s) && Files(s) && OnTimeStep(s, l) && Inv(Next(s, l))
    ensures OutputOf(Next(s, l), attempt) == OutputOf(s, attempt) + TagAll(attempt, WritesNow(s, l, attempt))
  {
    assert TagAll(attempt, []) == [];
    match l {
      case Write(other, bytes) => WriteOutputs(s, other, bytes, attempt);
      case OpenOutput(other) => OpenOutputs(s, other, attempt);
      case _ => SparedOutput(s, l, attempt);
    }
  }

  lemma SparedOutput(s: State, l: Label, attempt: Attempt)
    requires Inv(s) && Files(s) && !l.Write? && !l.OpenOutput? && Inv(Next(s, l))
    ensures OutputOf(Next(s, l), attempt) == OutputOf(s, attempt)
  {
    hide Next, Files, NamesOk, ProcsOk, OneSupervisor, AgentsOk, StarterOk;
    if attempt in s.writers {
      StepSpares(s, l, s.writers[attempt]);
    } else {
      StepWriters(s, l);
    }
  }

  lemma StepWriters(s: State, l: Label)
    requires !l.OpenOutput?
    ensures Next(s, l).writers == s.writers
  {
    hide Redirect, RunPid, RenamePid, AppendTo, NoneUnpublished;
  }

  lemma TagAppend(attempt: Attempt, a: seq<Byte>, b: seq<Byte>)
    ensures TagAll(attempt, a + b) == TagAll(attempt, a) + TagAll(attempt, b)
  {
  }

  lemma {:induction false} OutputsRun(s: State, labels: seq<Label>, attempt: Attempt)
    requires Inv(s) && Files(s) && OnTime(s, labels)
    ensures Inv(Run(s, labels))
    ensures OutputOf(Run(s, labels), attempt) == OutputOf(s, attempt) + TagAll(attempt, AgentWrites(s, labels, attempt))
    decreases |labels|
  {
    hide Inv, Files, Next, OnTimeStep, OutputOf, WritesNow;
    RunInv(s, labels);
    if labels == [] {
      assert TagAll(attempt, []) == [];
    } else {
      var s1, now := Next(s, labels[0]), WritesNow(s, labels[0], attempt);
      NextInv(s, labels[0]);
      FilesNext(s, labels[0]);
      OutputsNext(s, labels[0], attempt);
      OutputsRun(s1, labels[1..], attempt);
      var rest := AgentWrites(s1, labels[1..], attempt);
      TagAppend(attempt, now, rest);
    }
  }

  /** These bytes, by that writer. */
  ghost predicate Holds(file: seq<Tagged>, writer: Attempt, bytes: seq<Byte>) {
    |file| == |bytes| && forall k :: 0 <= k < |bytes| ==> file[k] == Tagged(writer, bytes[k])
  }

  /** An attempt's output file holds exactly what its agent wrote to it: every byte, once and in order, over
      starts, exits, restarts and whatever other attempts do. */
  lemma {:induction false} OutputIsWritten(s: State, labels: seq<Label>, attempt: Attempt)
    requires Fresh(s) && OnTime(s, labels) && attempt in Run(s, labels).writers
    ensures var r := Run(s, labels);
            && r.writers[attempt] < |r.fs.inodes|
            && r.fs.inodes[r.writers[attempt]].Log?
            && Holds(r.fs.inodes[r.writers[attempt]].bytes, attempt, AgentWrites(s, labels, attempt))
  {
    FreshFiles(s);
    OutputsRun(s, labels, attempt);
    hide AgentWrites, OnTime, Run;
  }
}
