/** Whose bytes an output file holds (packages/container-runtime/src/run-protocol.ts:158, 206-216, 236-255;
    packages/container-runtime/src/fake.ts:420-434, 481-512): with agents that open their output while their
    supervisor lives, one attempt's; and exactly when for an agent that opens it later. */
module RunOutput {
  import opened RunSpec
  import opened RunDirectory
  import opened RunSupervisors

  // ---- Outputs opened on time ----

  /** The output is there, and no agent holds it yet. */
  ghost predicate Unclaimed(fs: Fs, writers: Writers) {
    Output in fs.names && forall a :: a in writers ==> writers[a] != fs.names[Output]
  }

  /** The output the name leads to is the attempt's, or nobody's until its agent opens it. */
  ghost predicate OwnOutput(fs: Fs, writers: Writers, attempt: Attempt) {
    if attempt in writers then Output in fs.names && writers[attempt] == fs.names[Output] else Unclaimed(fs, writers)
  }

  ghost predicate OutputOk(starter: Starter, fs: Fs, procs: Procs, writers: Writers) {
    && (forall p :: LiveSup(procs, p) ==> OwnOutput(fs, writers, procs[p].attempt))
    && (starter.Moving? && starter.i > MoveRank(Output) ==> Output !in fs.names)
    && (starter.Creating? ==> if starter.j <= CreateRank(Output) then Output !in fs.names else Unclaimed(fs, writers))
    && (starter.Launching? ==> Unclaimed(fs, writers))
  }

  ghost predicate WritersApart(writers: Writers) {
    forall a, b :: a in writers && b in writers && a != b ==> writers[a] != writers[b]
  }

  /** A reader's stream is its inode's bytes from where it started to where it stands. */
  ghost predicate ReadersOk(fs: Fs, readers: Readers) {
    forall r :: r in readers ==>
      && readers[r].inode < |fs.inodes| && fs.inodes[readers[r].inode].Log?
      && Delivered(fs.inodes[readers[r].inode].bytes, readers[r].from, readers[r].offset, readers[r].sent)
  }

  ghost predicate Files(s: State) {
    && WritersApart(s.writers) && ReadersOk(s.fs, s.readers)
    && OutputOk(s.starter, s.fs, s.procs, s.writers)
  }

  /** No step opens an output for an agent whose supervisor is gone. */
  ghost predicate OnTimeStep(s: State, l: Label) {
    l.OpenOutput? && l.attempt in s.agents && l.attempt !in s.writers ==>
      exists p :: LiveSup(s.procs, p) && s.procs[p].attempt == l.attempt
  }

  ghost predicate OnTime(s: State, labels: seq<Label>)
    decreases |labels|
  {
    labels == [] || (OnTimeStep(s, labels[0]) && OnTime(Next(s, labels[0]), labels[1..]))
  }

  /** Outputs keep their names, if those stay, and their bytes, which only become more. */
  ghost predicate OutputsKept(fs: Fs, r: Fs) {
    && |fs.inodes| <= |r.inodes|
    && (forall i :: 0 <= i < |fs.inodes| && fs.inodes[i].Log? ==>
          r.inodes[i].Log? && fs.inodes[i].bytes <= r.inodes[i].bytes)
  }

  lemma ReadersKept(fs: Fs, r: Fs, readers: Readers)
    requires ReadersOk(fs, readers) && OutputsKept(fs, r)
    ensures ReadersOk(r, readers)
  {
    forall id | id in readers
      ensures readers[id].inode < |r.inodes| && r.inodes[readers[id].inode].Log?
      ensures Delivered(r.inodes[readers[id].inode].bytes, readers[id].from, readers[id].offset, readers[id].sent)
    {
      var rd := readers[id];
      var before, after := fs.inodes[rd.inode].bytes, r.inodes[rd.inode].bytes;
      DeliveredGrows(before, after[|before|..], rd.from, rd.offset, rd.sent);
      assert before + after[|before|..] == after;
    }
  }

  /** A redirection to anything but an output that is there. */
  lemma RedirectKept(fs: Fs, r: Fs, name: Name, file: File)
    requires NamesOk(fs) && Redirected(fs, r, name, file) && (name == Output ==> name !in fs.names)
    ensures OutputsKept(fs, r)
  {
  }

  lemma SameOutput(st: Starter, fs: Fs, r: Fs, procs: Procs, procs': Procs, writers: Writers)
    requires OutputOk(st, fs, procs, writers)
    requires forall p :: LiveSup(procs', p) ==> LiveSup(procs, p) && procs'[p].attempt == procs[p].attempt
    requires Output in r.names <==> Output in fs.names
    requires Output in fs.names ==> r.names[Output] == fs.names[Output]
    ensures OutputOk(st, r, procs', writers)
  {
  }

  lemma MovingFiles(s: State)
    requires Inv(s) && Files(s) && s.starter.Moving?
    ensures Files(StartNext(s)) && OutputsKept(s.fs, StartNext(s).fs)
  {
    StartShape(s);
    hide StartNext, NamesOk, BytesOk, ProcsOk, OneSupervisor;
    var i := s.starter.i;
    Ranks(i);
    ReadersKept(s.fs, StartNext(s).fs, s.readers);
  }

  lemma CreatingFiles(s: State)
    requires Inv(s) && Files(s) && s.starter.Creating?
    ensures Files(StartNext(s)) && OutputsKept(s.fs, StartNext(s).fs)
  {
    StartShape(s);
    hide StartNext, NamesOk, BytesOk, ProcsOk, OneSupervisor, Redirect;
    var j := s.starter.j;
    if j < |CREATED_FILES| {
      var name, file := CREATED_FILES[j], Contents(CREATED_FILES[j]);
      Ranks(j);
      ContentsFit(j);
      RedirectOk(s.fs, name, file);
      RedirectKept(s.fs, Redirect(s.fs, name, file), name, file);
      ReadersKept(s.fs, Redirect(s.fs, name, file), s.readers);
      CreatedOutput(s.fs, Redirect(s.fs, name, file), s.procs, s.writers, s.attempts, j);
    }
  }

  lemma CreatedOutput(fs: Fs, r: Fs, procs: Procs, writers: Writers, attempts: nat, j: nat)
    requires j < |CREATED_FILES| && NoSup(procs) && BytesOk(fs, writers, attempts)
    requires OutputOk(Creating(j), fs, procs, writers)
    requires r.names.Keys == fs.names.Keys + {CREATED_FILES[j]}
    requires forall n :: n in fs.names ==> r.names[n] == fs.names[n]
    requires CREATED_FILES[j] !in fs.names ==> r.names[CREATED_FILES[j]] == |fs.inodes|
    ensures OutputOk(Creating(j + 1), r, procs, writers)
  {
    Ranks(j);
  }

  lemma StartFiles(s: State)
    requires Inv(s) && Files(s)
    ensures Files(StartNext(s)) && OutputsKept(s.fs, StartNext(s).fs)
  {
    if s.starter.Moving? {
      MovingFiles(s);
    } else if s.starter.Creating? {
      CreatingFiles(s);
    } else {
      StartShape(s);
      StopsShort(s);
    }
  }

  lemma StopsShort(s: State)
    requires !s.starter.Moving? && !s.starter.Creating?
    ensures var st := StartNext(s).starter;
            !st.Creating? && (st.Launching? ==> s.starter.Launching?) && (st.Moving? ==> st.i == 0)
  {
  }

  lemma LaunchFiles(s: State, id: Ident)
    requires Inv(s) && Files(s)
    ensures Files(LaunchNext(s, id))
  {
    var r := LaunchNext(s, id);
    if r != s {
      forall p: nat | p != id.pid ensures !LiveSup(r.procs, p) {
        assert !LiveSup(s.procs, p);
      }
    }
  }

  lemma SupFiles(s: State, pid: nat)
    requires Inv(s) && Files(s)
    ensures Files(SupNext(s, pid)) && OutputsKept(s.fs, SupNext(s, pid).fs)
  {
    if LiveSup(s.procs, pid) {
      var r := SupNext(s, pid);
      SupFs(s, pid);
      hide SupNext, NamesOk, BytesOk, ProcsOk, OneSupervisor, StarterOk;
      ReadersKept(s.fs, r.fs, s.readers);
      SameOutput(s.starter, s.fs, r.fs, s.procs, r.procs, s.writers);
    }
  }

  lemma SupFs(s: State, pid: nat)
    requires Inv(s) && LiveSup(s.procs, pid)
    ensures var r := SupNext(s, pid);
            && OutputsKept(s.fs, r.fs)
            && (Output in r.fs.names <==> Output in s.fs.names)
            && (Output in s.fs.names ==> r.fs.names[Output] == s.fs.names[Output])
            && r == s.(fs := r.fs, agents := r.agents,
                       procs := s.procs[pid := s.procs[pid].(phase := After(s.procs[pid].phase))])
  {
    hide BytesOk, ProcsOk, StarterOk;
    var id := Ident(pid, s.procs[pid].start);
    if s.procs[pid].phase.Forked? {
      RedirectOk(s.fs, PidTmp, PidRecord(id));
      RedirectKept(s.fs, Redirect(s.fs, PidTmp, PidRecord(id)), PidTmp, PidRecord(id));
    }
  }

  lemma RecordExitFiles(s: State)
    requires Inv(s) && Files(s)
    ensures var r := s.(fs := Redirect(s.fs, ExitFile, Plain)); Files(r) && OutputsKept(s.fs, r.fs)
  {
    hide BytesOk, ProcsOk, OneSupervisor, StarterOk;
    var r := Redirect(s.fs, ExitFile, Plain);
    RedirectOk(s.fs, ExitFile, Plain);
    RedirectKept(s.fs, r, ExitFile, Plain);
    ReadersKept(s.fs, r, s.readers);
    SameOutput(s.starter, s.fs, r, s.procs, s.procs, s.writers);
  }

  lemma WriteFiles(s: State, attempt: Attempt, bytes: seq<Byte>)
    requires Inv(s) && Files(s)
    ensures Files(WriteNext(s, attempt, bytes)) && OutputsKept(s.fs, WriteNext(s, attempt, bytes).fs)
  {
    hide BytesOk, ProcsOk, OneSupervisor, StarterOk, NamesOk;
    var r := WriteNext(s, attempt, bytes);
    assert OutputsKept(s.fs, r.fs) && r.fs.names == s.fs.names;
    ReadersKept(s.fs, r.fs, s.readers);
  }

  lemma OpenFiles(s: State, attempt: Attempt)
    requires Inv(s) && Files(s) && OnTimeStep(s, OpenOutput(attempt))
    ensures Files(OpenNext(s, attempt)) && OutputsKept(s.fs, OpenNext(s, attempt).fs)
  {
    if attempt in s.agents && attempt !in s.writers {
      var p :| LiveSup(s.procs, p) && s.procs[p].attempt == attempt;
      assert Unclaimed(s.fs, s.writers);
      assert forall q :: LiveSup(s.procs, q) ==> q == p;
    }
  }

  lemma ReaderFiles(s: State, l: Label)
    requires Inv(s) && Files(s) && (l.OpenReader? || l.ReadMore?)
    ensures Files(Next(s, l)) && Next(s, l).fs == s.fs
  {
    hide BytesOk, ProcsOk, OneSupervisor, StarterOk, OutputOk, ReadersOk;
    if l.OpenReader? { OpenedReaders(s, l.reader, l.from); } else { MoreReaders(s, l.reader, l.n); }
  }

  lemma OpenedReaders(s: State, reader: nat, from: nat)
    requires NamesOk(s.fs) && ReadersOk(s.fs, s.readers)
    ensures ReadersOk(s.fs, OpenReaderNext(s, reader, from).readers)
  {
  }

  lemma MoreReaders(s: State, reader: nat, n: nat)
    requires ReadersOk(s.fs, s.readers)
    ensures ReadersOk(s.fs, ReadNext(s, reader, n).readers)
  {
    if reader in s.readers && s.readers[reader].offset + n <= |s.fs.inodes[s.readers[reader].inode].bytes| {
      var rd := s.readers[reader];
      var bytes := s.fs.inodes[rd.inode].bytes;
      MoreDelivered(bytes, rd.from, rd.offset, n, rd.sent);
      hide Delivered;
      assert ReadNext(s, reader, n).readers ==
             s.readers[reader := rd.(offset := rd.offset + n, sent := rd.sent + bytes[rd.offset..rd.offset + n])];
    }
  }

  lemma MoreDelivered(bytes: seq<Tagged>, from: nat, to: nat, n: nat, sent: seq<Tagged>)
    requires Delivered(bytes, from, to, sent) && to + n <= |bytes|
    ensures Delivered(bytes, from, to + n, sent + bytes[to..to + n])
  {
    assert bytes[from..to] + bytes[to..to + n] == bytes[from..to + n];
  }

  lemma ProcFiles(s: State, l: Label)
    requires Inv(s) && Files(s)
    requires l.Begin? || l.Abort? || l.TimeUp? || l.AgentDies? || l.Spawn? || l.Die? || l.Reap? || l.PodRestart?
    ensures Files(Next(s, l)) && Next(s, l).fs == s.fs
  {
    hide NamesOk, BytesOk, ProcsOk, OneSupervisor, StarterOk;
    if l.AgentDies? || l.Spawn? || l.Die? || l.Reap? || l.PodRestart? {
      ProcFewer(s, l);
    }
  }

  lemma {:induction false} FilesNext(s: State, l: Label)
    requires Inv(s) && Files(s) && OnTimeStep(s, l)
    ensures Files(Next(s, l)) && OutputsKept(s.fs, Next(s, l).fs)
  {
    hide Inv, Files, StartNext, LaunchNext, SupNext, OpenNext, WriteNext, OpenReaderNext, ReadNext, ProcNext;
    match l {
      case StartStep => StartFiles(s);
      case Launch(id) => LaunchFiles(s, id); SameFs(s, id);
      case SupStep(pid) => SupFiles(s, pid);
      case RecordExit(pid) => if LiveSup(s.procs, pid) { RecordExitFiles(s); }
      case OpenOutput(attempt) => OpenFiles(s, attempt);
      case Write(attempt, bytes) => WriteFiles(s, attempt, bytes);
      case OpenReader(_, _) => ReaderFiles(s, l);
      case ReadMore(_, _) => ReaderFiles(s, l);
      case _ => ProcFiles(s, l);
    }
  }

  lemma SameFs(s: State, id: Ident)
    ensures LaunchNext(s, id).fs == s.fs
  {
  }

  lemma {:induction false} FilesRun(s: State, labels: seq<Label>)
    requires Inv(s) && Files(s) && OnTime(s, labels)
    ensures Inv(Run(s, labels)) && Files(Run(s, labels))
    decreases |labels|
  {
    hide Inv, Files, Next, OnTimeStep;
    if labels != [] {
      NextInv(s, labels[0]);
      FilesNext(s, labels[0]);
      FilesRun(Next(s, labels[0]), labels[1..]);
    }
  }

  /** A supervisor that records its agent's exit leaves an exit file, and the outputs as they are. */
  lemma ExitRecorded(s: State, pid: nat)
    requires Inv(s) && LiveSup(s.procs, pid)
    ensures var r := Next(s, RecordExit(pid));
            && ExitFile in r.fs.names && OutputsKept(s.fs, r.fs)
            && (forall n :: n in s.fs.names ==> n in r.fs.names && r.fs.names[n] == s.fs.names[n])
  {
    RedirectOk(s.fs, ExitFile, Plain);
    RedirectKept(s.fs, Redirect(s.fs, ExitFile, Plain), ExitFile, Plain);
    hide Redirect, NamesOk;
  }

  lemma ReadIs(s: State, reader: nat, n: nat)
    requires ReadersOk(s.fs, s.readers) && reader in s.readers
    ensures var rd := s.readers[reader];
            rd.inode < |s.fs.inodes| && s.fs.inodes[rd.inode].Log? &&
            var bytes := s.fs.inodes[rd.inode].bytes;
            rd.offset + n <= |bytes| ==>
              reader in Next(s, ReadMore(reader, n)).readers &&
              Next(s, ReadMore(reader, n)).readers[reader].sent == rd.sent + bytes[rd.offset..rd.offset + n]
  {
    hide Delivered;
  }

  lemma RestDelivered(bytes: seq<Tagged>, from: nat, offset: nat, sent: seq<Tagged>)
    requires Delivered(bytes, from, offset, sent)
    ensures offset <= |bytes| ==> sent + bytes[offset..|bytes|] == Tail(bytes, from)
    ensures offset > |bytes| ==> sent == Tail(bytes, from)
  {
    if offset <= |bytes| {
      assert bytes[from..offset] + bytes[offset..] == bytes[from..] && bytes[offset..|bytes|] == bytes[offset..];
    }
  }

  /** Attachments catch up: one read of what is left gives one everything its file holds from its start on. */
  lemma {:induction false} ReaderCatchesUp(s: State, reader: nat)
    requires ReadersOk(s.fs, s.readers) && reader in s.readers
    ensures var rd := s.readers[reader];
            rd.inode < |s.fs.inodes| && s.fs.inodes[rd.inode].Log? &&
            var bytes := s.fs.inodes[rd.inode].bytes;
            if rd.offset > |bytes| then rd.sent == Tail(bytes, rd.from)
            else reader in Next(s, ReadMore(reader, |bytes| - rd.offset)).readers &&
                 Next(s, ReadMore(reader, |bytes| - rd.offset)).readers[reader].sent == Tail(bytes, rd.from)
  {
    var rd := s.readers[reader];
    var bytes := s.fs.inodes[rd.inode].bytes;
    RestDelivered(bytes, rd.from, rd.offset, rd.sent);
    if rd.offset <= |bytes| { ReadIs(s, reader, |bytes| - rd.offset); }
    hide Delivered, Tail, Next;
  }

  /** And a new one gets the file that the output's name leads to, from the offset asked for: after opening,
      and one read when the file reaches that far, all of it from there. */
  lemma {:induction false} AttachGetsAll(s: State, reader: nat, from: nat)
    requires Inv(s) && Files(s) && Output in s.fs.names && reader !in s.readers
    ensures Has(s.fs, Output) && FileAt(s.fs, Output).Log? &&
            var bytes := FileAt(s.fs, Output).bytes;
            var begun := Next(s, OpenReader(reader, from));
            var r := if from <= |bytes| then Next(begun, ReadMore(reader, |bytes| - from)) else begun;
            && reader in r.readers && r.readers[reader].inode == s.fs.names[Output]
            && r.readers[reader].sent == Tail(bytes, from)
  {
    var begun := Next(s, OpenReader(reader, from));
    OpenedReaders(s, reader, from);
    OpenIs(s, reader, from);
    ReaderCatchesUp(begun, reader);
    if from <= |begun.fs.inodes[s.fs.names[Output]].bytes| {
      SameFile(begun, reader, |begun.fs.inodes[s.fs.names[Output]].bytes| - from);
    }
    hide Next, Tail, BytesOk, ProcsOk, AgentsOk, OneSupervisor, StarterOk, ReadersOk;
  }

  lemma OpenIs(s: State, reader: nat, from: nat)
    requires Inv(s) && Files(s) && Output in s.fs.names && reader !in s.readers
    ensures Next(s, OpenReader(reader, from)) ==
            s.(readers := s.readers[reader := Reader(s.fs.names[Output], from, from, [])])
    ensures Has(s.fs, Output) && FileAt(s.fs, Output).Log?
  {
  }

  lemma SameFile(s: State, reader: nat, n: nat)
    requires reader in s.readers
    ensures reader in Next(s, ReadMore(reader, n)).readers
    ensures Next(s, ReadMore(reader, n)).readers[reader].inode == s.readers[reader].inode
  {
  }

  // ---- Main results, for outputs opened on time ----

  ghost predicate OneWriter(bytes: seq<Tagged>) {
    forall j, k :: 0 <= j < |bytes| && 0 <= k < |bytes| ==> bytes[j].writer == bytes[k].writer
  }

  lemma FreshFiles(s: State)
    requires Fresh(s)
    ensures Inv(s) && Files(s)
  {
  }

  /** Bytes of two attempts never mix: each output inode holds one attempt's bytes, and each attachment's
      stream is a segment of one of them. */
  lemma {:induction false} BytesNeverMix(s: State, labels: seq<Label>)
    requires Fresh(s) && OnTime(s, labels)
    ensures var r := Run(s, labels);
            && (forall i :: 0 <= i < |r.fs.inodes| && r.fs.inodes[i].Log? ==> OneWriter(r.fs.inodes[i].bytes))
            && ReadersOk(r.fs, r.readers)
            && (forall id :: id in r.readers ==> OneWriter(r.readers[id].sent))
  {
    FreshFiles(s);
    FilesRun(s, labels);
    var r := Run(s, labels);
    forall i | 0 <= i < |r.fs.inodes| && r.fs.inodes[i].Log? ensures OneWriter(r.fs.inodes[i].bytes) {
      var bytes := r.fs.inodes[i].bytes;
      assert Claimed(bytes, r.writers, i);
      forall j, k | 0 <= j < |bytes| && 0 <= k < |bytes| ensures bytes[j].writer == bytes[k].writer {
        assert r.writers[bytes[j].writer] == i && r.writers[bytes[k].writer] == i;
      }
    }
  }

  /** No output is ever truncated or rewritten, by whatever follows: a start moves files aside. */
  lemma {:induction false} OutputOnlyGrows(s: State, labels: seq<Label>)
    requires Inv(s) && Files(s) && OnTime(s, labels)
    ensures OutputsKept(s.fs, Run(s, labels).fs)
    decreases |labels|
  {
    hide Inv, Files, Next, OnTimeStep;
    if labels != [] {
      NextInv(s, labels[0]);
      FilesNext(s, labels[0]);
      OutputOnlyGrows(Next(s, labels[0]), labels[1..]);
    }
  }

  /** While an attempt's supervisor lives, its agent's descriptor and the output's name lead to one file, so
      an agent that appends by name, as the fake's does, appends where one with a descriptor would. */
  lemma {:induction false} NameIsDescriptor(s: State, labels: seq<Label>, p: nat)
    requires Fresh(s) && OnTime(s, labels)
    requires LiveSup(Run(s, labels).procs, p) && Run(s, labels).procs[p].attempt in Run(s, labels).writers
    ensures var r := Run(s, labels); Output in r.fs.names && r.fs.names[Output] == r.writers[r.procs[p].attempt]
  {
    FreshFiles(s);
    FilesRun(s, labels);
    assert OwnOutput(Run(s, labels).fs, Run(s, labels).writers, Run(s, labels).procs[p].attempt);
  }

  function ReaderLegs(readers: Readers, ids: seq<nat>): seq<Leg<Tagged>>
    requires forall i :: 0 <= i < |ids| ==> ids[i] in readers
  {
    seq(|ids|, i requires 0 <= i < |ids| =>
      var rd := readers[ids[i]]; Leg(rd.from, rd.offset, rd.sent))
  }

  /** Exactly once across handovers: attachments to one output file, over starts, exits and restarts, that
      each started where the one before it stands, took its bytes once and in order. */
  lemma {:induction false} HandoversExactlyOnce(s: State, labels: seq<Label>, ids: seq<nat>)
    requires Fresh(s) && OnTime(s, labels) && ids != []
    requires var readers := Run(s, labels).readers;
             && ids[0] in readers
             && (forall i :: 0 <= i < |ids| ==> ids[i] in readers && readers[ids[i]].inode == readers[ids[0]].inode)
             && (forall i :: 0 < i < |ids| ==> readers[ids[i]].from == readers[ids[i - 1]].offset)
    ensures var r := Run(s, labels);
            var first, last := r.readers[ids[0]], r.readers[ids[|ids| - 1]];
            && first.inode < |r.fs.inodes| && r.fs.inodes[first.inode].Log?
            && Delivered(r.fs.inodes[first.inode].bytes, first.from, last.offset, LegBytes(ReaderLegs(r.readers, ids)))
  {
    FreshFiles(s);
    FilesRun(s, labels);
    var r := Run(s, labels);
    ChainDelivers(ReaderLegs(r.readers, ids), r.fs.inodes[r.readers[ids[0]].inode].bytes);
  }
}
