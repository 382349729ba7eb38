/** One run directory, one agent: what every run of the directory keeps of supervisors, their pid files and
    the start script (packages/container-runtime/src/run-protocol.ts:129-144, 153-171, 191-262). */
module RunSupervisors {
  import opened RunSpec
  import opened RunDirectory

  // ---- Names and inodes ----

  /** Every name leads to an inode, no two to the same one; outputs are logs, and nothing else is. */
  ghost predicate NamesOk(fs: Fs) {
    && (forall n :: n in fs.names ==> fs.names[n] < |fs.inodes|)
    && (forall n, m :: n in fs.names && m in fs.names && n != m ==> fs.names[n] != fs.names[m])
    && (forall n :: n in fs.names ==> (fs.inodes[fs.names[n]].Log? <==> n == Output))
    && (PidFile in fs.names ==> fs.inodes[fs.names[PidFile]].PidRecord?)
    && (PidTmp in fs.names ==> fs.inodes[fs.names[PidTmp]].PidRecord?)
  }

  predicate Fits(name: Name, file: File) {
    (file.Log? <==> name == Output) && (name in {PidFile, PidTmp} ==> file.PidRecord?)
  }

  /** What a redirection leaves: its file under the name, every other name and inode as it was. */
  ghost predicate Redirected(fs: Fs, r: Fs, name: Name, file: File) {
    && NamesOk(r) && |fs.inodes| <= |r.inodes|
    && r.names.Keys == fs.names.Keys + {name} && r.inodes[r.names[name]] == file
    && (forall n :: n in fs.names ==> r.names[n] == fs.names[n])
    && (name !in fs.names ==> r.names[name] == |fs.inodes|)
    && (forall i :: 0 <= i < |r.inodes| && i != r.names[name] ==> i < |fs.inodes| && r.inodes[i] == fs.inodes[i])
  }

  lemma RedirectOk(fs: Fs, name: Name, file: File)
    requires NamesOk(fs) && Fits(name, file)
    ensures Redirected(fs, Redirect(fs, name, file), name, file)
  {
    if name in fs.names { RedirectOld(fs, name, file); } else { RedirectNew(fs, name, file); }
  }

  lemma RedirectOld(fs: Fs, name: Name, file: File)
    requires NamesOk(fs) && Fits(name, file) && name in fs.names
    ensures Redirected(fs, Redirect(fs, name, file), name, file)
  {
    var r := Redirect(fs, name, file);
    assert r == fs.(inodes := fs.inodes[fs.names[name] := file]);
    forall n | n in r.names && n != name ensures r.inodes[r.names[n]] == fs.inodes[fs.names[n]] {
    }
  }

  lemma RedirectNew(fs: Fs, name: Name, file: File)
    requires NamesOk(fs) && Fits(name, file) && name !in fs.names
    ensures Redirected(fs, Redirect(fs, name, file), name, file)
  {
    hide NamesOk;
    var r := Redirect(fs, name, file);
    NewNames(fs, r, name, file);
    NewInodes(fs.inodes, file);
  }

  lemma NewInodes(inodes: seq<File>, file: File)
    ensures var r := inodes + [file];
            r[|inodes|] == file && forall i :: 0 <= i < |r| && i != |inodes| ==> i < |inodes| && r[i] == inodes[i]
  {
  }

  lemma NewNames(fs: Fs, r: Fs, name: Name, file: File)
    requires NamesOk(fs) && Fits(name, file) && name !in fs.names
    requires r == Fs(fs.names[name := |fs.inodes|], fs.inodes + [file])
    ensures NamesOk(r)
  {
    NewInodes(fs.inodes, file);
    forall n | n in r.names
      ensures r.names[n] < |r.inodes| && (r.inodes[r.names[n]].Log? <==> n == Output)
      ensures r.names[n] == if n == name then |fs.inodes| else fs.names[n]
    {
      if n != name {
        assert n in fs.names && r.inodes[fs.names[n]] == fs.inodes[fs.names[n]];
      }
    }
    forall n, m | n in r.names && m in r.names && n != m ensures r.names[n] != r.names[m] {
      if n != name && m != name {
        assert n in fs.names && m in fs.names;
      }
    }
  }

  lemma UnlinkOk(fs: Fs, name: Name)
    requires NamesOk(fs)
    ensures var r := Unlink(fs, name);
            NamesOk(r) && r.inodes == fs.inodes && forall n :: n in r.names ==> n in fs.names && n != name
  {
  }

  lemma RenameOk(fs: Fs)
    requires NamesOk(fs) && PidTmp in fs.names
    ensures var r := RenamePid(fs);
            && NamesOk(r) && r.inodes == fs.inodes && r.names.Keys == fs.names.Keys - {PidTmp} + {PidFile}
            && r.names[PidFile] == fs.names[PidTmp]
            && (forall n :: n in r.names && n != PidFile ==> r.names[n] == fs.names[n])
  {
    var r := RenamePid(fs);
    forall n | n in r.names && n != PidFile ensures n in fs.names && n != PidTmp && r.names[n] == fs.names[n] {
    }
  }

  lemma AppendOk(fs: Fs, inode: Inode, more: seq<Tagged>)
    requires NamesOk(fs)
    ensures var r := AppendTo(fs, inode, more);
            && NamesOk(r) && r.names == fs.names && |r.inodes| == |fs.inodes|
            && (forall i :: 0 <= i < |fs.inodes| && !fs.inodes[i].Log? ==> r.inodes[i] == fs.inodes[i])
  {
  }

  // ---- Who wrote what ----

  /** Bytes all of whose writers write to inode `i`. */
  ghost predicate Claimed(bytes: seq<Tagged>, writers: Writers, i: Inode) {
    forall k :: 0 <= k < |bytes| ==> bytes[k].writer in writers && writers[bytes[k].writer] == i
  }

  ghost predicate BytesOk(fs: Fs, writers: Writers, attempts: nat) {
    && (forall a :: a in writers ==> a < attempts && writers[a] < |fs.inodes| && fs.inodes[writers[a]].Log?)
    && (forall i :: 0 <= i < |fs.inodes| && fs.inodes[i].Log? ==> Claimed(fs.inodes[i].bytes, writers, i))
  }

  /** What became of a file: nothing, or more bytes, by agents that hold it. */
  ghost predicate Grew(before: File, after: File, writers: Writers, i: Inode) {
    || after == before
    || (&& before.Log? && after.Log? && before.bytes <= after.bytes
        && forall k :: |before.bytes| <= k < |after.bytes| ==>
             after.bytes[k].writer in writers && writers[after.bytes[k].writer] == i)
  }

  // ---- Invariants ----

  ghost predicate ProcsOk(procs: Procs, used: set<Ident>, attempts: nat) {
    && (forall pid :: pid in procs ==> Ident(pid, procs[pid].start) in used)
    && (forall pid :: pid in procs && procs[pid].Sup? ==> pid > 1 && procs[pid].attempt < attempts)
  }

  ghost predicate Names(fs: Fs, name: Name, id: Ident) { Has(fs, name) && FileAt(fs, name) == PidRecord(id) }

  /** One live supervisor at most; a published one is what the pid file names. */
  ghost predicate OneSupervisor(fs: Fs, procs: Procs) {
    && (forall p, q :: LiveSup(procs, p) && LiveSup(procs, q) ==> p == q)
    && (forall p :: LiveSup(procs, p) ==> Output in fs.names)
    && (forall p :: LivePublished(procs, p) ==> Names(fs, PidFile, Ident(p, procs[p].start)))
    && (forall p :: LiveSup(procs, p) && procs[p].phase.TmpWritten? ==> Names(fs, PidTmp, Ident(p, procs[p].start)))
  }

  ghost predicate NoSup(procs: Procs) { forall p :: !LiveSup(procs, p) }

  ghost predicate NoSupBut(procs: Procs, prev: Ident) {
    forall p :: LiveSup(procs, p) ==> Ident(p, procs[p].start) == prev
  }

  /** Agents are of attempts that were launched; a supervisor has none, and never had, before it forked. */
  ghost predicate AgentsOk(procs: Procs, attempts: nat, agents: set<Attempt>, writers: Writers) {
    && (forall a :: a in agents ==> a < attempts)
    && (forall p :: LiveSup(procs, p) && procs[p].phase.Launched? ==>
          procs[p].attempt !in agents && procs[p].attempt !in writers)
  }

  /** Every file the directory had is still under its name, and is as it was, but for output that its own
      agents added and the exit file, which a dying supervisor writes. New is at most that exit file, and an
      output that a late agent made where there was none. */
  ghost predicate Untouched(fs: Fs, writers: Writers, was: Fs) {
    && |was.inodes| <= |fs.inodes|
    && (forall n :: n in was.names ==> was.names[n] < |was.inodes|)
    && (forall n :: n in was.names && n != ExitFile ==>
          && n in fs.names && fs.names[n] == was.names[n]
          && Grew(was.inodes[was.names[n]], fs.inodes[was.names[n]], writers, was.names[n]))
    && (forall n :: n in fs.names && n !in was.names ==> n in {ExitFile, Output})
  }

  /** Where a name stands in `ATTEMPT_FILES`. */
  function MoveRank(n: Name): nat {
    match n
    case Agent => 0 case Supervisor => 1 case Stdin => 2 case StdinPipe => 3 case Output => 4
    case Stderr => 5 case PidFile => 6 case PidTmp => 7 case ExitFile => 8
  }

  /** Where a name stands in `CREATED_FILES`; past its end when it is not there. */
  function CreateRank(n: Name): nat {
    match n
    case Agent => 0 case Supervisor => 1 case Output => 2 case Stderr => 3 case Stdin => 4 case StdinPipe => 5
    case PidFile => 6 case PidTmp => 7 case ExitFile => 8
  }

  lemma Ranks(i: nat)
    ensures i < |ATTEMPT_FILES| ==> MoveRank(ATTEMPT_FILES[i]) == i
    ensures i < |CREATED_FILES| ==> CreateRank(CREATED_FILES[i]) == i
  {
  }

  ghost predicate StarterOk(starter: Starter, fs: Fs, procs: Procs, writers: Writers) {
    match starter
    case Look(was) => NoneUnpublished(procs) && Untouched(fs, writers, was)
    case WaitStop(prev, _, _, was) => NoneUnpublished(procs) && Untouched(fs, writers, was) && NoSupBut(procs, prev)
    case KillCheck(prev, was) => NoneUnpublished(procs) && Untouched(fs, writers, was) && NoSupBut(procs, prev)
    case Gate(prev, was) => NoneUnpublished(procs) && Untouched(fs, writers, was) && NoSupBut(procs, prev)
    case Refused(was) => NoneUnpublished(procs) && Untouched(fs, writers, was)
    case Moving(i) => NoSup(procs) && forall n :: n in fs.names ==> n == Output || i <= MoveRank(n)
    case Creating(j) =>
      && NoSup(procs) && j <= |CREATED_FILES| && (j > 2 ==> Output in fs.names)
      && forall n :: n in fs.names ==> n == Output || CreateRank(n) < j
    case Launching =>
      NoSup(procs) && Output in fs.names && PidFile !in fs.names && PidTmp !in fs.names && ExitFile !in fs.names
    case WaitPid(id) =>
      && (forall p :: LiveSup(procs, p) ==> p == id.pid && procs[p].start == id.start)
      && (PidFile in fs.names ==> Names(fs, PidFile, id))
      && (PidTmp in fs.names ==> Names(fs, PidTmp, id))
    case _ => true
  }

  ghost predicate Inv(s: State) {
    && NamesOk(s.fs) && BytesOk(s.fs, s.writers, s.attempts) && ProcsOk(s.procs, s.used, s.attempts)
    && AgentsOk(s.procs, s.attempts, s.agents, s.writers)
    && OneSupervisor(s.fs, s.procs) && StarterOk(s.starter, s.fs, s.procs, s.writers)
  }

  lemma FreshInv(s: State)
    requires Fresh(s)
    ensures Inv(s)
  {
  }

  // ---- Redirections ----

  lemma RedirectBytes(fs: Fs, r: Fs, name: Name, file: File, writers: Writers, attempts: nat)
    requires NamesOk(fs) && BytesOk(fs, writers, attempts) && Fits(name, file) && (file.Log? ==> file.bytes == [])
    requires Redirected(fs, r, name, file)
    ensures BytesOk(r, writers, attempts)
  {
    forall a | a in writers ensures a < attempts && writers[a] < |r.inodes| && r.inodes[writers[a]].Log? {
      if writers[a] == r.names[name] {
        assert name in fs.names;
      }
    }
    forall i | 0 <= i < |r.inodes| && r.inodes[i].Log? ensures Claimed(r.inodes[i].bytes, writers, i) {
      if i != r.names[name] {
        assert r.inodes[i] == fs.inodes[i];
      }
    }
  }

  /** The supervisors of `procs'` are among those of `procs`, as they were. */
  ghost predicate FewerSups(procs: Procs, procs': Procs) {
    forall p :: LiveSup(procs', p) ==> LiveSup(procs, p) && procs'[p] == procs[p]
  }

  lemma FewerSupsOne(fs: Fs, procs: Procs, procs': Procs)
    requires OneSupervisor(fs, procs) && FewerSups(procs, procs')
    ensures OneSupervisor(fs, procs')
  {
  }

  /** The files a supervisor needs, and its identity in them, are as they were. */
  ghost predicate KeepsSupFiles(fs: Fs, r: Fs) {
    && (Output in fs.names ==> Output in r.names)
    && (forall n, id :: n in {PidFile, PidTmp} && Names(fs, n, id) ==> Names(r, n, id))
  }

  lemma KeptFilesOne(fs: Fs, r: Fs, procs: Procs)
    requires OneSupervisor(fs, procs) && KeepsSupFiles(fs, r)
    ensures OneSupervisor(r, procs)
  {
  }

  lemma RedirectKeeps(fs: Fs, r: Fs, name: Name, file: File)
    requires NamesOk(fs) && Redirected(fs, r, name, file) && name !in {PidFile, PidTmp}
    ensures KeepsSupFiles(fs, r)
  {
  }

  // ---- Steps that leave the start script where it is ----

  /** Names stay, and at most the exit file and the output come new; files change as `Grew` says, but for the
      exit file. */
  ghost predicate Mild(fs: Fs, r: Fs, writers: Writers) {
    && |fs.inodes| <= |r.inodes|
    && (forall n :: n in fs.names ==> n in r.names && r.names[n] == fs.names[n])
    && (forall n :: n in r.names && n !in fs.names ==> n in {ExitFile, Output})
    && (forall i :: 0 <= i < |fs.inodes| && !(ExitFile in fs.names && i == fs.names[ExitFile]) ==>
          Grew(fs.inodes[i], r.inodes[i], writers, i))
  }

  ghost predicate MoreWriters(writers: Writers, writers': Writers) {
    forall a :: a in writers ==> a in writers' && writers'[a] == writers[a]
  }

  lemma GrewOn(a: File, b: File, c: File, writers: Writers, writers': Writers, i: Inode)
    requires Grew(a, b, writers, i) && Grew(b, c, writers', i) && MoreWriters(writers, writers')
    ensures Grew(a, c, writers', i)
  {
  }

  lemma UntouchedOn(fs: Fs, r: Fs, was: Fs, writers: Writers, writers': Writers)
    requires NamesOk(fs) && Untouched(fs, writers, was) && Mild(fs, r, writers') && MoreWriters(writers, writers')
    ensures Untouched(r, writers', was)
  {
    forall n | n in was.names && n != ExitFile
      ensures n in r.names && r.names[n] == was.names[n]
      ensures Grew(was.inodes[was.names[n]], r.inodes[was.names[n]], writers', was.names[n])
    {
      var i := was.names[n];
      assert n in fs.names && fs.names[n] == i;
      GrewOn(was.inodes[i], fs.inodes[i], r.inodes[i], writers, writers', i);
    }
    forall n | n in r.names && n !in was.names ensures n in {ExitFile, Output} {
      if n in fs.names {
        assert n in {ExitFile, Output};
      }
    }
  }

  lemma MildStarter(st: Starter, fs: Fs, r: Fs, procs: Procs, writers: Writers, writers': Writers)
    requires NamesOk(fs) && StarterOk(st, fs, procs, writers)
    requires Mild(fs, r, writers') && MoreWriters(writers, writers') && KeepsSupFiles(fs, r)
    requires NoSup(procs) ==> ExitFile !in fs.names ==> ExitFile !in r.names
    ensures StarterOk(st, r, procs, writers')
  {
    match st {
      case Look(was) => UntouchedOn(fs, r, was, writers, writers');
      case WaitStop(_, _, _, was) => UntouchedOn(fs, r, was, writers, writers');
      case KillCheck(_, was) => UntouchedOn(fs, r, was, writers, writers');
      case Gate(_, was) => UntouchedOn(fs, r, was, writers, writers');
      case Refused(was) => UntouchedOn(fs, r, was, writers, writers');
      case _ =>
    }
  }

  lemma FewerStarter(st: Starter, fs: Fs, procs: Procs, procs': Procs, writers: Writers)
    requires StarterOk(st, fs, procs, writers) && FewerSups(procs, procs')
    ensures StarterOk(st, fs, procs', writers)
  {
    assert NoSup(procs) ==> NoSup(procs') by {
      forall p: nat | NoSup(procs) ensures !LiveSup(procs', p) {
        assert !LiveSup(procs, p);
      }
    }
    assert NoneUnpublished(procs) ==> NoneUnpublished(procs') by {
      forall p | NoneUnpublished(procs) && p in procs' && LiveSup(procs', p) ensures procs'[p].phase.Published? {
        assert LiveSup(procs, p);
      }
    }
  }

  lemma RecordExitInv(s: State, pid: nat)
    requires Inv(s) && LiveSup(s.procs, pid)
    ensures Inv(s.(fs := Redirect(s.fs, ExitFile, Plain)))
  {
    var r := Redirect(s.fs, ExitFile, Plain);
    RedirectOk(s.fs, ExitFile, Plain);
    RedirectBytes(s.fs, r, ExitFile, Plain, s.writers, s.attempts);
    RedirectKeeps(s.fs, r, ExitFile, Plain);
    KeptFilesOne(s.fs, r, s.procs);
    ExitMild(s.fs, r, s.writers);
    hide Redirect, NamesOk, BytesOk, OneSupervisor;
    assert !NoSup(s.procs);
    MildStarter(s.starter, s.fs, r, s.procs, s.writers, s.writers);
    hide StarterOk;
  }

  lemma ExitMild(fs: Fs, r: Fs, writers: Writers)
    requires NamesOk(fs) && Redirected(fs, r, ExitFile, Plain)
    ensures Mild(fs, r, writers)
  {
  }

  lemma OpenInv(s: State, attempt: Attempt)
    requires Inv(s)
    ensures Inv(OpenNext(s, attempt))
  {
    if attempt in s.agents && attempt !in s.writers {
      var r := OpenNext(s, attempt);
      OpenFs(s.fs, r.fs, s.writers, s.attempts);
      MoreClaimed(r.fs, s.writers, attempt, r.fs.names[Output], s.attempts);
      KeptFilesOne(s.fs, r.fs, s.procs);
      MildAny(s.fs, r.fs, s.writers, r.writers);
      MildStarter(s.starter, s.fs, r.fs, s.procs, s.writers, r.writers);
    }
  }

  lemma MildAny(fs: Fs, r: Fs, writers: Writers, writers': Writers)
    requires Mild(fs, r, writers) && MoreWriters(writers, writers')
    ensures Mild(fs, r, writers')
  {
  }

  /** The output as `>>` finds or makes it. */
  lemma OpenFs(fs: Fs, r: Fs, writers: Writers, attempts: nat)
    requires NamesOk(fs) && BytesOk(fs, writers, attempts)
    requires r == if Has(fs, Output) then fs else Redirect(fs, Output, Log([]))
    ensures NamesOk(r) && BytesOk(r, writers, attempts) && KeepsSupFiles(fs, r) && Mild(fs, r, writers)
    ensures Output in r.names && r.inodes[r.names[Output]].Log?
    ensures ExitFile in r.names ==> ExitFile in fs.names
  {
    if Output !in fs.names {
      RedirectOk(fs, Output, Log([]));
      RedirectBytes(fs, r, Output, Log([]), writers, attempts);
      RedirectKeeps(fs, r, Output, Log([]));
    }
  }

  lemma MoreClaimed(fs: Fs, writers: Writers, attempt: Attempt, inode: Inode, attempts: nat)
    requires BytesOk(fs, writers, attempts) && attempt < attempts && attempt !in writers
    requires inode < |fs.inodes| && fs.inodes[inode].Log?
    ensures BytesOk(fs, writers[attempt := inode], attempts)
  {
    forall i | 0 <= i < |fs.inodes| && fs.inodes[i].Log?
      ensures Claimed(fs.inodes[i].bytes, writers[attempt := inode], i)
    {
      assert Claimed(fs.inodes[i].bytes, writers, i);
    }
  }

  lemma WriteInv(s: State, attempt: Attempt, bytes: seq<Byte>)
    requires Inv(s)
    ensures Inv(WriteNext(s, attempt, bytes))
  {
    hide NamesOk, BytesOk, ProcsOk, OneSupervisor, StarterOk, AppendTo, TagAll;
    if attempt in s.agents && attempt in s.writers {
      var more := TagAll(attempt, bytes);
      var r := AppendTo(s.fs, s.writers[attempt], more);
      AppendOk(s.fs, s.writers[attempt], more);
      WriteBytes(s.fs, r, s.writers, s.attempts, attempt, bytes);
      KeptFilesOne(s.fs, r, s.procs);
      MildStarter(s.starter, s.fs, r, s.procs, s.writers, s.writers);
    }
  }

  lemma WriteBytes(fs: Fs, r: Fs, writers: Writers, attempts: nat, attempt: Attempt, bytes: seq<Byte>)
    requires NamesOk(fs) && BytesOk(fs, writers, attempts) && attempt in writers
    requires r == AppendTo(fs, writers[attempt], TagAll(attempt, bytes))
    ensures BytesOk(r, writers, attempts) && Mild(fs, r, writers) && KeepsSupFiles(fs, r)
  {
    var inode, more := writers[attempt], TagAll(attempt, bytes);
    assert Claimed(fs.inodes[inode].bytes, writers, inode);
    assert r.inodes[inode] == Log(fs.inodes[inode].bytes + more);
    assert Claimed(r.inodes[inode].bytes, writers, inode);
    forall i | 0 <= i < |r.inodes| && r.inodes[i].Log? ensures Claimed(r.inodes[i].bytes, writers, i) {
      if i != inode {
        assert r.inodes[i] == fs.inodes[i];
      }
    }
    assert Grew(fs.inodes[inode], r.inodes[inode], writers, inode);
  }

  lemma ProcFewer(s: State, l: Label)
    requires l.AgentDies? || l.Spawn? || l.Die? || l.Reap? || l.PodRestart?
    ensures FewerSups(s.procs, ProcNext(s, l).procs)
    ensures ProcsOk(s.procs, s.used, s.attempts) ==>
              ProcsOk(ProcNext(s, l).procs, ProcNext(s, l).used, ProcNext(s, l).attempts)
    ensures ProcNext(s, l).agents <= s.agents
  {
  }

  lemma ProcInv(s: State, l: Label)
    requires Inv(s) && (l.AgentDies? || l.Spawn? || l.Die? || l.Reap? || l.PodRestart?)
    ensures Inv(ProcNext(s, l))
  {
    ProcFewer(s, l);
    var r := ProcNext(s, l);
    FewerSupsOne(s.fs, s.procs, r.procs);
    FewerStarter(s.starter, s.fs, s.procs, r.procs, s.writers);
  }

  // ---- The supervisor's own steps ----

  lemma SupPhase(procs: Procs, pid: nat)
    requires LiveSup(procs, pid)
    ensures var procs' := procs[pid := procs[pid].(phase := After(procs[pid].phase))];
            forall p :: LiveSup(procs', p) <==> LiveSup(procs, p)
  {
  }

  lemma SupInv(s: State, pid: nat)
    requires Inv(s)
    ensures Inv(SupNext(s, pid))
  {
    hide Inv;
    if LiveSup(s.procs, pid) {
      match s.procs[pid].phase {
        case Launched => LaunchedInv(s, pid);
        case Forked => ForkedInv(s, pid);
        case TmpWritten => TmpWrittenInv(s, pid);
        case Published => assert SupNext(s, pid) == s by { assert s.procs[pid := s.procs[pid]] == s.procs; }
      }
    }
  }

  /** Only the agent is new. */
  lemma LaunchedInv(s: State, pid: nat)
    requires Inv(s) && LiveSup(s.procs, pid) && s.procs[pid].phase.Launched?
    ensures Inv(SupNext(s, pid))
  {
    hide NamesOk, BytesOk;
    var r := SupNext(s, pid);
    SupPhase(s.procs, pid);
    SupProcs(s.procs, s.used, s.attempts, pid, Forked);
    ForkedOne(s.fs, s.procs, pid);
    ForkedStarter(s.starter, s.fs, s.procs, r.procs, pid, s.writers);
    hide StarterOk, ProcsOk;
    forall p | LiveSup(r.procs, p) ensures p == pid {
      assert LiveSup(s.procs, p);
    }
    hide OneSupervisor;
  }

  lemma ForkedOne(fs: Fs, procs: Procs, pid: nat)
    requires OneSupervisor(fs, procs) && LiveSup(procs, pid) && procs[pid].phase.Launched?
    ensures OneSupervisor(fs, procs[pid := procs[pid].(phase := Forked)])
  {
    var procs' := procs[pid := procs[pid].(phase := Forked)];
    forall p | LiveSup(procs', p) ensures p == pid {
      assert LiveSup(procs, p);
    }
  }

  lemma ForkedStarter(st: Starter, fs: Fs, procs: Procs, procs': Procs, pid: nat, writers: Writers)
    requires StarterOk(st, fs, procs, writers) && LiveSup(procs, pid) && procs[pid].phase.Launched?
    requires procs' == procs[pid := procs[pid].(phase := Forked)]
    ensures StarterOk(st, fs, procs', writers)
  {
    hide Untouched, Names;
    assert !NoneUnpublished(procs) && !NoSup(procs);
  }

  lemma ForkedInv(s: State, pid: nat)
    requires Inv(s) && LiveSup(s.procs, pid) && s.procs[pid].phase.Forked?
    ensures Inv(SupNext(s, pid))
  {
    var id := Ident(pid, s.procs[pid].start);
    var r := SupNext(s, pid);
    AgentsPhase(s.procs, s.attempts, s.agents, s.writers, pid, TmpWritten);
    SupProcs(s.procs, s.used, s.attempts, pid, TmpWritten);
    hide AgentsOk, ProcsOk;
    RedirectOk(s.fs, PidTmp, PidRecord(id));
    RedirectBytes(s.fs, r.fs, PidTmp, PidRecord(id), s.writers, s.attempts);
    if PidFile in s.fs.names { PidFilesApart(s.fs, r.fs, id); }
    hide Redirect, BytesOk, NamesOk, Untouched;
    assert Names(r.fs, PidTmp, id);
    TmpOne(s.fs, r.fs, s.procs, pid);
    TmpStarter(s.starter, s.fs, r.fs, s.procs, r.procs, pid, s.writers);
    hide OneSupervisor, StarterOk;
  }

  /** The pid file's temporary is new; the rest of what supervisors need is as it was. */
  ghost predicate TmpMade(fs: Fs, r: Fs, id: Ident) {
    && Names(r, PidTmp, id) && r.names.Keys == fs.names.Keys + {PidTmp}
    && (PidFile in fs.names ==> Has(fs, PidFile) && Has(r, PidFile) && FileAt(r, PidFile) == FileAt(fs, PidFile))
  }

  lemma TmpOne(fs: Fs, r: Fs, procs: Procs, pid: nat)
    requires OneSupervisor(fs, procs) && LiveSup(procs, pid) && procs[pid].phase.Forked?
    requires TmpMade(fs, r, Ident(pid, procs[pid].start))
    ensures OneSupervisor(r, procs[pid := procs[pid].(phase := TmpWritten)])
  {
    var procs' := procs[pid := procs[pid].(phase := TmpWritten)];
    forall p | LiveSup(procs', p) ensures p == pid {
      assert LiveSup(procs, p);
    }
  }

  lemma TmpStarter(st: Starter, fs: Fs, r: Fs, procs: Procs, procs': Procs, pid: nat, writers: Writers)
    requires StarterOk(st, fs, procs, writers) && LiveSup(procs, pid) && procs[pid].phase.Forked?
    requires TmpMade(fs, r, Ident(pid, procs[pid].start)) && procs' == procs[pid := procs[pid].(phase := TmpWritten)]
    ensures StarterOk(st, r, procs', writers)
  {
    hide Untouched;
    assert !NoneUnpublished(procs) && !NoSup(procs);
    if st.WaitPid? && PidFile in fs.names {
      assert Names(fs, PidFile, st.id) && Names(r, PidFile, st.id);
    }
  }

  lemma PidFilesApart(fs: Fs, r: Fs, id: Ident)
    requires NamesOk(fs) && Redirected(fs, r, PidTmp, PidRecord(id)) && PidFile in fs.names
    ensures Has(r, PidFile) && FileAt(r, PidFile) == fs.inodes[fs.names[PidFile]]
  {
  }

  lemma TmpWrittenInv(s: State, pid: nat)
    requires Inv(s) && LiveSup(s.procs, pid) && s.procs[pid].phase.TmpWritten?
    ensures Inv(SupNext(s, pid))
  {
    hide NamesOk, BytesOk, ProcsOk, AgentsOk, StarterOk, OneSupervisor, RenamePid, Renamed, Redirect;
    var r := SupNext(s, pid);
    var procs' := s.procs[pid := s.procs[pid].(phase := Published)];
    assert r == s.(fs := RenamePid(s.fs), procs := procs');
    hide SupNext;
    RenamedOk(s.fs, s.procs, pid);
    AgentsPhase(s.procs, s.attempts, s.agents, s.writers, pid, Published);
    SameInodesBytes(s.fs, r.fs, s.writers, s.attempts);
    PublishedOne(s.fs, r.fs, s.procs, pid);
    PublishedStarter(s.starter, s.fs, r.fs, s.procs, r.procs, pid, s.writers);
    SupProcs(s.procs, s.used, s.attempts, pid, Published);
  }

  lemma AgentsPhase(procs: Procs, attempts: nat, agents: set<Attempt>, writers: Writers, pid: nat, phase: SupPhase)
    requires AgentsOk(procs, attempts, agents, writers) && LiveSup(procs, pid) && !phase.Launched?
    ensures AgentsOk(procs[pid := procs[pid].(phase := phase)], attempts, agents, writers)
  {
    var procs' := procs[pid := procs[pid].(phase := phase)];
    forall p | LiveSup(procs', p) && procs'[p].phase.Launched? ensures LiveSup(procs, p) && procs'[p] == procs[p] {
    }
  }

  lemma SupProcs(procs: Procs, used: set<Ident>, attempts: nat, pid: nat, phase: SupPhase)
    requires ProcsOk(procs, used, attempts) && LiveSup(procs, pid)
    ensures ProcsOk(procs[pid := procs[pid].(phase := phase)], used, attempts)
  {
  }

  lemma RenamedOk(fs: Fs, procs: Procs, pid: nat)
    requires NamesOk(fs) && OneSupervisor(fs, procs) && LiveSup(procs, pid) && procs[pid].phase.TmpWritten?
    ensures Renamed(fs, RenamePid(fs)) && NamesOk(RenamePid(fs)) && RenamePid(fs).inodes == fs.inodes
  {
    assert Names(fs, PidTmp, Ident(pid, procs[pid].start));
    hide NamesOk, RenamePid, OneSupervisor;
    RenameOk(fs);
  }

  /** What `mv pid.tmp pid` did. */
  ghost predicate Renamed(fs: Fs, r: Fs) {
    && PidTmp in fs.names && r.inodes == fs.inodes && r.names.Keys == fs.names.Keys - {PidTmp} + {PidFile}
    && r.names[PidFile] == fs.names[PidTmp]
    && (forall n :: n in r.names && n != PidFile ==> r.names[n] == fs.names[n])
  }

  lemma PublishedOne(fs: Fs, r: Fs, procs: Procs, pid: nat)
    requires OneSupervisor(fs, procs) && LiveSup(procs, pid) && procs[pid].phase.TmpWritten? && Renamed(fs, r)
    ensures OneSupervisor(r, procs[pid := procs[pid].(phase := Published)])
  {
    var procs' := procs[pid := procs[pid].(phase := Published)];
    assert Names(fs, PidTmp, Ident(pid, procs[pid].start));
    assert Names(r, PidFile, Ident(pid, procs[pid].start));
    assert Output in fs.names && Output in r.names;
    forall p | LiveSup(procs', p) ensures p == pid {
      assert LiveSup(procs, p);
    }
  }

  lemma PublishedStarter(st: Starter, fs: Fs, r: Fs, procs: Procs, procs': Procs, pid: nat, writers: Writers)
    requires StarterOk(st, fs, procs, writers) && LiveSup(procs, pid) && procs[pid].phase.TmpWritten?
    requires Renamed(fs, r) && procs' == procs[pid := procs[pid].(phase := Published)]
    ensures StarterOk(st, r, procs', writers)
  {
    hide Untouched;
    assert !NoneUnpublished(procs) && !NoSup(procs);
    if st.WaitPid? {
      assert Names(fs, PidTmp, st.id) && Names(r, PidFile, st.id);
      assert PidTmp !in r.names;
    }
  }

  lemma SameInodesBytes(fs: Fs, r: Fs, writers: Writers, attempts: nat)
    requires BytesOk(fs, writers, attempts) && r.inodes == fs.inodes
    ensures BytesOk(r, writers, attempts)
  {
  }

  // ---- The start script ----

  lemma LookFindsSup(fs: Fs, procs: Procs, used: set<Ident>, attempts: nat, pid: nat)
    requires OneSupervisor(fs, procs) && ProcsOk(procs, used, attempts) && LivePublished(procs, pid)
    ensures RunPid(fs, procs) == Some(pid)
  {
  }

  lemma StopInv(s: State)
    requires Inv(s) && !s.starter.Moving? && !s.starter.Creating? && !s.starter.WaitPid?
    ensures Inv(s.(starter := StopNext(s)))
  {
    hide NamesOk, BytesOk, ProcsOk, OneSupervisor, StarterOk, StopNext;
    if s.starter.Look? { LookStarter(s); } else { WaitStarter(s); }
  }

  lemma LookStarter(s: State)
    requires s.starter.Look? && StarterOk(s.starter, s.fs, s.procs, s.writers)
    requires OneSupervisor(s.fs, s.procs) && ProcsOk(s.procs, s.used, s.attempts)
    ensures StarterOk(StopNext(s), s.fs, s.procs, s.writers)
  {
    hide OneSupervisor, ProcsOk, Untouched, RunPid;
    LookSup(s.fs, s.procs, s.used, s.attempts);
  }

  lemma WaitStarter(s: State)
    requires !s.starter.Look? && !s.starter.Moving? && !s.starter.Creating? && !s.starter.WaitPid?
    requires StarterOk(s.starter, s.fs, s.procs, s.writers)
    ensures StarterOk(StopNext(s), s.fs, s.procs, s.writers)
  {
    hide Untouched;
  }

  lemma LookSup(fs: Fs, procs: Procs, used: set<Ident>, attempts: nat)
    requires OneSupervisor(fs, procs) && ProcsOk(procs, used, attempts) && NoneUnpublished(procs)
    ensures match RunPid(fs, procs)
            case Some(pid) => NoSupBut(procs, Ident(pid, procs[pid].start))
            case None => NoSup(procs)
  {
    forall p: nat | LiveSup(procs, p) ensures RunPid(fs, procs) == Some(p) {
      assert p in procs;
      LookFindsSup(fs, procs, used, attempts, p);
    }
  }

  /** What a step of moving or of making files does. */
  lemma StartShape(s: State)
    ensures s.starter.Moving? ==>
              var i := s.starter.i;
              StartNext(s) == if i < |ATTEMPT_FILES|
                              then s.(fs := Unlink(s.fs, ATTEMPT_FILES[i]), starter := Moving(i + 1))
                              else s.(starter := Creating(0))
    ensures s.starter.Creating? ==>
              var j := s.starter.j;
              StartNext(s) == if j < |CREATED_FILES|
                              then s.(fs := Redirect(s.fs, CREATED_FILES[j], Contents(CREATED_FILES[j])),
                                      starter := Creating(j + 1))
                              else s.(starter := Launching)
    ensures !s.starter.Moving? && !s.starter.Creating? ==> StartNext(s) == s.(starter := StartNext(s).starter)
  {
  }

  lemma MovingInv(s: State)
    requires Inv(s) && s.starter.Moving?
    ensures Inv(StartNext(s))
  {
    StartShape(s);
    hide StartNext, NamesOk, BytesOk, ProcsOk, OneSupervisor, StarterOk, Unlink;
    var i := s.starter.i;
    if i < |ATTEMPT_FILES| {
      var r := Unlink(s.fs, ATTEMPT_FILES[i]);
      UnlinkOk(s.fs, ATTEMPT_FILES[i]);
      SameInodesBytes(s.fs, r, s.writers, s.attempts);
      MovedStarter(s.fs, r, s.procs, s.writers, i);
    } else {
      MovedAll(s.fs, s.procs, s.writers, i);
    }
  }

  lemma MovedStarter(fs: Fs, r: Fs, procs: Procs, writers: Writers, i: nat)
    requires StarterOk(Moving(i), fs, procs, writers) && i < |ATTEMPT_FILES|
    requires forall n :: n in r.names ==> n in fs.names && n != ATTEMPT_FILES[i]
    ensures StarterOk(Moving(i + 1), r, procs, writers) && OneSupervisor(r, procs)
  {
    Ranks(i);
    NoSupOne(r, procs);
  }

  lemma MovedAll(fs: Fs, procs: Procs, writers: Writers, i: nat)
    requires StarterOk(Moving(i), fs, procs, writers) && i >= |ATTEMPT_FILES|
    ensures StarterOk(Creating(0), fs, procs, writers)
  {
    assert forall n :: n in fs.names && n != Output ==> MoveRank(n) >= 9;
  }

  lemma CreatingInv(s: State)
    requires Inv(s) && s.starter.Creating?
    ensures Inv(StartNext(s))
  {
    StartShape(s);
    hide StartNext, NamesOk, BytesOk, ProcsOk, OneSupervisor, StarterOk, Redirect;
    var j := s.starter.j;
    if j < |CREATED_FILES| {
      var name, file := CREATED_FILES[j], Contents(CREATED_FILES[j]);
      var r := Redirect(s.fs, name, file);
      ContentsFit(j);
      RedirectOk(s.fs, name, file);
      RedirectBytes(s.fs, r, name, file, s.writers, s.attempts);
      CreatedStarter(s.fs, r, s.procs, s.writers, j);
    } else {
      CreatedAll(s.fs, s.procs, s.writers, j);
    }
  }

  lemma ContentsFit(j: nat)
    requires j < |CREATED_FILES|
    ensures var name, file := CREATED_FILES[j], Contents(CREATED_FILES[j]);
            Fits(name, file) && (file.Log? ==> file.bytes == [])
  {
  }

  lemma CreatedStarter(fs: Fs, r: Fs, procs: Procs, writers: Writers, j: nat)
    requires StarterOk(Creating(j), fs, procs, writers) && j < |CREATED_FILES|
    requires r.names.Keys == fs.names.Keys + {CREATED_FILES[j]}
    ensures StarterOk(Creating(j + 1), r, procs, writers) && OneSupervisor(r, procs)
  {
    CreatedNames(fs.names, r.names, CREATED_FILES[j], j);
    NoSupOne(r, procs);
  }

  lemma CreatedAll(fs: Fs, procs: Procs, writers: Writers, j: nat)
    requires StarterOk(Creating(j), fs, procs, writers) && j >= |CREATED_FILES|
    ensures StarterOk(Launching, fs, procs, writers)
  {
  }

  lemma NoSupOne(fs: Fs, procs: Procs)
    requires NoSup(procs)
    ensures OneSupervisor(fs, procs)
  {
  }

  lemma CreatedNames(names: Directory, names': Directory, name: Name, j: nat)
    requires j < |CREATED_FILES| && name == CREATED_FILES[j] && names'.Keys == names.Keys + {name}
    requires (j > 2 ==> Output in names) && forall n :: n in names ==> n == Output || CreateRank(n) < j
    ensures (j + 1 > 2 ==> Output in names') && forall n :: n in names' ==> n == Output || CreateRank(n) < j + 1
  {
    Ranks(j);
    forall n | n in names' ensures n == Output || CreateRank(n) < j + 1 {
      assert n in names || n == name;
    }
  }

  lemma LaunchInv(s: State, id: Ident)
    requires Inv(s)
    ensures Inv(LaunchNext(s, id))
  {
    var r := LaunchNext(s, id);
    if r != s {
      forall p: nat | p != id.pid ensures !LiveSup(r.procs, p) {
        assert !LiveSup(s.procs, p);
      }
    }
  }

  lemma WaitPidInv(s: State)
    requires Inv(s) && s.starter.WaitPid?
    ensures Inv(StartNext(s))
    ensures StartNext(s).starter.Started? ==> StartNext(s).starter.pid == s.starter.id.pid
  {
    assert StartNext(s) == s.(starter := WaitPidNext(s, s.starter.id));
  }

  lemma BeginInv(s: State)
    requires Inv(s)
    ensures Inv(Next(s, Begin))
  {
    SelfUntouched(s.fs, s.writers);
  }

  lemma SelfUntouched(fs: Fs, writers: Writers)
    requires NamesOk(fs)
    ensures Untouched(fs, writers, fs)
  {
  }

  lemma CutInv(s: State)
    requires Inv(s)
    ensures Inv(Next(s, Abort)) && Inv(Next(s, TimeUp))
  {
    hide NamesOk, BytesOk, ProcsOk, OneSupervisor;
  }

  lemma StartInv(s: State)
    requires Inv(s)
    ensures Inv(StartNext(s))
  {
    if s.starter.Moving? {
      MovingInv(s);
    } else if s.starter.Creating? {
      CreatingInv(s);
    } else if s.starter.WaitPid? {
      WaitPidInv(s);
    } else {
      StopInv(s);
    }
  }

  lemma {:induction false} NextInv(s: State, l: Label)
    requires Inv(s)
    ensures Inv(Next(s, l))
  {
    hide Inv, StartNext, LaunchNext, SupNext, OpenNext, WriteNext, OpenReaderNext, ReadNext, ProcNext, NoneUnpublished;
    match l {
      case Begin => BeginInv(s);
      case Abort => CutInv(s);
      case TimeUp => CutInv(s);
      case StartStep => StartInv(s);
      case Launch(id) => LaunchInv(s, id);
      case SupStep(pid) => SupInv(s, pid);
      case RecordExit(pid) => if LiveSup(s.procs, pid) { RecordExitInv(s, pid); }
      case OpenOutput(attempt) => OpenInv(s, attempt);
      case Write(attempt, bytes) => WriteInv(s, attempt, bytes);
      case OpenReader(reader, from) => ReadersInv(s, l);
      case ReadMore(reader, n) => ReadersInv(s, l);
      case _ => ProcInv(s, l);
    }
  }

  lemma ReadersInv(s: State, l: Label)
    requires Inv(s) && (l.OpenReader? || l.ReadMore?)
    ensures Inv(Next(s, l))
  {
  }

  lemma {:induction false} RunInv(s: State, labels: seq<Label>)
    requires Inv(s)
    ensures Inv(Run(s, labels))
    decreases |labels|
  {
    hide Inv, Next;
    if labels != [] {
      NextInv(s, labels[0]);
      RunInv(Next(s, labels[0]), labels[1..]);
    }
  }

  // ---- Main results ----

  /** One run directory, one agent: after any run of starts, exits, crashes, kills, pod restarts and pid
      reuse, at most one published supervisor is alive, the pid file names exactly it, and every script
      that asks for it finds it. */
  lemma {:induction false} OneAgent(s: State, labels: seq<Label>, p: nat, q: nat)
    requires Fresh(s)
    requires LivePublished(Run(s, labels).procs, p) && LivePublished(Run(s, labels).procs, q)
    ensures var r := Run(s, labels);
            p == q && RunPid(r.fs, r.procs) == Some(p) && Names(r.fs, PidFile, Ident(p, r.procs[p].start))
  {
    FreshInv(s);
    RunInv(s, labels);
    var r := Run(s, labels);
    LookFindsSup(r.fs, r.procs, r.used, r.attempts, p);
  }

  /** A start that could not stop the previous supervisor leaves every file of the directory as it found
      it, but for what that attempt itself goes on to write: its output, and its exit file. */
  lemma {:induction false} RefusedTouchesNothing(s: State, labels: seq<Label>)
    requires Fresh(s) && Run(s, labels).starter.Refused?
    ensures var r := Run(s, labels); Untouched(r.fs, r.writers, r.starter.was)
  {
    FreshInv(s);
    RunInv(s, labels);
  }

  /** A start that reports a pid reports its own supervisor's. */
  lemma {:induction false} StartedIsOwn(s: State, labels: seq<Label>)
    requires Fresh(s) && Run(s, labels).starter.WaitPid?
    ensures var r := Run(s, labels);
            StartNext(r).starter.Started? ==> StartNext(r).starter.pid == r.starter.id.pid
  {
    FreshInv(s);
    RunInv(s, labels);
    WaitPidInv(Run(s, labels));
  }
}
