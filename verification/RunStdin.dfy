/** A run's stdin (packages/container-runtime/src/run-protocol.ts:158-164, 280-308): lines delivered to a
    file under a lock by any number of short execs, and fed from the file to the agent until the sentinel. */
module RunStdin {
  import opened Lines
  import opened RunSpec

  const NL: char := '\n'
  const EOF_LINE: string := "__OPTIO_STDIN_EOF__"

  /** The lines before the first sentinel. */
  function BeforeEof(lines: seq<string>): seq<string> {
    if lines == [] || lines[0] == EOF_LINE then [] else [lines[0]] + BeforeEof(lines[1..])
  }

  /** What the agent is to read: the complete lines of the file before the first sentinel. */
  function AgentLines(file: string): seq<string> {
    BeforeEof(Complete(file, NL))
  }

  lemma {:induction false} BeforeEofAppend(a: seq<string>, b: seq<string>)
    ensures BeforeEof(a + b) == if EOF_LINE in a then BeforeEof(a) else a + BeforeEof(b)
  {
    if a == [] {
      assert a + b == b;
    } else {
      BeforeEofAppend(a[1..], b);
      TailAppend(a, b);
      Associative([a[0]], a[1..], BeforeEof(b));
      assert a == [a[0]] + a[1..];
    }
  }

  lemma {:induction false} BeforeEofPrefix(a: seq<string>)
    ensures BeforeEof(a) <= a
    ensures EOF_LINE !in BeforeEof(a)
    ensures if EOF_LINE in a then |BeforeEof(a)| < |a| && a[|BeforeEof(a)|] == EOF_LINE else BeforeEof(a) == a
  {
    if a != [] && a[0] != EOF_LINE {
      BeforeEofPrefix(a[1..]);
    }
  }

  // ---- The protocol ----

  /** A deliver exec. It holds the lock from `Locked` to its end; `index` is where its line went. */
  datatype Phase =
    | Arrived
    | Locked
    | Appending(done: nat)
    | Appended(index: nat)
    | Delivered(index: nat)
    | Refused
    | Gone

  datatype Deliverer = Deliverer(line: string, phase: Phase)

  /** The feeder loop: how far it read, what it printed to the FIFO, and whether it met the sentinel. */
  datatype Feeder = Feeder(pos: nat, forwarded: seq<string>, closed: bool)

  /** `log` records the appended lines, in the order the lock let them in. */
  datatype State = State(
    file: string, lock: Option<nat>, deliverers: map<nat, Deliverer>, feeder: Feeder, log: seq<string>)

  datatype Label =
    | Arrive(id: nat, line: string)
    | Lock(id: nat)
    /** `grep -qxF` for the sentinel. */
    | Check(id: nat)
    /** `head -c` writes some more bytes of the line. */
    | AppendSome(id: nat, n: nat)
    /** The delivered marker is printed, and the lock goes with the exec. */
    | Ack(id: nat)
    /** The exec is severed before it appended, or before it could say it did. */
    | Drop(id: nat)
    | Feed

  function Start(initial: string): State {
    State(initial, None, map[], Feeder(0, [], false), [])
  }

  function SetPhase(s: State, id: nat, phase: Phase): State
    requires id in s.deliverers
  {
    s.(deliverers := s.deliverers[id := s.deliverers[id].(phase := phase)])
  }

  function Next(s: State, l: Label): State {
    match l
    case Arrive(id, line) =>
      // A line with a newline is rejected before any exec.
      if id in s.deliverers || NL in line || '\r' in line then s
      else s.(deliverers := s.deliverers[id := Deliverer(line, Arrived)])
    case Feed => FeedNext(s)
    case _ => if l.id in s.deliverers then DelivererNext(s, l) else s
  }

  function DelivererNext(s: State, l: Label): State
    requires !l.Feed? && !l.Arrive? && l.id in s.deliverers
  {
    var d := s.deliverers[l.id];
    match l
    case Lock(id) => if d.phase.Arrived? && s.lock.None? then SetPhase(s, id, Locked).(lock := Some(id)) else s
    case Check(id) =>
      if !d.phase.Locked? then s
      else if EOF_LINE in Split(s.file, NL) then SetPhase(s, id, Refused).(lock := None)
      else SetPhase(s, id, Appending(0))
    case AppendSome(id, n) =>
      var bytes := d.line + [NL];
      if !d.phase.Appending? || d.phase.done + n > |bytes| then s
      else
        var s1 := s.(file := s.file + bytes[d.phase.done..d.phase.done + n]);
        if d.phase.done + n < |bytes| then SetPhase(s1, id, Appending(d.phase.done + n))
        else SetPhase(s1, id, Appended(|s.log|)).(log := s.log + [d.line])
    case Ack(id) => if d.phase.Appended? then SetPhase(s, id, Delivered(d.phase.index)).(lock := None) else s
    case Drop(id) =>
      if d.phase.Arrived? then SetPhase(s, id, Gone)
      else if d.phase.Locked? || d.phase.Appended? then SetPhase(s, id, Gone).(lock := None)
      else s
  }

  /** `read -r l`: the next complete line, once there is one. */
  function FeedNext(s: State): State {
    var f := s.feeder;
    if f.closed || f.pos > |s.file| then s
    else
      var lines := Complete(s.file[f.pos..], NL);
      if lines == [] then s
      else if lines[0] == EOF_LINE then s.(feeder := f.(closed := true))
      else s.(feeder := f.(pos := f.pos + |lines[0]| + 1, forwarded := f.forwarded + [lines[0]]))
  }

  function Run(s: State, labels: seq<Label>): State
    decreases |labels|
  {
    if labels == [] then s else Run(Next(s, labels[0]), labels[1..])
  }

  // ---- Invariant ----

  /** The initial lines, and those appended since. */
  ghost function Whole(s: State, initial: string): seq<string> {
    Complete(initial, NL) + s.log
  }

  /** What the lock's holder has written of an unfinished line. */
  ghost function Unfinished(s: State): string {
    if s.lock.Some? && s.lock.value in s.deliverers && s.deliverers[s.lock.value].phase.Appending? then
      var d := s.deliverers[s.lock.value];
      if d.phase.done <= |d.line| then d.line[..d.phase.done] else d.line
    else []
  }

  ghost predicate FileOk(s: State, initial: string) {
    && s.file == Unlines(Whole(s, initial), NL) + Unfinished(s)
    && AllClear(s.log, NL)
    // Nothing follows a sentinel.
    && (s.log != [] ==> EOF_LINE !in Complete(initial, NL) && EOF_LINE !in s.log[..|s.log| - 1])
  }

  ghost predicate Holds(phase: Phase) { phase.Locked? || phase.Appending? || phase.Appended? }

  ghost predicate DeliverersOk(s: State, initial: string) {
    && (s.lock.Some? ==> s.lock.value in s.deliverers && Holds(s.deliverers[s.lock.value].phase))
    && (forall id :: id in s.deliverers ==> PhaseOk(s, initial, id))
    && (forall a, b :: a in s.deliverers && b in s.deliverers && a != b ==>
          Apart(s.deliverers[a].phase, s.deliverers[b].phase))
  }

  ghost predicate PhaseOk(s: State, initial: string, id: nat)
    requires id in s.deliverers
  {
    var d := s.deliverers[id];
    && NL !in d.line
    && (Holds(d.phase) <==> s.lock == Some(id))
    && (d.phase.Appending? ==> d.phase.done <= |d.line| && EOF_LINE !in Whole(s, initial))
    && (d.phase.Appended? || d.phase.Delivered? ==> d.phase.index < |s.log| && s.log[d.phase.index] == d.line)
    && (d.phase.Refused? ==> EOF_LINE in Whole(s, initial))
  }

  ghost predicate HasIndex(phase: Phase) { phase.Appended? || phase.Delivered? }

  ghost predicate Apart(p: Phase, q: Phase) {
    HasIndex(p) && HasIndex(q) ==> p.index != q.index
  }

  ghost predicate FeederOk(s: State, initial: string) {
    var f, all := s.feeder, Whole(s, initial);
    && f.forwarded <= all && EOF_LINE !in f.forwarded
    && f.pos == |Unlines(f.forwarded, NL)|
    && (f.closed ==> |f.forwarded| < |all| && all[|f.forwarded|] == EOF_LINE)
  }

  ghost predicate Inv(s: State, initial: string) {
    FileOk(s, initial) && DeliverersOk(s, initial) && FeederOk(s, initial)
  }

  lemma {:induction false} UnlinesComplete(lines: seq<string>, rest: string)
    requires AllClear(lines, NL) && NL !in rest
    ensures Split(Unlines(lines, NL) + rest, NL) == lines + [rest]
  {
    JoinAppend(lines, [rest], NL);
    SplitJoin(lines + [rest], NL);
  }

  /** The complete lines of the file are the initial ones and the appended ones. */
  lemma {:induction false} FileLines(s: State, initial: string)
    requires Inv(s, initial)
    ensures Split(s.file, NL) == Whole(s, initial) + [Unfinished(s)]
    ensures Complete(s.file, NL) == Whole(s, initial)
  {
    SplitParts(initial, NL);
    UnlinesComplete(Whole(s, initial), Unfinished(s));
  }

  lemma StartInv(initial: string)
    requires AtLineBoundary(initial, NL)
    ensures Inv(Start(initial), initial)
  {
    CompleteUnlines(initial, NL);
    BoundaryPartial(initial, NL);
    assert Complete(initial, NL) + [] == Complete(initial, NL);
  }

  /** What the feeder has still to read. */
  lemma FeederRest(s: State, initial: string)
    requires Inv(s, initial)
    ensures var all, k := Whole(s, initial), |s.feeder.forwarded|;
            k <= |all| && s.feeder.pos <= |s.file| && Complete(s.file[s.feeder.pos..], NL) == all[k..]
  {
    var f, all := s.feeder, Whole(s, initial);
    var k := |f.forwarded|;
    var rest := Unlines(all[k..], NL) + Unfinished(s);
    assert all == f.forwarded + all[k..];
    UnlinesAppend(f.forwarded, all[k..], NL);
    assert s.file == Unlines(f.forwarded, NL) + rest;
    assert s.file[f.pos..] == rest;
    SplitParts(initial, NL);
    UnlinesComplete(all[k..], Unfinished(s));
  }

  lemma FeedInv(s: State, initial: string)
    requires Inv(s, initial)
    ensures Inv(FeedNext(s), initial)
  {
    var f, all := s.feeder, Whole(s, initial);
    FeederRest(s, initial);
    var k := |f.forwarded|;
    if k < |all| {
      UnlinesAppend(f.forwarded, [all[k]], NL);
      assert Unlines([all[k]], NL) == all[k] + [NL];
      assert all[k..][0] == all[k];
    }
    var s' := FeedNext(s);
    assert s' == s.(feeder := s'.feeder);
    assert Whole(s', initial) == all && Unfinished(s') == Unfinished(s);
  }

  lemma LockInv(s: State, initial: string, l: Label)
    requires Inv(s, initial) && (l.Lock? || l.Ack? || l.Drop?) && l.id in s.deliverers
    ensures Inv(DelivererNext(s, l), initial)
  {
    LockDeliverers(s, initial, l);
    var s' := DelivererNext(s, l);
    assert PhaseOk(s, initial, l.id);
    assert Unfinished(s') == Unfinished(s);
  }

  lemma LockDeliverers(s: State, initial: string, l: Label)
    requires DeliverersOk(s, initial) && (l.Lock? || l.Ack? || l.Drop?) && l.id in s.deliverers
    ensures DeliverersOk(DelivererNext(s, l), initial)
  {
    hide EOF_LINE;
    var s' := DelivererNext(s, l);
    assert PhaseOk(s, initial, l.id);
    forall id | id in s'.deliverers ensures PhaseOk(s', initial, id) {
      assert PhaseOk(s, initial, id);
    }
  }

  lemma ArriveInv(s: State, initial: string, l: Label)
    requires Inv(s, initial) && l.Arrive?
    ensures Inv(Next(s, l), initial)
  {
    var s' := Next(s, l);
    assert Unfinished(s') == Unfinished(s);
  }

  lemma CheckInv(s: State, initial: string, id: nat)
    requires Inv(s, initial) && id in s.deliverers
    ensures Inv(DelivererNext(s, Check(id)), initial)
  {
    if s.deliverers[id].phase.Locked? {
      FileLines(s, initial);
      assert PhaseOk(s, initial, id);
      assert Unfinished(s) == [];
      var s' := DelivererNext(s, Check(id));
      assert Unfinished(s') == [];
      PhasesOk(s, s', initial, id);
    }
  }

  /** When only `id` changes phase, the others' facts stand. */
  lemma PhasesOk(s: State, s': State, initial: string, id: nat)
    requires Inv(s, initial) && id in s.deliverers && s.lock == Some(id)
    requires id in s'.deliverers
    requires s' == s.(deliverers := s.deliverers[id := s'.deliverers[id]],
                      lock := s'.lock, log := s'.log, file := s'.file)
    requires (s'.lock == Some(id) || s'.lock == None)
    requires s.log <= s'.log && (EOF_LINE in Whole(s, initial) ==> EOF_LINE in Whole(s', initial))
    requires PhaseOk(s', initial, id) && (HasIndex(s'.deliverers[id].phase) ==>
               || s'.deliverers[id].phase.index >= |s.log|
               || (HasIndex(s.deliverers[id].phase) &&
                   s.deliverers[id].phase.index == s'.deliverers[id].phase.index))
    ensures DeliverersOk(s', initial)
  {
    forall other | other in s'.deliverers ensures PhaseOk(s', initial, other) {
      if other != id {
        assert PhaseOk(s, initial, other);
      }
    }
    forall a, b | a in s'.deliverers && b in s'.deliverers && a != b
      ensures Apart(s'.deliverers[a].phase, s'.deliverers[b].phase)
    {
      assert Apart(s.deliverers[a].phase, s.deliverers[b].phase);
      assert PhaseOk(s, initial, a) && PhaseOk(s, initial, b);
    }
  }

  lemma AppendInv(s: State, initial: string, id: nat, n: nat)
    requires Inv(s, initial) && id in s.deliverers
    ensures Inv(DelivererNext(s, AppendSome(id, n)), initial)
  {
    var d := s.deliverers[id];
    if d.phase.Appending? {
      if d.phase.done + n == |d.line| + 1 {
        AppendedInv(s, initial, id, n);
      } else if d.phase.done + n <= |d.line| {
        PartInv(s, initial, id, n);
      }
    }
  }

  lemma PartInv(s: State, initial: string, id: nat, n: nat)
    requires Inv(s, initial) && id in s.deliverers && s.deliverers[id].phase.Appending?
    requires s.deliverers[id].phase.done + n <= |s.deliverers[id].line|
    ensures Inv(DelivererNext(s, AppendSome(id, n)), initial)
  {
    var d := s.deliverers[id];
    var s' := DelivererNext(s, AppendSome(id, n));
    var done := d.phase.done;
    assert PhaseOk(s, initial, id);
    assert (d.line + [NL])[done..done + n] == d.line[done..done + n];
    assert d.line[..done] + d.line[done..done + n] == d.line[..done + n];
    Associative(Unlines(Whole(s, initial), NL), d.line[..done], d.line[done..done + n]);
    assert Whole(s', initial) == Whole(s, initial) && Unfinished(s') == d.line[..done + n];
    assert FileOk(s', initial);
    PhasesOk(s, s', initial, id);
  }

  /** The rest of a line, put after what is there of it. */
  lemma LineDone(lines: seq<string>, line: string, done: nat)
    requires done <= |line|
    ensures Unlines(lines, NL) + line[..done] + (line + [NL])[done..] == Unlines(lines + [line], NL)
  {
    UnlinesAppend(lines, [line], NL);
    assert Unlines([line], NL) == line + [NL];
    assert line[..done] + (line + [NL])[done..] == line + [NL];
    Associative(Unlines(lines, NL), line[..done], (line + [NL])[done..]);
  }

  lemma AppendedInv(s: State, initial: string, id: nat, n: nat)
    requires Inv(s, initial) && id in s.deliverers && s.deliverers[id].phase.Appending?
    requires s.deliverers[id].phase.done + n == |s.deliverers[id].line| + 1
    ensures Inv(DelivererNext(s, AppendSome(id, n)), initial)
  {
    var d := s.deliverers[id];
    var s' := DelivererNext(s, AppendSome(id, n));
    assert PhaseOk(s, initial, id);
    Associative(Complete(initial, NL), s.log, [d.line]);
    LineDone(Whole(s, initial), d.line, d.phase.done);
    assert Unfinished(s) == d.line[..d.phase.done];
    assert (d.line + [NL])[d.phase.done..d.phase.done + n] == (d.line + [NL])[d.phase.done..];
    assert Unfinished(s') == [];
    assert s'.file == Unlines(Whole(s', initial), NL);
    assert s'.log[..|s'.log| - 1] == s.log;
    assert FileOk(s', initial);
    assert PhaseOk(s', initial, id);
    PhasesOk(s, s', initial, id);
  }

  lemma {:induction false} NextInv(s: State, initial: string, l: Label)
    requires Inv(s, initial)
    ensures Inv(Next(s, l), initial)
  {
    match l {
      case Arrive(_, _) => ArriveInv(s, initial, l);
      case Feed => FeedInv(s, initial);
      case Check(id) => if id in s.deliverers { CheckInv(s, initial, id); }
      case AppendSome(id, n) => if id in s.deliverers { AppendInv(s, initial, id, n); }
      case _ => if l.id in s.deliverers { LockInv(s, initial, l); }
    }
  }

  lemma {:induction false} RunInv(s: State, initial: string, labels: seq<Label>)
    requires Inv(s, initial)
    ensures Inv(Run(s, labels), initial)
    decreases |labels|
  {
    if labels != [] {
      NextInv(s, initial, labels[0]);
      RunInv(Next(s, labels[0]), initial, labels[1..]);
    }
  }

  // ---- Main results ----

  /** The agent reads a prefix of the file's lines before the first sentinel, and its stdin is closed only
      at that sentinel, with every line before it forwarded. */
  lemma {:induction false} ForwardedIsPrefix(initial: string, labels: seq<Label>)
    requires AtLineBoundary(initial, NL)
    ensures var s := Run(Start(initial), labels);
            && s.feeder.forwarded <= AgentLines(s.file)
            && (s.feeder.closed ==> EOF_LINE in Complete(s.file, NL) && s.feeder.forwarded == AgentLines(s.file))
  {
    StartInv(initial);
    RunInv(Start(initial), initial, labels);
    var s := Run(Start(initial), labels);
    FileLines(s, initial);
    var all, k := Whole(s, initial), |s.feeder.forwarded|;
    assert all == all[..k] + all[k..];
    BeforeEofAppend(all[..k], all[k..]);
  }

  lemma {:induction false} AppendedPlace(s: State, initial: string, i: nat)
    requires Inv(s, initial) && i < |s.log| && s.log[i] != EOF_LINE
    ensures AgentLines(s.file) == Complete(initial, NL) + BeforeEof(s.log)
    ensures i < |BeforeEof(s.log)| && BeforeEof(s.log)[i] == s.log[i]
  {
    FileLines(s, initial);
    BeforeEofAppend(Complete(initial, NL), s.log);
    PlaceInLog(s.log, i);
    hide BeforeEof, Split;
  }

  lemma PlaceInLog(log: seq<string>, i: nat)
    requires i < |log| && log[i] != EOF_LINE && EOF_LINE !in log[..|log| - 1]
    ensures i < |BeforeEof(log)| && BeforeEof(log)[i] == log[i]
  {
    var front, last := log[..|log| - 1], log[|log| - 1];
    assert log == front + [last];
    BeforeEofAppend(front, [last]);
    assert BeforeEof([last]) == if last == EOF_LINE then [] else [last] + BeforeEof([last][1..]);
  }

  /** Every acknowledged line that is no sentinel is what the agent reads, at a place of its own: after the
      initial lines, in the order the lock let the deliveries in. */
  lemma {:induction false} AcknowledgedOnce(initial: string, labels: seq<Label>, id: nat)
    requires AtLineBoundary(initial, NL)
    requires var s := Run(Start(initial), labels);
             id in s.deliverers && s.deliverers[id].phase.Delivered? && s.deliverers[id].line != EOF_LINE
    ensures var s := Run(Start(initial), labels);
            var at := |Complete(initial, NL)| + s.deliverers[id].phase.index;
            && at < |AgentLines(s.file)| && AgentLines(s.file)[at] == s.deliverers[id].line
            && (forall other :: other in s.deliverers && other != id && s.deliverers[other].phase.Delivered? ==>
                  s.deliverers[other].phase.index != s.deliverers[id].phase.index)
            && AgentLines(s.file) == Complete(initial, NL) + BeforeEof(s.log)
  {
    StartInv(initial);
    RunInv(Start(initial), initial, labels);
    var s := Run(Start(initial), labels);
    assert PhaseOk(s, initial, id);
    AppendedPlace(s, initial, s.deliverers[id].phase.index);
    forall other | other in s.deliverers && other != id && s.deliverers[other].phase.Delivered?
      ensures s.deliverers[other].phase.index != s.deliverers[id].phase.index
    {
      assert Apart(s.deliverers[other].phase, s.deliverers[id].phase);
    }
  }

  /** `n` turns of the feeder in a row. */
  function Feeds(s: State, n: nat): State
    decreases n
  {
    if n == 0 then s else Feeds(FeedNext(s), n - 1)
  }

  lemma {:induction false} FeedsAreSteps(s: State, n: nat) returns (labels: seq<Label>)
    ensures Run(s, labels) == Feeds(s, n)
    decreases n
  {
    if n == 0 {
      labels := [];
    } else {
      var rest := FeedsAreSteps(FeedNext(s), n - 1);
      labels := [Feed] + rest;
    }
  }

  lemma {:induction false} FeederRunsOut(s: State, initial: string) returns (n: nat)
    requires Inv(s, initial)
    ensures var r := Feeds(s, n);
            && r == s.(feeder := r.feeder)
            && r.feeder.forwarded == BeforeEof(Whole(s, initial))
            && (r.feeder.closed <==> EOF_LINE in Whole(s, initial))
    decreases |Whole(s, initial)| - |s.feeder.forwarded|
  {
    hide FeedNext, BeforeEof, FileOk, DeliverersOk;
    var f, all := s.feeder, Whole(s, initial);
    var k := |f.forwarded|;
    ForwardedSoFar(f.forwarded, all);
    if k == |all| || f.closed {
      n := 0;
    } else {
      FeedTakes(s, initial);
      FeedInv(s, initial);
      if all[k] == EOF_LINE {
        n := 1;
        assert Feeds(s, 1) == Feeds(FeedNext(s), 0) == FeedNext(s);
      } else {
        hide Inv;
        var m := FeederRunsOut(FeedNext(s), initial);
        n := m + 1;
      }
    }
  }

  /** The feeder's next turn, with a line left to read. */
  lemma FeedTakes(s: State, initial: string)
    requires Inv(s, initial) && !s.feeder.closed && |s.feeder.forwarded| < |Whole(s, initial)|
    ensures var f, s' := s.feeder, FeedNext(s);
            var line := Whole(s, initial)[|f.forwarded|];
            && s' == s.(feeder := s'.feeder) && Whole(s', initial) == Whole(s, initial)
            && s'.feeder.closed == (line == EOF_LINE)
            && s'.feeder.forwarded == if line == EOF_LINE then f.forwarded else f.forwarded + [line]
  {
    FeederRest(s, initial);
  }

  lemma ForwardedSoFar(forwarded: seq<string>, all: seq<string>)
    requires forwarded <= all && EOF_LINE !in forwarded
    ensures |forwarded| < |all| && all[|forwarded|] == EOF_LINE ==> BeforeEof(all) == forwarded && EOF_LINE in all
    ensures forwarded == all ==> BeforeEof(all) == forwarded
  {
    BeforeEofPrefix(forwarded);
    var k := |forwarded|;
    assert all == all[..k] + all[k..] && all[..k] == forwarded;
    BeforeEofAppend(forwarded, all[k..]);
    assert forwarded + [] == forwarded;
  }

  /** Whatever the deliveries so far, a feeder that goes on gets the agent every line before the first
      sentinel, and closes its stdin iff the sentinel is in. */
  lemma {:induction false} FeederCatchesUp(s: State, initial: string) returns (labels: seq<Label>)
    requires Inv(s, initial)
    ensures var r := Run(s, labels);
            && r == s.(feeder := r.feeder)
            && r.feeder.forwarded == AgentLines(s.file)
            && (r.feeder.closed <==> EOF_LINE in Complete(s.file, NL))
  {
    FileLines(s, initial);
    var n := FeederRunsOut(s, initial);
    labels := FeedsAreSteps(s, n);
  }

  /** A deliverer that finds the lock free and no sentinel gets its line in, whole and at the end. */
  lemma {:induction false} DeliveryGoesIn(s: State, initial: string, id: nat)
    requires Inv(s, initial) && id in s.deliverers && s.deliverers[id].phase.Arrived?
    requires s.lock.None? && EOF_LINE !in Complete(s.file, NL)
    ensures var line := s.deliverers[id].line;
            var r := Next(Next(Next(Next(s, Lock(id)), Check(id)), AppendSome(id, |line| + 1)), Ack(id));
            && id in r.deliverers && r.deliverers[id].phase.Delivered? && r.lock.None?
            && r.file == s.file + line + [NL]
            && Complete(r.file, NL) == Complete(s.file, NL) + [line]
  {
    var line := s.deliverers[id].line;
    LockChecks(s, initial, id);
    NextInv(s, initial, Lock(id));
    var s2 := Next(Next(s, Lock(id)), Check(id));
    NextInv(Next(s, Lock(id)), initial, Check(id));
    AppendsAll(s2, id, line);
    var s3 := Next(s2, AppendSome(id, |line| + 1));
    NextInv(s2, initial, AppendSome(id, |line| + 1));
    NextInv(s3, initial, Ack(id));
    FileLines(s, initial);
    FileLines(Next(s3, Ack(id)), initial);
    Associative(Complete(initial, NL), s.log, [line]);
    hide Inv, FeedNext;
  }

  lemma LockChecks(s: State, initial: string, id: nat)
    requires Inv(s, initial) && id in s.deliverers && s.deliverers[id].phase.Arrived?
    requires s.lock.None? && EOF_LINE !in Complete(s.file, NL)
    ensures Next(Next(s, Lock(id)), Check(id)) == SetPhase(s, id, Appending(0)).(lock := Some(id))
  {
    FileLines(s, initial);
    assert Unfinished(s) == [];
    var s1 := Next(s, Lock(id));
    hide Inv;
    assert s1 == SetPhase(s, id, Locked).(lock := Some(id));
    assert SetPhase(s1, id, Appending(0)) == SetPhase(s, id, Appending(0)).(lock := Some(id));
  }

  lemma AppendsAll(s2: State, id: nat, line: string)
    requires id in s2.deliverers && s2.deliverers[id] == Deliverer(line, Appending(0))
    ensures var s3 := Next(s2, AppendSome(id, |line| + 1));
            var s4 := Next(s3, Ack(id));
            && s3.file == s2.file + line + [NL] && s3.log == s2.log + [line]
            && s4.file == s3.file && s4.log == s3.log && s4.lock.None?
            && s4.deliverers[id].phase.Delivered?
  {
    assert (line + [NL])[0..|line| + 1] == line + [NL];
    Associative(s2.file, line, [NL]);
  }

  /** From its arrival on: a line without a carriage return or newline goes in, at a free lock with no sentinel
      there; one that has either is turned away, and nothing comes of it. */
  lemma {:induction false} LineGoesInIff(s: State, initial: string, id: nat, line: string)
    requires Inv(s, initial) && id !in s.deliverers && s.lock.None? && EOF_LINE !in Complete(s.file, NL)
    ensures var r := Next(Next(Next(Next(Next(s, Arrive(id, line)), Lock(id)), Check(id)),
                               AppendSome(id, |line| + 1)), Ack(id));
            if (exists i :: 0 <= i < |line| && (line[i] == '\n' || line[i] == '\r')) then r == s
            else id in r.deliverers && r.deliverers[id].phase.Delivered? && r.file == s.file + line + [NL]
  {
    var s1 := Next(s, Arrive(id, line));
    NextInv(s, initial, Arrive(id, line));
    ArrivalIs(s, id, line);
    if s1 == s {
      NoDeliverer(s, Lock(id));
      NoDeliverer(s, Check(id));
      NoDeliverer(s, AppendSome(id, |line| + 1));
      NoDeliverer(s, Ack(id));
    } else {
      DeliveryGoesIn(s1, initial, id);
    }
    hide Inv, DelivererNext;
  }

  lemma ArrivalIs(s: State, id: nat, line: string)
    requires id !in s.deliverers
    ensures var r := Next(s, Arrive(id, line));
            if (exists i :: 0 <= i < |line| && (line[i] == '\n' || line[i] == '\r')) then r == s
            else r == s.(deliverers := s.deliverers[id := Deliverer(line, Arrived)])
  {
  }

  lemma NoDeliverer(s: State, l: Label)
    requires !l.Feed? && !l.Arrive? && l.id !in s.deliverers
    ensures Next(s, l) == s
  {
  }

  /** A deliverer severed while it waits for the lock is gone: its line is never appended by it. */
  lemma {:induction false} SeveredWaiting(s: State, id: nat, labels: seq<Label>)
    requires id in s.deliverers && s.deliverers[id].phase.Arrived?
    ensures var r := Run(Next(s, Drop(id)), labels); id in r.deliverers && r.deliverers[id].phase.Gone?
  {
    GoneForever(Next(s, Drop(id)), id, labels);
  }

  lemma {:induction false} GoneForever(s: State, id: nat, labels: seq<Label>)
    requires id in s.deliverers && s.deliverers[id].phase.Gone?
    ensures id in Run(s, labels).deliverers && Run(s, labels).deliverers[id].phase.Gone?
    decreases |labels|
  {
    if labels != [] {
      GoneForever(Next(s, labels[0]), id, labels[1..]);
    }
  }

  /** The lock comes free: whoever holds it has a way to its end, which frees it; and a severed one that has
      not begun to append, or is done appending, frees it at once. */
  lemma {:induction false} LockComesFree(s: State, initial: string) returns (labels: seq<Label>)
    requires Inv(s, initial) && s.lock.Some?
    ensures Run(s, labels).lock.None?
    ensures !s.deliverers[s.lock.value].phase.Appending? ==> Next(s, Drop(s.lock.value)).lock.None?
  {
    var id := s.lock.value;
    var d := s.deliverers[id];
    assert PhaseOk(s, initial, id);
    if d.phase.Appending? {
      FinishesLine(s, id);
      var append := AppendSome(id, |d.line| + 1 - d.phase.done);
      labels := [append, Ack(id)];
      RunTwo(s, append, Ack(id));
    } else {
      labels := [Drop(id)];
      RunTwo(s, Drop(id), Drop(id));
    }
  }

  lemma RunTwo(s: State, a: Label, b: Label)
    ensures Run(s, [a]) == Next(s, a) && Run(s, [a, b]) == Next(Next(s, a), b)
  {
    hide Next;
    assert [a, b][1..] == [b] && [a][1..] == [] && [b][1..] == [];
    assert Run(s, [a, b]) == Run(Next(s, a), [b]) == Run(Next(Next(s, a), b), []);
  }

  lemma FinishesLine(s: State, id: nat)
    requires id in s.deliverers && s.deliverers[id].phase.Appending?
    requires s.deliverers[id].phase.done <= |s.deliverers[id].line|
    ensures var d := s.deliverers[id];
            var s1 := Next(s, AppendSome(id, |d.line| + 1 - d.phase.done));
            id in s1.deliverers && s1.deliverers[id].phase.Appended? && Next(s1, Ack(id)).lock.None?
  {
  }

  /** Once the sentinel is in, the file never changes again. */
  lemma {:induction false} ClosedForever(s: State, initial: string, labels: seq<Label>)
    requires Inv(s, initial) && EOF_LINE in Complete(s.file, NL)
    ensures Run(s, labels).file == s.file && Run(s, labels).log == s.log
    decreases |labels|
  {
    if labels != [] {
      FileLines(s, initial);
      var s1 := Next(s, labels[0]);
      if labels[0].AppendSome? && labels[0].id in s.deliverers {
        assert PhaseOk(s, initial, labels[0].id);
      }
      assert s1.file == s.file && s1.log == s.log;
      NextInv(s, initial, labels[0]);
      ClosedForever(s1, initial, labels[1..]);
    }
  }

  /** From then on, whatever is delivered: only what was appended before is, or will be, acknowledged. */
  lemma {:induction false} RefusedThenOn(s: State, initial: string, labels: seq<Label>)
    requires Inv(s, initial) && EOF_LINE in Complete(s.file, NL)
    ensures var r := Run(s, labels);
            forall id :: id in r.deliverers && HasIndex(r.deliverers[id].phase) ==>
              id in s.deliverers && HasIndex(s.deliverers[id].phase)
    decreases |labels|
  {
    hide Inv, Next, HasIndex;
    if labels != [] {
      RefusedNext(s, initial, labels[0]);
      NextInv(s, initial, labels[0]);
      RefusedThenOn(Next(s, labels[0]), initial, labels[1..]);
    }
  }

  lemma RefusedNext(s: State, initial: string, l: Label)
    requires Inv(s, initial) && EOF_LINE in Complete(s.file, NL)
    ensures var r := Next(s, l);
            && r.file == s.file
            && forall id :: id in r.deliverers && HasIndex(r.deliverers[id].phase) ==>
                 id in s.deliverers && HasIndex(s.deliverers[id].phase)
  {
    FileLines(s, initial);
    if l.AppendSome? && l.id in s.deliverers {
      assert PhaseOk(s, initial, l.id);
    }
  }
}
