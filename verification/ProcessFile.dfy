/** A run's output file under the process runtime (packages/container-runtime/src/process.ts:115-174, 207-242):
    one path that successive children append to and each start empties in place. A child's `exit` and the
    end of its stdout are events of their own, in either order, so a child that exited may still append. */
module ProcessFile {
  import opened RunSpec

  // ---- An attachment's steps ----

  /** Where an attachment stands, and what was pushed to its output. */
  datatype Follower<T> = Follower(from: nat, position: nat, output: seq<T>, done: bool)

  /** Subscribes, then reads what is on disk up to `written`: one step, as handlers are atomic. */
  function OpenAt<T>(file: seq<T>, written: nat, from: nat): Follower<T> {
    var end := if written < |file| then written else |file|;
    if end <= from then Follower(from, from, [], false) else Follower(from, end, file[from..end], false)
  }

  /** A chunk that the child wrote behind its first `before` bytes. */
  function TakeChunk<T>(f: Follower<T>, chunk: seq<T>, before: nat): Follower<T> {
    var skip := if before < f.position then f.position - before else 0;
    if f.done || skip > |chunk| then f
    else f.(position := f.position + |chunk| - skip, output := f.output + chunk[skip..])
  }

  /** Up to date with a run whose child wrote `own`. */
  ghost predicate UpToDate<T>(f: Follower<T>, own: seq<T>) {
    f.position == Position(own, f.from) && f.output == Tail(own, f.from)
  }

  lemma OpensUpToDate<T>(file: seq<T>, written: nat, from: nat)
    requires written <= |file|
    ensures UpToDate(OpenAt(file, written, from), file[..written])
  {
  }

  lemma StaysUpToDate<T>(f: Follower<T>, own: seq<T>, chunk: seq<T>)
    requires UpToDate(f, own) && !f.done
    ensures UpToDate(TakeChunk(f, chunk, |own|), own + chunk)
  {
    TailGrows(own, chunk, f.from);
    if Position(own, f.from) - |own| <= |chunk| {
      assert f.output + chunk[f.position - |own|..] == Tail(own + chunk, f.from);
    }
  }

  // ---- Children, their output, and the file ----

  datatype Tagged = Tagged(writer: nat, byte: Byte)

  /** `own`: everything it wrote to its stdout. */
  datatype Child = Child(own: seq<Tagged>, exited: bool, stdoutOpen: bool)

  /** An attachment to a child. */
  datatype Attached = Attached(child: nat, follower: Follower<Tagged>)

  datatype State = State(file: seq<Tagged>, children: seq<Child>, attached: map<nat, Attached>)

  datatype Label =
    | Start
    /** A start whose spawn fails, with the files already emptied. */
    | FailedStart
    | Data(child: nat, bytes: seq<Byte>)
    | StdoutEnds(child: nat)
    | Exit(child: nat)
    | Attach(id: nat, from: nat)
    | Close(id: nat)

  const NOTHING_YET := State([], [], map[])

  function TagAll(child: nat, bytes: seq<Byte>): seq<Tagged> {
    seq(|bytes|, i requires 0 <= i < |bytes| => Tagged(child, bytes[i]))
  }

  /** A start goes ahead only when the run's previous child has exited. */
  predicate MayStart(s: State) {
    s.children == [] || s.children[|s.children| - 1].exited
  }

  function Done(a: Attached): Attached { a.(follower := a.follower.(done := true)) }

  function Next(s: State, l: Label): State {
    match l
    case Start => if MayStart(s) then s.(file := [], children := s.children + [Child([], false, true)]) else s
    case FailedStart => if MayStart(s) then s.(file := []) else s
    case Data(k, bytes) =>
      if k >= |s.children| || !s.children[k].stdoutOpen then s
      else
        var c, chunk := s.children[k], TagAll(k, bytes);
        State(s.file + chunk,
              s.children[k := c.(own := c.own + chunk)],
              map id | id in s.attached ::
                if s.attached[id].child == k
                then s.attached[id].(follower := TakeChunk(s.attached[id].follower, chunk, |c.own|))
                else s.attached[id])
    case StdoutEnds(k) =>
      if k < |s.children| then s.(children := s.children[k := s.children[k].(stdoutOpen := false)]) else s
    case Exit(k) =>
      if k >= |s.children| then s
      else s.(children := s.children[k := s.children[k].(exited := true)],
              attached := map id | id in s.attached ::
                if s.attached[id].child == k then Done(s.attached[id]) else s.attached[id])
    case Attach(id, from) =>
      if id in s.attached || s.children == [] then s
      else
        var k := |s.children| - 1;
        var a := Attached(k, OpenAt(s.file, |s.children[k].own|, from));
        s.(attached := s.attached[id := if s.children[k].exited then Done(a) else a])
    case Close(id) => if id in s.attached then s.(attached := s.attached[id := Done(s.attached[id])]) else s
  }

  function Run(s: State, labels: seq<Label>): State
    decreases |labels|
  {
    if labels == [] then s else Run(Next(s, labels[0]), labels[1..])
  }

  // ---- What is promised ----

  /** The file holds the current child's output, and nothing else. */
  ghost predicate Apart(s: State) {
    s.children != [] ==> s.file == s.children[|s.children| - 1].own
  }

  /** Every attachment, past or open, has delivered exactly its child's output from its start to where it
      stands. */
  ghost predicate Exact(s: State) {
    forall id :: id in s.attached ==>
      && s.attached[id].child < |s.children|
      && (var f := s.attached[id].follower;
          Delivered(s.children[s.attached[id].child].own, f.from, f.position, f.output))
  }

  /** Every child before the current one has ended its stdout. */
  ghost predicate EarlierEnded(s: State) {
    forall k :: 0 <= k < |s.children| - 1 ==> !s.children[k].stdoutOpen
  }

  /** Open attachments are up to date; an exited child has none. */
  ghost predicate Attentive(s: State) {
    && (forall k :: 0 <= k < |s.children| - 1 ==> s.children[k].exited)
    && (forall id :: id in s.attached && !s.attached[id].follower.done ==>
          && s.attached[id].child < |s.children| && !s.children[s.attached[id].child].exited
          && UpToDate(s.attached[id].follower, s.children[s.attached[id].child].own))
  }

  ghost predicate Inv(s: State) { Exact(s) && Attentive(s) && Apart(s) && EarlierEnded(s) }

  predicate IsStart(l: Label) { l.Start? || l.FailedStart? }

  lemma DataInv(s: State, k: nat, bytes: seq<Byte>)
    requires Exact(s) && Attentive(s)
    ensures Exact(Next(s, Data(k, bytes))) && Attentive(Next(s, Data(k, bytes)))
    ensures Apart(s) && EarlierEnded(s) ==> Apart(Next(s, Data(k, bytes))) && EarlierEnded(Next(s, Data(k, bytes)))
  {
    hide Delivered, UpToDate, TakeChunk, TagAll;
    if k < |s.children| && s.children[k].stdoutOpen {
      var s' := Next(s, Data(k, bytes));
      var chunk, own := TagAll(k, bytes), s.children[k].own;
      forall id | id in s'.attached
        ensures id in s.attached && s'.attached[id].child == s.attached[id].child
        ensures s'.attached[id].follower.done == s.attached[id].follower.done
        ensures && s'.attached[id].child < |s'.children|
                && (var a := s'.attached[id];
                    && Delivered(s'.children[a.child].own, a.follower.from, a.follower.position, a.follower.output)
                    && (!a.follower.done ==> UpToDate(a.follower, s'.children[a.child].own)))
      {
        if s.attached[id].child == k { TakesExactly(s.attached[id].follower, own, chunk); }
      }
      DataApart(s, k, bytes);
    }
  }

  lemma DataApart(s: State, k: nat, bytes: seq<Byte>)
    requires k < |s.children| && s.children[k].stdoutOpen
    ensures |Next(s, Data(k, bytes)).children| == |s.children|
    ensures Apart(s) && EarlierEnded(s) ==> Apart(Next(s, Data(k, bytes))) && EarlierEnded(Next(s, Data(k, bytes)))
    ensures forall j :: 0 <= j < |s.children| ==>
              var c, c' := s.children[j], Next(s, Data(k, bytes)).children[j];
              c'.exited == c.exited && c'.stdoutOpen == c.stdoutOpen
  {
    hide TakeChunk, TagAll;
  }

  /** A chunk that its child wrote, for an attachment that is exact. */
  lemma TakesExactly<T>(f: Follower<T>, own: seq<T>, chunk: seq<T>)
    requires Delivered(own, f.from, f.position, f.output) && (!f.done ==> UpToDate(f, own))
    ensures var g := TakeChunk(f, chunk, |own|);
            && Delivered(own + chunk, g.from, g.position, g.output) && (!g.done ==> UpToDate(g, own + chunk))
            && g.done == f.done && g.from == f.from
  {
    if f.done {
      DeliveredGrows(own, chunk, f.from, f.position, f.output);
    } else {
      StaysUpToDate(f, own, chunk);
    }
  }

  lemma AttachInv(s: State, id: nat, from: nat)
    requires Exact(s) && Attentive(s) && Apart(s)
    ensures Exact(Next(s, Attach(id, from))) && Attentive(Next(s, Attach(id, from)))
  {
    if id !in s.attached && s.children != [] {
      var k := |s.children| - 1;
      var own := s.children[k].own;
      OpensUpToDate(s.file, |own|, from);
      assert s.file[..|own|] == own;
      var f := OpenAt(s.file, |own|, from);
      assert UpToDate(f, own) && Delivered(own, f.from, f.position, f.output);
      var s' := Next(s, Attach(id, from));
      assert s'.attached[id] == Attached(k, f.(done := s.children[k].exited));
      hide OpenAt, UpToDate, Delivered;
      forall other | other in s'.attached && other != id ensures other in s.attached {
      }
    }
  }

  lemma NextInv(s: State, l: Label)
    requires Inv(s)
    requires l.Start? ==> !MayStart(s) || forall k :: 0 <= k < |s.children| ==> !s.children[k].stdoutOpen
    requires l.FailedStart? ==> !MayStart(s) || s.file == []
    ensures Inv(Next(s, l))
  {
    match l {
      case Data(k, bytes) => DataInv(s, k, bytes);
      case Attach(id, from) => AttachInv(s, id, from);
      case Start => StartInv(s);
      case StdoutEnds(k) => StdoutEndsInv(s, k);
      case Exit(k) => ExitInv(s, k);
      case Close(id) => CloseInv(s, id);
      case FailedStart =>
    }
  }

  lemma StartInv(s: State)
    requires Inv(s) && (forall k :: 0 <= k < |s.children| ==> !s.children[k].stdoutOpen || !MayStart(s))
    ensures Inv(Next(s, Start))
  {
  }

  lemma StdoutEndsInv(s: State, k: nat)
    requires Inv(s)
    ensures Inv(Next(s, StdoutEnds(k)))
  {
    var s' := Next(s, StdoutEnds(k));
    assert |s'.children| == |s.children|;
    forall j | 0 <= j < |s.children|
      ensures s'.children[j].own == s.children[j].own && s'.children[j].exited == s.children[j].exited
      ensures !s.children[j].stdoutOpen ==> !s'.children[j].stdoutOpen
    {
    }
  }

  lemma ExitInv(s: State, k: nat)
    requires Inv(s)
    ensures Inv(Next(s, Exit(k)))
  {
    var s' := Next(s, Exit(k));
    assert |s'.children| == |s.children|;
    forall j | 0 <= j < |s.children|
      ensures s'.children[j].own == s.children[j].own && s'.children[j].stdoutOpen == s.children[j].stdoutOpen
      ensures j != k ==> s'.children[j] == s.children[j]
    {
    }
    forall id | id in s'.attached
      ensures id in s.attached && s'.attached[id].child == s.attached[id].child
      ensures s'.attached[id].follower == s.attached[id].follower.(done := s'.attached[id].follower.done)
      ensures !s'.attached[id].follower.done ==> s'.attached[id] == s.attached[id] && s.attached[id].child != k
    {
    }
  }

  lemma CloseInv(s: State, id: nat)
    requires Inv(s)
    ensures Inv(Next(s, Close(id)))
  {
  }

  // ---- Over whole runs ----

  /** Every start comes when all earlier children have ended their stdout, and a failed one when there was
      nothing to lose. */
  ghost predicate TimelyStarts(s: State, labels: seq<Label>)
    decreases |labels|
  {
    labels != [] ==>
      && (labels[0].Start? && MayStart(s) ==> forall k :: 0 <= k < |s.children| ==> !s.children[k].stdoutOpen)
      && (labels[0].FailedStart? && MayStart(s) ==> s.file == [])
      && TimelyStarts(Next(s, labels[0]), labels[1..])
  }

  lemma {:induction false} RunInv(s: State, labels: seq<Label>)
    requires Inv(s) && TimelyStarts(s, labels)
    ensures Inv(Run(s, labels))
    decreases |labels|
  {
    if labels != [] {
      NextInv(s, labels[0]);
      RunInv(Next(s, labels[0]), labels[1..]);
    }
  }

  /** With timely starts: over any run of starts, chunks, exits, attachments and closes, the file holds the
      current child's output, every attachment was exact, those that are open have all of it, and only the
      current child may still run. */
  lemma {:induction false} AlwaysExact(labels: seq<Label>)
    requires TimelyStarts(NOTHING_YET, labels)
    ensures var s := Run(NOTHING_YET, labels); Apart(s) && Exact(s) && Attentive(s)
  {
    RunInv(NOTHING_YET, labels);
  }

  /** The bytes a child writes in a run, while its stdout is open. */
  function ChildWrites(s: State, labels: seq<Label>, k: nat): seq<Byte>
    decreases |labels|
  {
    if labels == [] then []
    else
      (if labels[0].Data? && labels[0].child == k && k < |s.children| && s.children[k].stdoutOpen
       then labels[0].bytes else [])
      + ChildWrites(Next(s, labels[0]), labels[1..], k)
  }

  lemma TagAppend(k: nat, a: seq<Byte>, b: seq<Byte>)
    ensures TagAll(k, a + b) == TagAll(k, a) + TagAll(k, b)
  {
  }

  lemma WritesNext(s: State, l: Label, k: nat)
    ensures |s.children| <= |Next(s, l).children|
    ensures k < |s.children| ==>
              Next(s, l).children[k].own == s.children[k].own +
                if l.Data? && l.child == k && s.children[k].stdoutOpen then TagAll(k, l.bytes) else []
    ensures |s.children| <= k < |Next(s, l).children| ==> Next(s, l).children[k].own == []
  {
  }

  /** What is called a child's output is what it wrote: all of it, once and in order, before its exit or
      after, whatever else ran. */
  lemma {:induction false} OwnIsWritten(s: State, labels: seq<Label>, k: nat)
    requires k < |Run(s, labels).children|
    ensures Run(s, labels).children[k].own ==
            (if k < |s.children| then s.children[k].own else []) + TagAll(k, ChildWrites(s, labels, k))
    ensures forall i :: 0 <= i < |ChildWrites(s, labels, k)| ==>
              TagAll(k, ChildWrites(s, labels, k))[i] == Tagged(k, ChildWrites(s, labels, k)[i])
    ensures |TagAll(k, ChildWrites(s, labels, k))| == |ChildWrites(s, labels, k)|
    decreases |labels|
  {
    if labels != [] {
      WritesNext(s, labels[0], k);
      OwnIsWritten(Next(s, labels[0]), labels[1..], k);
      var first := if labels[0].Data? && labels[0].child == k && k < |s.children| && s.children[k].stdoutOpen
                   then labels[0].bytes else [];
      var rest := ChildWrites(Next(s, labels[0]), labels[1..], k);
      assert ChildWrites(s, labels, k) == first + rest;
      TagAppend(k, first, rest);
      hide Next, Run;
    }
  }

  /** Once a child's stdout ended, it has written all it ever does. */
  lemma {:induction false} StdoutEnded(s: State, k: nat, labels: seq<Label>)
    requires k < |s.children|
    ensures var r := Run(Next(s, StdoutEnds(k)), labels); k < |r.children| && r.children[k].own == s.children[k].own
  {
    EndedForever(Next(s, StdoutEnds(k)), k, labels);
  }

  lemma {:induction false} EndedForever(s: State, k: nat, labels: seq<Label>)
    requires k < |s.children| && !s.children[k].stdoutOpen
    ensures k < |Run(s, labels).children| && Run(s, labels).children[k].own == s.children[k].own
    decreases |labels|
  {
    if labels != [] {
      EndedForever(Next(s, labels[0]), k, labels[1..]);
    }
  }

  /** A close ends its attachment, which keeps what it has through everything after. */
  lemma {:induction false} CloseEnds(s: State, id: nat, labels: seq<Label>)
    requires id in s.attached
    ensures var a, r := s.attached[id], Run(Next(s, Close(id)), labels);
            id in r.attached && r.attached[id] == Done(a)
  {
    DoneForever(Next(s, Close(id)), id, labels);
  }

  lemma {:induction false} DoneForever(s: State, id: nat, labels: seq<Label>)
    requires id in s.attached && s.attached[id].follower.done
    ensures id in Run(s, labels).attached && Run(s, labels).attached[id] == s.attached[id]
    decreases |labels|
  {
    if labels != [] {
      DoneForever(Next(s, labels[0]), id, labels[1..]);
    }
  }

  /** An exit ends the attachments to its child, each with all the child wrote from its start on. */
  lemma {:induction false} ExitDelivers(s: State, id: nat)
    requires Inv(s) && id in s.attached && !s.attached[id].follower.done
    ensures var a, s' := s.attached[id], Next(s, Exit(s.attached[id].child));
            && a.child < |s.children| && id in s'.attached && s'.attached[id].follower.done
            && s'.children[a.child].exited
            && s'.attached[id].follower.output == Tail(s.children[a.child].own, a.follower.from)
  {
  }

  function Legs(s: State, ids: seq<nat>): seq<Leg<Tagged>>
    requires forall i :: 0 <= i < |ids| ==> ids[i] in s.attached
  {
    seq(|ids|, i requires 0 <= i < |ids| =>
      var f := s.attached[ids[i]].follower; Leg(f.from, f.position, f.output))
  }

  /** Exactly once across handovers: however attachments to one child were opened, fed, closed and opened
      again, those that each started where the one before it stands took its output once, from the first
      one's start to the last one's position. */
  lemma {:induction false} HandoversExactlyOnce(labels: seq<Label>, ids: seq<nat>)
    requires TimelyStarts(NOTHING_YET, labels) && ids != []
    requires var s := Run(NOTHING_YET, labels);
             && ids[0] in s.attached
             && (forall i :: 0 <= i < |ids| ==>
                   ids[i] in s.attached && s.attached[ids[i]].child == s.attached[ids[0]].child)
             && (forall i :: 0 < i < |ids| ==>
                   s.attached[ids[i]].follower.from == s.attached[ids[i - 1]].follower.position)
    ensures var s := Run(NOTHING_YET, labels);
            var first, last := s.attached[ids[0]], s.attached[ids[|ids| - 1]];
            && first.child < |s.children|
            && Delivered(s.children[first.child].own,
                         first.follower.from, last.follower.position, LegBytes(Legs(s, ids)))
  {
    AlwaysExact(labels);
    var s := Run(NOTHING_YET, labels);
    ChainDelivers(Legs(s, ids), s.children[s.attached[ids[0]].child].own);
  }

  // ---- Exactly when ----

  /** A start that has just spawned its child. */
  ghost predicate JustStarted(s: State) {
    && s.children != [] && s.children[|s.children| - 1] == Child([], false, true)
    && s.file == [] && Exact(s) && Attentive(s)
  }

  ghost predicate NoStart(labels: seq<Label>) {
    forall i :: 0 <= i < |labels| ==> !IsStart(labels[i])
  }

  lemma {:induction false} QuietTimely(s: State, labels: seq<Label>)
    requires NoStart(labels)
    ensures TimelyStarts(s, labels)
    decreases |labels|
  {
    if labels != [] {
      assert !IsStart(labels[0]);
      assert forall i :: 0 <= i < |labels[1..]| ==> labels[1..][i] == labels[i + 1];
      QuietTimely(Next(s, labels[0]), labels[1..]);
    }
  }

  lemma {:induction false} Then(s: State, labels: seq<Label>, l: Label)
    ensures Run(s, labels + [l]) == Next(Run(s, labels), l)
    decreases |labels|
  {
    hide Next;
    if labels == [] {
      assert Run(Next(s, l), [l][1..]) == Next(s, l);
    } else {
      Then(Next(s, labels[0]), labels[1..], l);
      assert (labels + [l])[1..] == labels[1..] + [l];
    }
  }

  /** An earlier child that is still writing: its next bytes go into the new child's file, and an attachment
      then delivers them as the new child's. */
  lemma {:induction false} LateOutputSpoils(s: State, late: nat, id: nat, x: Byte, y: Byte)
      returns (mixing: seq<Label>, spoiling: seq<Label>)
    requires JustStarted(s) && late < |s.children| - 1 && s.children[late].stdoutOpen && id !in s.attached
    ensures NoStart(mixing) && !Apart(Run(s, mixing))
    ensures NoStart(spoiling) && !Exact(Run(s, spoiling))
  {
    var k := |s.children| - 1;
    mixing := [] + [Data(late, [x])];
    Then(s, [], Data(late, [x]));
    LateBytes(s, late, x);
    spoiling := mixing + [Data(k, [y])];
    Then(s, mixing, Data(k, [y]));
    OwnBytes(Run(s, mixing), late, x, y);
    Then(s, spoiling, Attach(id, 0));
    WrongByte(Run(s, spoiling), late, id, x, y);
    spoiling := spoiling + [Attach(id, 0)];
  }

  lemma LateBytes(s: State, late: nat, x: Byte)
    requires JustStarted(s) && late < |s.children| - 1 && s.children[late].stdoutOpen
    ensures var s1 := Next(s, Data(late, [x]));
            && s1.file == [Tagged(late, x)] && |s1.children| == |s.children| && s1.attached.Keys == s.attached.Keys
            && s1.children[|s.children| - 1] == Child([], false, true) && !Apart(s1)
  {
    assert TagAll(late, [x]) == [Tagged(late, x)];
  }

  lemma OwnBytes(s1: State, late: nat, x: Byte, y: Byte)
    requires s1.children != [] && s1.file == [Tagged(late, x)]
    requires s1.children[|s1.children| - 1] == Child([], false, true)
    ensures var k := |s1.children| - 1;
            var s2 := Next(s1, Data(k, [y]));
            && s2.file == [Tagged(late, x), Tagged(k, y)] && |s2.children| == |s1.children|
            && s2.attached.Keys == s1.attached.Keys && s2.children[k] == Child([Tagged(k, y)], false, true)
  {
    assert TagAll(|s1.children| - 1, [y]) == [Tagged(|s1.children| - 1, y)];
  }

  lemma WrongByte(s2: State, late: nat, id: nat, x: Byte, y: Byte)
    requires s2.children != [] && late < |s2.children| - 1 && id !in s2.attached
    requires s2.file == [Tagged(late, x), Tagged(|s2.children| - 1, y)]
    requires s2.children[|s2.children| - 1] == Child([Tagged(|s2.children| - 1, y)], false, true)
    ensures !Exact(Next(s2, Attach(id, 0)))
  {
    var k := |s2.children| - 1;
    var s3 := Next(s2, Attach(id, 0));
    assert s2.file[0..1] == [Tagged(late, x)];
    assert s3.attached[id] == Attached(k, Follower(0, 1, [Tagged(late, x)], false));
    assert [Tagged(k, y)][0..1] == [Tagged(k, y)] != [Tagged(late, x)];
    assert !Delivered(s3.children[k].own, 0, 1, [Tagged(late, x)]);
  }

  lemma {:induction false} FreshId(used: set<nat>) returns (id: nat)
    ensures id !in used && forall n :: n in used ==> n < id
  {
    if used == {} {
      id := 0;
    } else {
      var n :| n in used;
      var rest := FreshId(used - {n});
      id := if rest <= n then n + 1 else rest;
      assert forall m :: m in used ==> m == n || m in used - {n};
    }
  }

  /** Truncating in place, exactly: whatever comes after a start and before the next, failed or not, the file
      holds its child's output only (and every attachment is exact) iff each earlier child had ended its stdout
      when it came. */
  lemma {:induction false} StartKeepsApartIff(s: State)
    requires JustStarted(s)
    ensures (forall labels :: NoStart(labels) ==> Apart(Run(s, labels))) <==> EarlierEnded(s)
    ensures (forall labels :: NoStart(labels) ==> Exact(Run(s, labels))) <==> EarlierEnded(s)
  {
    if EarlierEnded(s) {
      forall labels | NoStart(labels) ensures Apart(Run(s, labels)) && Exact(Run(s, labels)) {
        QuietTimely(s, labels);
        RunInv(s, labels);
      }
    } else {
      var late :| 0 <= late < |s.children| - 1 && s.children[late].stdoutOpen;
      var id := FreshId(s.attached.Keys);
      var mixing, spoiling := LateOutputSpoils(s, late, id, 0, 0);
    }
  }

  /** And a start does come that early: `exit` may be reported before the last output. */
  lemma EarlyStart() returns (labels: seq<Label>)
    ensures JustStarted(Run(NOTHING_YET, labels)) && !EarlierEnded(Run(NOTHING_YET, labels))
  {
    labels := [Start, Exit(0), Start];
    var s1 := Next(NOTHING_YET, Start);
    var s2 := Next(s1, Exit(0));
    var s3 := Next(s2, Start);
    assert labels[1..] == [Exit(0), Start] && labels[1..][1..] == [Start];
    assert Run(s3, [Start][1..]) == s3;
    assert s3.children[0].stdoutOpen;
  }

  // ---- A start whose spawn fails ----

  /** Whoever attaches now, from any offset, gets at once all the current child wrote from there. */
  ghost predicate Serves(s: State) {
    forall id: nat, from: nat :: id !in s.attached && s.children != [] ==>
      Served(s, Next(s, Attach(id, from)), id, from)
  }

  /** The attachment is to the current child, from the offset asked for, and up to date. */
  ghost predicate Served(s: State, s': State, id: nat, from: nat)
    requires s.children != []
  {
    && id in s'.attached && s'.attached[id].child == |s.children| - 1 && s'.attached[id].follower.from == from
    && UpToDate(s'.attached[id].follower, s.children[|s.children| - 1].own)
  }

  lemma InvServes(s: State)
    requires Inv(s)
    ensures Serves(s)
  {
    forall id: nat, from: nat | id !in s.attached && s.children != []
      ensures Served(s, Next(s, Attach(id, from)), id, from)
    {
      var own := s.children[|s.children| - 1].own;
      OpensUpToDate(s.file, |own|, from);
      assert s.file[..|own|] == own;
    }
  }

  lemma EmptiedServesNot(s: State)
    requires s.children != [] && s.file == [] && s.children[|s.children| - 1].own != []
    ensures !Serves(s)
  {
    var id := FreshId(s.attached.Keys);
    var f := Next(s, Attach(id, 0)).attached[id].follower;
    assert f.output == [];
    assert Served(s, Next(s, Attach(id, 0)), id, 0) ==> UpToDate(f, s.children[|s.children| - 1].own);
    assert Tail(s.children[|s.children| - 1].own, 0) == s.children[|s.children| - 1].own;
  }

  /** Nothing is written any more: attachments may get too little, but nothing wrong. */
  ghost predicate Silent(s: State) {
    && s.children != [] && s.file == [] && Exact(s)
    && forall k :: 0 <= k < |s.children| ==> !s.children[k].stdoutOpen
  }

  lemma SilentAttach(s: State, id: nat, from: nat)
    requires Silent(s)
    ensures Silent(Next(s, Attach(id, from)))
  {
  }

  lemma SilentExit(s: State, k: nat)
    requires Silent(s)
    ensures Silent(Next(s, Exit(k)))
  {
    var s' := Next(s, Exit(k));
    forall j | 0 <= j < |s.children|
      ensures s'.children[j].own == s.children[j].own && s'.children[j].stdoutOpen == s.children[j].stdoutOpen
    {
    }
  }

  lemma SilentNext(s: State, l: Label)
    requires Silent(s) && !IsStart(l)
    ensures Silent(Next(s, l))
  {
    match l {
      case Attach(id, from) => SilentAttach(s, id, from);
      case Exit(k) => SilentExit(s, k);
      case Data(k, bytes) => assert Next(s, l) == s;
      case StdoutEnds(k) => assert k < |s.children| ==> s.children[k := s.children[k]] == s.children;
      case Close(id) =>
    }
  }

  lemma {:induction false} SilentRun(s: State, labels: seq<Label>)
    requires Silent(s) && NoStart(labels)
    ensures Exact(Run(s, labels))
    decreases |labels|
  {
    hide Silent, Next, Exact;
    if labels == [] {
      assert Exact(s) by { SilentExact(s); }
    } else {
      assert !IsStart(labels[0]);
      assert forall i :: 0 <= i < |labels[1..]| ==> labels[1..][i] == labels[i + 1];
      SilentNext(s, labels[0]);
      SilentRun(Next(s, labels[0]), labels[1..]);
    }
  }

  lemma SilentExact(s: State)
    requires Silent(s)
    ensures Exact(s)
  {
  }

  /** The child goes on writing into the emptied file: an attachment takes its next byte for its first. */
  lemma {:induction false} EmptiedSpoils(s: State) returns (labels: seq<Label>)
    requires s.children != [] && s.file == [] && s.children[|s.children| - 1].own != []
    requires s.children[|s.children| - 1].stdoutOpen
    ensures NoStart(labels) && !Exact(Run(s, labels))
  {
    var k := |s.children| - 1;
    var own := s.children[k].own;
    var x: Byte := if own[0].byte == 0 then 1 else 0;
    var s1 := Next(s, Data(k, [x]));
    assert TagAll(k, [x]) == [Tagged(k, x)];
    assert s1.file == [Tagged(k, x)] && s1.children[k].own == own + [Tagged(k, x)] && |s1.children| == |s.children|;
    var id := FreshId(s1.attached.Keys);
    labels := [] + [Data(k, [x])] + [Attach(id, 0)];
    Then(s, [], Data(k, [x]));
    Then(s, [] + [Data(k, [x])], Attach(id, 0));
    hide Run;
    var s2 := Next(s1, Attach(id, 0));
    assert s1.file[0..1] == [Tagged(k, x)];
    assert s2.attached[id].child == k && s2.children == s1.children;
    assert s2.attached[id].follower.output == [Tagged(k, x)];
    assert s2.children[k].own[0..1][0] == own[0] != Tagged(k, x);
    assert s2.attached[id].follower.position == 1;
  }

  /** A start whose spawn fails has emptied the output of the run before it. Whatever comes until the next
      start, each attachment still gets all it is owed iff there was nothing in that output; and none gets a
      wrong byte iff there was nothing, or nothing more comes. */
  lemma {:induction false} FailedStartLosesIff(s: State)
    requires Inv(s) && MayStart(s) && s.children != []
    ensures (forall labels :: NoStart(labels) ==> Serves(Run(Next(s, FailedStart), labels))) <==> s.file == []
    ensures (forall labels :: NoStart(labels) ==> Exact(Run(Next(s, FailedStart), labels))) <==>
              s.file == [] || !s.children[|s.children| - 1].stdoutOpen
  {
    var t := Next(s, FailedStart);
    assert t == s.(file := []);
    if s.file == [] {
      assert Inv(t);
      hide Inv, Next, Exact, Serves;
      forall labels | NoStart(labels) ensures Serves(Run(t, labels)) && Exact(Run(t, labels)) {
        QuietTimely(t, labels);
        RunInv(t, labels);
        InvServes(Run(t, labels));
        InvExact(Run(t, labels));
      }
    } else {
      EmptiedServesNot(t);
      assert Run(t, []) == t && NoStart([]);
      hide Next, Serves, Run;
      if s.children[|s.children| - 1].stdoutOpen {
        var labels := EmptiedSpoils(t);
      } else {
        assert Silent(t);
        forall labels | NoStart(labels) ensures Exact(Run(t, labels)) {
          SilentRun(t, labels);
        }
      }
    }
  }

  lemma InvExact(s: State)
    requires Inv(s)
    ensures Exact(s)
  {
  }

  /** Both do happen: the first attachment gets nothing of what the child wrote, and once the child wrote more
      a second one, from behind the first two bytes, gets the last two of six and not the four it is owed. */
  lemma {:induction false} FailedStartLoses() returns (before: seq<Label>, first: seq<Label>, second: seq<Label>)
    ensures var s := Run(NOTHING_YET, before);
            Inv(s) && MayStart(s) && s.children != [] && s.children[0].stdoutOpen && s.file == TagAll(0, [1, 2])
    ensures first == before + [FailedStart] + [Attach(1, 0)]
    ensures second == before + [FailedStart] + [Data(0, [3, 4, 5, 6])] + [Attach(1, 2)]
    ensures var s := Run(NOTHING_YET, first);
            && 1 in s.attached && s.attached[1].child == 0 && s.attached[1].follower.output == []
            && s.children != [] && Tail(s.children[0].own, 0) == TagAll(0, [1, 2])
    ensures var s := Run(NOTHING_YET, second);
            && 1 in s.attached && s.attached[1].child == 0 && s.attached[1].follower.output == TagAll(0, [5, 6])
            && s.children != [] && Tail(s.children[0].own, 2) == TagAll(0, [3, 4, 5, 6])
  {
    var started := [] + [Start] + [Data(0, [1, 2])];
    before := started + [Exit(0)];
    first := before + [FailedStart] + [Attach(1, 0)];
    second := before + [FailedStart] + [Data(0, [3, 4, 5, 6])] + [Attach(1, 2)];
    assert Run(NOTHING_YET, []) == NOTHING_YET;
    Then(NOTHING_YET, [], Start);
    Then(NOTHING_YET, [] + [Start], Data(0, [1, 2]));
    Then(NOTHING_YET, started, Exit(0));
    Then(NOTHING_YET, before, FailedStart);
    Then(NOTHING_YET, before + [FailedStart], Attach(1, 0));
    Then(NOTHING_YET, before + [FailedStart], Data(0, [3, 4, 5, 6]));
    Then(NOTHING_YET, before + [FailedStart] + [Data(0, [3, 4, 5, 6])], Attach(1, 2));
    hide Run;
    var own, more := TagAll(0, [1, 2]), TagAll(0, [3, 4, 5, 6]);
    var s2 := Run(NOTHING_YET, started);
    assert s2 == State(own, [Child(own, false, true)], map[]) by { assert [] + own == own; }
    var s3 := Run(NOTHING_YET, before);
    assert s3 == State(own, [Child(own, true, true)], map[]);
    var s5 := Run(NOTHING_YET, before + [FailedStart] + [Data(0, [3, 4, 5, 6])]);
    assert s5 == State(more, [Child(own + more, true, true)], map[]) by { assert [] + more == more; }
    assert more[2..4] == TagAll(0, [5, 6]);
    assert (own + more)[2..] == more;
    assert own[0..] == own;
  }
}
