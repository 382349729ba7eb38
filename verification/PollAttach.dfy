/** An attachment that polls the files another process writes (packages/container-runtime/src/fake.ts:457-543).

    The agent is a process of its own: it appends output, writes its exit file only after its last byte,
    and dies. Every file or process query of the attachment is a step of its own, so the agent's steps
    (and the clock's) fall anywhere between them; only `close` waits for the current tick to return. */
module PollAttach {
  import opened RunSpec

  /** The exit file: absent, there without a readable code yet, or holding the agent's code. */
  datatype ExitFile = Absent | Unreadable | Code(code: int)

  /** The run directory and the agent's process. `published`: the agent wrote its pid file. `recycled`: the
      dead agent's pid is another process's. */
  datatype World = World(
    output: seq<Byte>, exit: ExitFile, alive: bool, published: bool, recycled: bool, now: nat)

  datatype EnvStep =
    | Publish
    | Append(bytes: seq<Byte>)
    | OpenExit
    | WriteExit(code: int)
    | Die
    | Recycle(taken: bool)
    | Elapse(ms: nat)

  /** One step outside the attachment; a step the agent cannot take now changes nothing. */
  function EnvNext(w: World, e: EnvStep): World {
    match e
    case Publish => if w.alive then w.(published := true) else w
    case Append(bytes) => if w.alive && w.exit.Absent? then w.(output := w.output + bytes) else w
    case OpenExit => if w.alive && w.exit.Absent? then w.(exit := Unreadable) else w
    case WriteExit(code) => if w.alive && !w.exit.Code? then w.(exit := Code(code)) else w
    case Die => w.(alive := false)
    case Recycle(taken) => if w.alive then w else w.(recycled := taken)
    case Elapse(ms) => w.(now := w.now + ms)
  }

  function EnvRun(w: World, steps: seq<EnvStep>): World
    decreases |steps|
  {
    if steps == [] then w else EnvRun(EnvNext(w, steps[0]), steps[1..])
  }

  /** `runPid`: a pid file, whose process is the one that wrote it. */
  predicate RunPid(w: World) { w.alive && w.published }

  /** The agent wrote its pid file, if it lives: a start reports a run only then. */
  predicate Published(w: World) { w.alive ==> w.published }

  /** `pidAlive`: some process answers to the pid. */
  predicate PidAlive(w: World) { w.alive || w.recycled }

  /** Where a pump goes on to. */
  datatype After = ExitCheck | ReadCode | GiveUp

  /** What the attachment does next. */
  datatype Pc =
    | ReadPid
    | EntryCheck
    | Waiting
    | Stat(after: After)
    | Read(after: After, size: nat)
    | At(after: After)
    | Liveness
    | FirstClock
    | SecondClock
    | Ended

  /** `noticed`: this tick is the one that first found the agent dead; `waited`: what the last grace
      check measured. Both only record what happened. */
  datatype Attachment = Attachment(
    pc: Pc,
    hasPid: bool,
    offset: nat,
    delivered: seq<Byte>,
    deadSince: Option<nat>,
    verdict: Option<RunExit>,
    noticed: bool,
    waited: int)

  datatype State = State(w: World, from: nat, grace: nat, a: Attachment)

  datatype Label = Env(step: EnvStep) | Own | Close

  function Attach(w: World, fromByte: int, grace: nat): State {
    var from := if fromByte < 0 then 0 else fromByte;
    State(w, from, grace, Attachment(ReadPid, false, from, [], None, None, false, 0))
  }

  function EndWith(a: Attachment, verdict: RunExit): Attachment {
    a.(pc := Ended, verdict := Some(verdict))
  }

  function PumpRead(w: World, a: Attachment, size: nat, after: After): Attachment
    requires size <= |w.output|
  {
    if size > a.offset
    then a.(pc := At(after), delivered := a.delivered + w.output[a.offset..size], offset := size)
    else a.(pc := At(after))
  }

  /** The attachment's next query and what it does with the answer. */
  function OwnNext(s: State): Attachment
    requires s.a.pc.Read? ==> s.a.pc.size <= |s.w.output|
    requires s.a.pc.SecondClock? ==> s.a.deadSince.Some?
  {
    var a, w := s.a, s.w;
    match a.pc
    case ReadPid => a.(pc := EntryCheck, hasPid := RunPid(w))
    case EntryCheck => if !a.hasPid && w.exit.Absent? then EndWith(a, Lost) else a.(pc := Waiting)
    case Waiting => a.(pc := Stat(ExitCheck), noticed := false)
    case Stat(after) => a.(pc := Read(after, |w.output|))
    case Read(after, size) => PumpRead(w, a, size, after)
    case At(ExitCheck) => if w.exit.Absent? then a.(pc := Liveness) else a.(pc := Stat(ReadCode))
    case At(ReadCode) => if w.exit.Code? then EndWith(a, Exited(w.exit.code)) else a.(pc := Liveness)
    case Liveness => if !a.hasPid || !PidAlive(w) then a.(pc := FirstClock) else a.(pc := Waiting)
    case FirstClock =>
      if a.deadSince.None? then a.(pc := SecondClock, deadSince := Some(w.now), noticed := true)
      else a.(pc := SecondClock)
    case SecondClock =>
      var waited := w.now - a.deadSince.value;
      if waited > s.grace then a.(pc := Stat(GiveUp), waited := waited) else a.(pc := Waiting, waited := waited)
    case At(GiveUp) => EndWith(a, Lost)
    case Ended => a
  }

  function Next(s: State, l: Label): State
    requires Runnable(s)
  {
    match l
    case Env(e) => s.(w := EnvNext(s.w, e))
    case Own => s.(a := OwnNext(s))
    case Close => if s.a.pc.Waiting? then s.(a := EndWith(s.a, Detached(Closed))) else s
  }

  predicate Runnable(s: State) {
    && (s.a.pc.Read? ==> s.a.pc.size <= |s.w.output|)
    && (s.a.pc.SecondClock? ==> s.a.deadSince.Some?)
  }

  lemma NextRunnable(s: State, l: Label)
    requires Runnable(s)
    ensures Runnable(Next(s, l))
  {
  }

  function Run(s: State, labels: seq<Label>): (r: State)
    requires Runnable(s)
    ensures Runnable(r)
    decreases |labels|
  {
    if labels == [] then s
    else
      NextRunnable(s, labels[0]);
      Run(Next(s, labels[0]), labels[1..])
  }

  // ---- What holds in every state ----

  /** Exactly `output[from..offset]`. */
  ghost predicate Exact(s: State) {
    Delivered(s.w.output, s.from, s.a.offset, s.a.delivered)
  }

  ghost predicate Drained(s: State) { s.a.delivered == Tail(s.w.output, s.from) }

  ghost predicate GivingUp(pc: Pc) {
    pc in {Stat(GiveUp), At(GiveUp)} || (pc.Read? && pc.after.GiveUp?)
  }

  /** Before the liveness check of a tick. */
  ghost predicate BeforeLiveness(pc: Pc) {
    || pc in {Waiting, Stat(ExitCheck), At(ExitCheck), Stat(ReadCode), At(ReadCode)}
    || (pc.Read? && !pc.after.GiveUp?)
  }

  ghost predicate PcInv(s: State) {
    var a, w := s.a, s.w;
    match a.pc
    case Stat(ReadCode) => !w.exit.Absent?
    case Stat(GiveUp) => !w.alive
    case Read(ExitCheck, size) => size <= |w.output|
    case Read(ReadCode, size) => !w.exit.Absent? && size == |w.output|
    case Read(GiveUp, size) => !w.alive && size == |w.output|
    case At(ReadCode) => !w.exit.Absent? && a.offset >= |w.output|
    case At(GiveUp) => !w.alive && a.offset >= |w.output|
    case FirstClock => !w.alive
    case SecondClock => a.deadSince.Some?
    case Ended => EndInv(s)
    case _ => true
  }

  ghost predicate EndInv(s: State) {
    var a, w := s.a, s.w;
    match a.verdict
    case None => false
    case Some(Exited(code)) => w.exit == Code(code) && Drained(s)
    case Some(Lost) =>
      && !w.alive
      && (a.deadSince.None? ==> a.delivered == [] && w.exit.Absent?)
      && (a.deadSince.Some? ==> Drained(s))
      && (w.exit.Code? ==> a.noticed && a.waited > s.grace)
    case Some(Detached(reason)) => reason.Closed?
  }

  ghost predicate Inv(s: State) {
    var a, w := s.a, s.w;
    && Exact(s)
    && PcInv(s)
    && Published(w)
    && (a.pc.Ended? <==> a.verdict.Some?)
    && (a.deadSince.Some? ==> !w.alive && a.deadSince.value <= w.now)
    && (!a.hasPid && !a.pc.ReadPid? ==> !w.alive)
    && (a.pc in {ReadPid, EntryCheck} ==> a.deadSince.None? && a.delivered == [])
    && (GivingUp(a.pc) ==> a.deadSince.Some? && a.waited > s.grace)
    // An agent found dead by an earlier tick, with its code recorded: this tick stops at the exit check.
    && (a.deadSince.Some? && !a.noticed && w.exit.Code? ==>
          BeforeLiveness(a.pc) || (a.pc.Ended? && a.verdict != Some(Lost)))
  }

  lemma AttachInv(w: World, fromByte: int, grace: nat)
    requires Published(w)
    ensures Inv(Attach(w, fromByte, grace)) && Runnable(Attach(w, fromByte, grace))
  {
  }

  lemma EnvInv(s: State, e: EnvStep)
    requires Inv(s)
    ensures Inv(s.(w := EnvNext(s.w, e)))
  {
  }

  lemma PumpInv(s: State)
    requires Inv(s) && Runnable(s) && s.a.pc.Read?
    ensures Inv(s.(a := OwnNext(s)))
  {
    var a, w := s.a, s.w;
    if a.pc.size > a.offset {
      assert w.output[s.from..a.offset] + w.output[a.offset..a.pc.size] == w.output[s.from..a.pc.size];
    }
  }

  lemma OwnInv(s: State)
    requires Inv(s) && Runnable(s)
    ensures Inv(s.(a := OwnNext(s)))
  {
    match s.a.pc {
      case Read(_, _) => PumpInv(s);
      case At(_) => AtInv(s);
      case _ =>
    }
  }

  lemma AtInv(s: State)
    requires Inv(s) && s.a.pc.At?
    ensures Inv(s.(a := OwnNext(s)))
  {
  }

  lemma NextInv(s: State, l: Label)
    requires Inv(s) && Runnable(s)
    ensures Inv(Next(s, l))
  {
    match l {
      case Env(e) => EnvInv(s, e);
      case Own => OwnInv(s);
      case Close =>
    }
  }

  lemma {:induction false} RunInv(s: State, labels: seq<Label>)
    requires Inv(s) && Runnable(s)
    ensures Inv(Run(s, labels))
    decreases |labels|
  {
    if labels != [] {
      NextInv(s, labels[0]);
      RunInv(Next(s, labels[0]), labels[1..]);
    }
  }

  // ---- No lost or torn tail ----

  /** Under every interleaving: the stream is `output[from..offset]` at all times, and an attachment that
      reported `exited` delivered the whole file from `from` on, with the code the agent recorded. */
  lemma {:induction false} NoLostOrTornTail(w: World, fromByte: int, grace: nat, labels: seq<Label>)
    requires Published(w)
    ensures var start := Attach(w, fromByte, grace);
            Runnable(start) &&
            var s := Run(start, labels);
            && s.from == (if fromByte < 0 then 0 else fromByte)
            && Exact(s)
            && (forall code :: s.a.verdict == Some(Exited(code)) ==>
                  s.w.exit == Code(code) && s.a.delivered == Tail(s.w.output, s.from))
            && (s.a.verdict == Some(Lost) ==>
                  !s.w.alive && (s.a.deadSince.Some? ==> s.a.delivered == Tail(s.w.output, s.from)))
  {
    AttachInv(w, fromByte, grace);
    RunInv(Attach(w, fromByte, grace), labels);
    RunKeepsFrom(Attach(w, fromByte, grace), labels);
  }

  /** One attachment of a chain: what befell the run before it, and what happened while it was open. */
  datatype Turn = Turn(before: seq<EnvStep>, labels: seq<Label>)

  lemma NotReading(s: State)
    requires s.a.pc.ReadPid?
    ensures Runnable(s)
  {
  }

  /** What one turn of a chain leaves. */
  function TurnEnd(w: World, fromByte: nat, grace: nat, turn: Turn): State {
    var start := Attach(EnvRun(w, turn.before), fromByte, grace);
    NotReading(start);
    Run(start, turn.labels)
  }

  /** A chain of attachments to one run, each opened where the one before it stood when it was left. */
  function Turns(w: World, fromByte: nat, grace: nat, turns: seq<Turn>): seq<State>
    decreases |turns|
  {
    if turns == [] then []
    else
      var s := TurnEnd(w, fromByte, grace, turns[0]);
      [s] + Turns(s.w, s.a.offset, grace, turns[1..])
  }

  function TurnLegs(states: seq<State>): seq<Leg<Byte>> {
    if states == [] then []
    else [Leg(states[0].from, states[0].a.offset, states[0].a.delivered)] + TurnLegs(states[1..])
  }

  lemma {:induction false} OutputGrows(w: World, steps: seq<EnvStep>)
    ensures w.output <= EnvRun(w, steps).output && (Published(w) ==> Published(EnvRun(w, steps)))
    decreases |steps|
  {
    if steps != [] {
      OutputGrows(EnvNext(w, steps[0]), steps[1..]);
    }
  }

  lemma {:induction false} RunGrows(s: State, labels: seq<Label>)
    requires Runnable(s)
    ensures s.w.output <= Run(s, labels).w.output
    decreases |labels|
  {
    if labels != [] {
      NextRunnable(s, labels[0]);
      RunGrows(Next(s, labels[0]), labels[1..]);
    }
  }

  lemma {:induction false} TurnOk(w: World, fromByte: nat, grace: nat, turn: Turn)
    requires Published(w)
    ensures var s := TurnEnd(w, fromByte, grace, turn);
            && Published(s.w) && w.output <= s.w.output && s.from == fromByte
            && Delivered(s.w.output, s.from, s.a.offset, s.a.delivered)
  {
    var w1 := EnvRun(w, turn.before);
    var start := Attach(w1, fromByte, grace);
    OutputGrows(w, turn.before);
    AttachInv(w1, fromByte, grace);
    RunInv(start, turn.labels);
    RunKeepsFrom(start, turn.labels);
    RunGrows(start, turn.labels);
    hide Run, EnvRun;
  }

  /** The legs of a chain are chained, and exact against whatever the file holds at its end or later. */
  lemma {:induction false} TurnsExact(w: World, fromByte: nat, grace: nat, turns: seq<Turn>)
    requires Published(w) && turns != []
    ensures var states := Turns(w, fromByte, grace, turns);
            var legs := TurnLegs(states);
            && |legs| == |states| == |turns| && legs[0].from == fromByte && Chained(legs)
            && legs[|legs| - 1].to == states[|states| - 1].a.offset
            && w.output <= states[|states| - 1].w.output
            && forall i :: 0 <= i < |legs| ==>
                 Delivered(states[|states| - 1].w.output, legs[i].from, legs[i].to, legs[i].bytes)
    decreases |turns|
  {
    var s := TurnEnd(w, fromByte, grace, turns[0]);
    var later := Turns(s.w, s.a.offset, grace, turns[1..]);
    TurnOk(w, fromByte, grace, turns[0]);
    assert Turns(w, fromByte, grace, turns) == [s] + later;
    TurnsCount(later);
    if turns[1..] == [] {
      assert later == [];
      hide TurnEnd, Delivered, Published;
    } else {
      hide Turns, TurnEnd, Published, Delivered;
      TurnsExact(s.w, s.a.offset, grace, turns[1..]);
      var end := later[|later| - 1].w.output;
      DeliveredGrows(s.w.output, end[|s.w.output|..], s.from, s.a.offset, s.a.delivered);
      assert s.w.output + end[|s.w.output|..] == end;
      ConsLegs(s, later, end);
    }
  }

  lemma {:induction false} TurnsCount(states: seq<State>)
    ensures |TurnLegs(states)| == |states|
  {
    if states != [] {
      TurnsCount(states[1..]);
    }
  }

  lemma ConsLegs(s: State, later: seq<State>, end: seq<Byte>)
    requires later != [] && |TurnLegs(later)| == |later| && Chained(TurnLegs(later))
    requires TurnLegs(later)[0].from == s.a.offset
    requires Delivered(end, s.from, s.a.offset, s.a.delivered)
    requires forall i :: 0 <= i < |later| ==>
               Delivered(end, TurnLegs(later)[i].from, TurnLegs(later)[i].to, TurnLegs(later)[i].bytes)
    ensures var legs := TurnLegs([s] + later);
            && |legs| == |later| + 1 && legs[0] == Leg(s.from, s.a.offset, s.a.delivered)
            && legs[|legs| - 1] == TurnLegs(later)[|later| - 1] && Chained(legs)
            && forall i :: 0 <= i < |legs| ==> Delivered(end, legs[i].from, legs[i].to, legs[i].bytes)
  {
    assert ([s] + later)[1..] == later;
    var legs := TurnLegs([s] + later);
    assert legs == [Leg(s.from, s.a.offset, s.a.delivered)] + TurnLegs(later);
    assert forall i :: 0 < i < |legs| ==> legs[i] == TurnLegs(later)[i - 1];
  }

  /** Exactly once across handovers: however many attachments take turns on a run, whatever the agent does
      and wherever each is left, together they delivered the output from the first one's start to the last
      one's position. */
  lemma {:induction false} HandoversExactlyOnce(w: World, fromByte: nat, grace: nat, turns: seq<Turn>)
    requires Published(w) && turns != []
    ensures var states := Turns(w, fromByte, grace, turns);
            && states != []
            && var end := states[|states| - 1];
               Delivered(end.w.output, fromByte, end.a.offset, LegBytes(TurnLegs(states)))
  {
    TurnsExact(w, fromByte, grace, turns);
    var states := Turns(w, fromByte, grace, turns);
    ChainDelivers(TurnLegs(states), states[|states| - 1].w.output);
  }

  lemma {:induction false} RunKeepsFrom(s: State, labels: seq<Label>)
    requires Runnable(s)
    ensures Run(s, labels).from == s.from && Run(s, labels).grace == s.grace
    decreases |labels|
  {
    if labels != [] {
      NextRunnable(s, labels[0]);
      RunKeepsFrom(Next(s, labels[0]), labels[1..]);
    }
  }

  /** A tick's first pump catches up: what the file held when the tick looked is delivered, whatever is
      appended before the bytes are read. */
  lemma {:induction false} TickCatchesUp(s: State, more: seq<Byte>)
    requires Inv(s) && Runnable(s) && s.a.pc.Waiting?
    ensures var looked := Next(Next(s, Own), Own);
            Runnable(looked) &&
            var grown := Next(looked, Env(Append(more)));
            Runnable(grown) && Next(grown, Own).a.delivered == Tail(s.w.output, s.from)
  {
    var looked := Next(Next(s, Own), Own);
    var grown := Next(looked, Env(Append(more)));
    var n := |s.w.output|;
    assert grown.w.output[..n] == s.w.output;
    if n > s.a.offset {
      assert s.w.output[s.from..s.a.offset] + grown.w.output[s.a.offset..n] == s.w.output[s.from..];
    }
  }

  // ---- When `lost` is a false verdict ----

  /** In every tick that first finds the agent dead, its two clock readings are at most the grace apart. */
  ghost predicate Prompt(s: State, labels: seq<Label>)
    requires Runnable(s)
    decreases |labels|
  {
    && (s.a.pc.SecondClock? && s.a.noticed ==> s.w.now - s.a.deadSince.value <= s.grace)
    && (labels != [] ==> (NextRunnable(s, labels[0]); Prompt(Next(s, labels[0]), labels[1..])))
  }

  ghost predicate GaveUpLater(s: State) {
    GivingUp(s.a.pc) || (s.a.verdict == Some(Lost) && s.a.deadSince.Some?) ==> !s.a.noticed
  }

  lemma {:induction false} PromptRun(s: State, labels: seq<Label>)
    requires Inv(s) && Runnable(s) && Prompt(s, labels) && GaveUpLater(s)
    ensures GaveUpLater(Run(s, labels))
    decreases |labels|
  {
    if labels != [] {
      NextInv(s, labels[0]);
      NextRunnable(s, labels[0]);
      PromptNext(s, labels[0]);
      hide Inv, GaveUpLater, Next;
      PromptRun(Next(s, labels[0]), labels[1..]);
    }
  }

  lemma PromptNext(s: State, l: Label)
    requires Inv(s) && Runnable(s) && GaveUpLater(s)
    requires s.a.pc.SecondClock? && s.a.noticed ==> s.w.now - s.a.deadSince.value <= s.grace
    ensures GaveUpLater(Next(s, l))
  {
  }

  /** With prompt clock readings, an agent that recorded its exit code is never reported lost, however its
      exit write and death fall among the attachment's checks. */
  lemma {:induction false} NeverFalselyLost(w: World, fromByte: int, grace: nat, labels: seq<Label>)
    requires Published(w)
    requires var start := Attach(w, fromByte, grace); Runnable(start) && Prompt(start, labels)
    ensures var s := Run(Attach(w, fromByte, grace), labels);
            s.a.verdict == Some(Lost) ==> !s.w.exit.Code? && !s.w.alive
  {
    var start := Attach(w, fromByte, grace);
    AttachInv(w, fromByte, grace);
    RunInv(start, labels);
    PromptRun(start, labels);
  }

  /** Past a clock reading over the grace, or what follows one: nothing but `lost` can come of it. */
  ghost predicate Doomed(s: State) {
    || (s.a.pc.SecondClock? && s.a.deadSince.Some? && s.w.now - s.a.deadSince.value > s.grace)
    || GivingUp(s.a.pc)
    || (s.a.pc.Ended? && s.a.verdict == Some(Lost))
  }

  lemma DoomedNext(s: State, l: Label)
    requires Runnable(s) && Doomed(s)
    ensures Doomed(Next(s, l))
  {
  }

  lemma {:induction false} DoomedRun(s: State, labels: seq<Label>)
    requires Runnable(s) && (Doomed(s) || !Prompt(s, labels))
    ensures Doomed(Run(s, labels))
    decreases |labels|
  {
    if labels != [] {
      NextRunnable(s, labels[0]);
      if Doomed(s) {
        DoomedNext(s, labels[0]);
      }
      DoomedRun(Next(s, labels[0]), labels[1..]);
    }
  }

  /** Exactly when the verdict is false, over all runs: an attachment that ended, of an agent that recorded
      its code, reported `lost` iff in some tick that first found the agent dead the two clock readings were
      further apart than the grace. */
  lemma {:induction false} FalselyLostIff(w: World, fromByte: int, grace: nat, labels: seq<Label>)
    requires Published(w)
    requires var start := Attach(w, fromByte, grace);
             Runnable(start) && Run(start, labels).a.pc.Ended? && Run(start, labels).w.exit.Code?
    ensures var start := Attach(w, fromByte, grace);
            Run(start, labels).a.verdict == Some(Lost) <==> !Prompt(start, labels)
  {
    var start := Attach(w, fromByte, grace);
    AttachInv(w, fromByte, grace);
    RunInv(start, labels);
    if Prompt(start, labels) {
      NeverFalselyLost(w, fromByte, grace, labels);
    } else {
      DoomedRun(start, labels);
    }
  }

  // ---- Which verdict, exactly ----

  /** Some `close` of the run met the attachment between two ticks. */
  predicate ClosedAtRest(s: State, labels: seq<Label>)
    requires Runnable(s)
    decreases |labels|
  {
    labels != [] &&
    ((labels[0].Close? && s.a.pc.Waiting?) ||
     (NextRunnable(s, labels[0]); ClosedAtRest(Next(s, labels[0]), labels[1..])))
  }

  /** An attachment that ended stays as it is, and one that has not has no verdict. */
  ghost predicate Settled(s: State) { s.a.pc.Ended? <==> s.a.verdict.Some? }

  lemma SettledNext(s: State, l: Label)
    requires Runnable(s) && Settled(s)
    ensures Settled(Next(s, l)) && (s.a.verdict.Some? ==> Next(s, l).a == s.a)
  {
  }

  lemma {:induction false} DetachedIff(s: State, labels: seq<Label>)
    requires Runnable(s) && Settled(s)
    ensures Run(s, labels).a.verdict.Some? && Run(s, labels).a.verdict.value.Detached? <==>
            (s.a.verdict.Some? && s.a.verdict.value.Detached?) || ClosedAtRest(s, labels)
    decreases |labels|
  {
    if labels != [] {
      NextRunnable(s, labels[0]);
      SettledNext(s, labels[0]);
      DetachedIff(Next(s, labels[0]), labels[1..]);
      if labels[0].Close? && s.a.pc.Waiting? {
        assert Next(s, labels[0]).a.verdict == Some(Detached(Closed));
      }
    }
  }

  /** The verdict of every run that came to one: `detached` iff a `close` met the attachment between two
      ticks; else `exited` with the recorded code iff there is one and every noticing tick read the clock
      within the grace; else `lost`. */
  lemma {:induction false} VerdictIs(w: World, fromByte: int, grace: nat, labels: seq<Label>)
    requires Published(w)
    requires var start := Attach(w, fromByte, grace); Runnable(start) && Run(start, labels).a.pc.Ended?
    ensures var start := Attach(w, fromByte, grace);
            var s := Run(start, labels);
            s.a.verdict == Some(if ClosedAtRest(start, labels) then Detached(Closed)
                                else if s.w.exit.Code? && Prompt(start, labels) then Exited(s.w.exit.code)
                                else Lost)
  {
    var start := Attach(w, fromByte, grace);
    AttachInv(w, fromByte, grace);
    RunInv(start, labels);
    DetachedIff(start, labels);
    var s := Run(start, labels);
    if s.w.exit.Code? { FalselyLostIff(w, fromByte, grace, labels); }
    assert EndInv(s);
    hide Run, Prompt, ClosedAtRest, Inv;
  }

  /** How many steps of its own the attachment is from a code that is there. */
  function OwnLeft(pc: Pc): nat {
    match pc
    case Waiting => 7
    case Stat(ExitCheck) => 6
    case Read(ExitCheck, _) => 5
    case At(ExitCheck) => 4
    case Stat(ReadCode) => 3
    case Read(ReadCode, _) => 2
    case At(ReadCode) => 1
    case _ => 0
  }

  function OwnSteps(labels: seq<Label>): nat {
    if labels == [] then 0 else (if labels[0].Own? then 1 else 0) + OwnSteps(labels[1..])
  }

  lemma ExitedNearer(s: State, l: Label)
    requires Runnable(s) && s.w.exit.Code? && BeforeLiveness(s.a.pc) && !l.Close?
    ensures var s' := Next(s, l);
            && s'.w.exit == s.w.exit
            && (l.Own? && OwnLeft(s.a.pc) == 1 ==> s'.a.verdict == Some(Exited(s.w.exit.code)) && s'.a.pc.Ended?)
            && (l.Own? && OwnLeft(s.a.pc) > 1 ==>
                  BeforeLiveness(s'.a.pc) && OwnLeft(s'.a.pc) == OwnLeft(s.a.pc) - 1)
            && (!l.Own? ==> s'.a == s.a)
  {
  }

  lemma {:induction false} EndedForever(s: State, labels: seq<Label>)
    requires Inv(s) && Runnable(s) && s.a.pc.Ended?
    ensures Run(s, labels).a == s.a && Inv(Run(s, labels))
    decreases |labels|
  {
    hide Inv;
    if labels != [] {
      NextRunnable(s, labels[0]);
      NextInv(s, labels[0]);
      EndedForever(Next(s, labels[0]), labels[1..]);
    }
  }

  /** The code is reported: once it is recorded, an attachment that rests, or is in the tick's exit check, ends
      with it after at most seven steps of its own, whatever else runs in between, with the whole file from
      its start on delivered. */
  lemma {:induction false} ExitedComes(s: State, labels: seq<Label>)
    requires Inv(s) && Runnable(s) && s.w.exit.Code? && BeforeLiveness(s.a.pc)
    requires Close !in labels && OwnSteps(labels) >= OwnLeft(s.a.pc)
    ensures var r := Run(s, labels);
            r.a.verdict == Some(Exited(s.w.exit.code)) && r.a.delivered == Tail(r.w.output, s.from)
    decreases |labels|
  {
    var l, s1, rest := labels[0], Next(s, labels[0]), labels[1..];
    NextRunnable(s, l);
    NextInv(s, l);
    ExitedNearer(s, l);
    assert s1.from == s.from;
    if l.Own? && OwnLeft(s.a.pc) == 1 {
      EndedForever(s1, rest);
      RunKeepsFrom(s1, rest);
      EndDrained(Run(s1, rest), s.w.exit.code);
    } else {
      ExitedComes(s1, rest);
    }
  }

  lemma EndDrained(s: State, code: int)
    requires Inv(s) && s.a.verdict == Some(Exited(code))
    ensures s.a.delivered == Tail(s.w.output, s.from)
  {
  }

  /** Found dead, with no code and the grace over. */
  ghost predicate Overdue(s: State) {
    && !s.w.alive && (!s.a.hasPid || !s.w.recycled) && !s.w.exit.Code?
    && s.a.deadSince.Some? && s.w.now - s.a.deadSince.value > s.grace
  }

  /** How many steps of its own it is from giving up, at most. */
  function LostLeft(pc: Pc): nat {
    match pc
    case ReadPid => 16
    case EntryCheck => 15
    case Waiting => 14
    case Stat(ExitCheck) => 13
    case Read(ExitCheck, _) => 12
    case At(ExitCheck) => 11
    case Stat(ReadCode) => 10
    case Read(ReadCode, _) => 9
    case At(ReadCode) => 8
    case Liveness => 7
    case FirstClock => 6
    case SecondClock => 5
    case Stat(GiveUp) => 4
    case Read(GiveUp, _) => 3
    case At(GiveUp) => 2
    case Ended => 0
  }

  lemma LostNearer(s: State, l: Label)
    requires Inv(s) && Runnable(s) && Overdue(s) && !s.a.pc.Ended? && !l.Close?
    requires !s.a.hasPid || l != Env(Recycle(true))
    ensures var s' := Next(s, l);
            && Overdue(s')
            && (l.Own? ==> LostLeft(s'.a.pc) < LostLeft(s.a.pc))
            && (s'.a.pc.Ended? ==> s'.a.verdict == Some(Lost))
            && (!l.Own? ==> s'.a == s.a) && s'.a.hasPid == s.a.hasPid
  {
  }

  /** Every tick ends: after at most 16 steps of its own the attachment has rested, or ended, whatever else
      runs in between; so the file and the exit are looked at again and again. */
  lemma {:induction false} TickEnds(s: State, labels: seq<Label>) returns (k: nat)
    requires Runnable(s) && OwnSteps(labels) >= LostLeft(s.a.pc)
    ensures k <= |labels| && Run(s, labels[..k]).a.pc in {Waiting, Ended}
    decreases |labels|
  {
    if s.a.pc in {Waiting, Ended} {
      k := 0;
      assert labels[..0] == [];
    } else {
      var l := labels[0];
      NextRunnable(s, l);
      RestsSooner(s, l);
      if l.Own? && Next(s, l).a.pc in {Waiting, Ended} {
        k := 1;
        assert labels[..1] == [l] && [l][1..] == [];
      } else {
        var rest := TickEnds(Next(s, l), labels[1..]);
        k := rest + 1;
        assert labels[..k][1..] == labels[1..][..rest];
      }
    }
  }

  lemma RestsSooner(s: State, l: Label)
    requires Runnable(s) && s.a.pc !in {Waiting, Ended}
    ensures var pc := Next(s, l).a.pc;
            if l.Own? then pc in {Waiting, Ended} || LostLeft(pc) < LostLeft(s.a.pc) else pc == s.a.pc
  {
  }

  /** A dead agent without a code is given up: once it was found dead and the grace is over, after at most
      14 steps of the attachment's own, unless its pid was found and is another process's by then. */
  lemma {:induction false} LostComes(s: State, labels: seq<Label>)
    requires Inv(s) && Runnable(s) && Overdue(s) && !s.a.pc.Ended?
    requires !s.a.hasPid || Env(Recycle(true)) !in labels
    requires Close !in labels && OwnSteps(labels) >= LostLeft(s.a.pc)
    ensures Run(s, labels).a.verdict == Some(Lost)
    decreases |labels|
  {
    var l, s1, rest := labels[0], Next(s, labels[0]), labels[1..];
    NextRunnable(s, l);
    NextInv(s, l);
    LostNearer(s, l);
    hide Inv, Overdue;
    if s1.a.pc.Ended? { EndedForever(s1, rest); } else { LostComes(s1, rest); }
  }

  lemma {:induction false} RunAppend(s: State, a: seq<Label>, b: seq<Label>)
    requires Runnable(s)
    ensures Run(s, a + b) == Run(Run(s, a), b)
    decreases |a|
  {
    if a == [] {
      assert a + b == b;
    } else {
      NextRunnable(s, a[0]);
      RunAppend(Next(s, a[0]), a[1..], b);
      assert (a + b)[1..] == a[1..] + b;
    }
  }

  lemma {:induction false} Then(s: State, labels: seq<Label>, l: Label)
    requires Runnable(s)
    ensures Run(s, labels + [l]) == Next(Run(s, labels), l)
  {
    RunAppend(s, labels, [l]);
    NextRunnable(Run(s, labels), l);
    assert Run(Next(Run(s, labels), l), []) == Next(Run(s, labels), l);
  }

  /** And that happens: an agent that records `code` and dies behind the exit check of a tick, on a machine
      that then stands still for longer than the grace. */
  lemma {:induction false} FalseLost(w: World, grace: nat, code: int) returns (labels: seq<Label>)
    requires w.alive && w.published && w.exit.Absent? && !w.recycled
    ensures var start := Attach(w, 0, grace);
            && Runnable(start)
            && Run(start, labels).a.verdict == Some(Lost) && Run(start, labels).w.exit == Code(code)
  {
    var start := Attach(w, 0, grace);
    var checked := ToLiveness(start);
    labels := checked;
    Then(start, labels, Env(WriteExit(code)));
    labels := labels + [Env(WriteExit(code))];
    Then(start, labels, Env(Die));
    labels := labels + [Env(Die)];
    Then(start, labels, Own);
    labels := labels + [Own];
    Then(start, labels, Own);
    labels := labels + [Own];
    Then(start, labels, Env(Elapse(grace + 1)));
    labels := labels + [Env(Elapse(grace + 1))];
    Then(start, labels, Own);
    labels := labels + [Own];
    assert Run(start, labels).a.pc == Stat(GiveUp);
    labels := GivesUp(start, labels);
  }

  /** A fresh attachment to a live agent gets to its first liveness check. */
  lemma {:induction false} ToLiveness(start: State) returns (labels: seq<Label>)
    requires start == Attach(start.w, 0, start.grace) && RunPid(start.w) && start.w.exit.Absent?
    ensures Runnable(start)
    ensures var s := Run(start, labels);
            && s.w == start.w && s.grace == start.grace
            && s.a.pc == Liveness && s.a.deadSince == None && s.a.hasPid
  {
    labels := [];
    assert Run(start, labels) == start;
    Then(start, labels, Own);
    labels := labels + [Own];
    Then(start, labels, Own);
    labels := labels + [Own];
    Then(start, labels, Own);
    labels := labels + [Own];
    Then(start, labels, Own);
    labels := labels + [Own];
    Then(start, labels, Own);
    labels := labels + [Own];
    Then(start, labels, Own);
    labels := labels + [Own];
  }

  lemma {:induction false} GivesUp(start: State, before: seq<Label>) returns (labels: seq<Label>)
    requires Runnable(start) && Run(start, before).a.pc == Stat(GiveUp)
    ensures Run(start, labels).a.verdict == Some(Lost) && Run(start, labels).w == Run(start, before).w
  {
    labels := before;
    Then(start, labels, Own);
    labels := labels + [Own];
    Then(start, labels, Own);
    labels := labels + [Own];
    Then(start, labels, Own);
    labels := labels + [Own];
  }

  // ---- Attached before the agent published ----

  function EnvLabels(steps: seq<EnvStep>): seq<Label> {
    seq(|steps|, i requires 0 <= i < |steps| => Env(steps[i]))
  }

  lemma {:induction false} RunEnv(s: State, steps: seq<EnvStep>)
    requires Runnable(s)
    ensures Runnable(s.(w := EnvRun(s.w, steps)))
    ensures Run(s, EnvLabels(steps)) == s.(w := EnvRun(s.w, steps))
    decreases |steps|
  {
    if steps != [] {
      NextRunnable(s, Env(steps[0]));
      assert EnvLabels(steps)[1..] == EnvLabels(steps[1..]);
      RunEnv(Next(s, Env(steps[0])), steps[1..]);
    }
  }

  /** An attach to a live agent that has not written its pid file yet is `lost` at once iff there is no exit
      file when it looks, whatever the agent does in between. */
  lemma {:induction false} EarlyAttachLostIff(w: World, fromByte: int, grace: nat, steps: seq<EnvStep>)
    requires w.alive && !w.published
    ensures var start := Attach(w, fromByte, grace);
            && Runnable(start)
            && (Run(start, [Own] + EnvLabels(steps) + [Own]).a.verdict == Some(Lost) <==>
                EnvRun(w, steps).exit.Absent?)
  {
    var start := Attach(w, fromByte, grace);
    var s1 := Next(start, Own);
    assert Run(start, []) == start;
    Then(start, [], Own);
    RunEnv(s1, steps);
    RunAppend(start, [] + [Own], EnvLabels(steps));
    Then(start, [] + [Own] + EnvLabels(steps), Own);
    assert [] + [Own] + EnvLabels(steps) == [Own] + EnvLabels(steps);
  }
}
