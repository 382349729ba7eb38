/** The polling attachment as it runs: fields updated by a timer handler, against files another process
    changes between any two of its queries. Each method is proved to take exactly the steps of PollAttach. */
module PollTick {
  import opened RunSpec
  import opened PollAttach

  /** The run directory on disk, and the agent's process. */
  class RunFiles {
    var world: World

    constructor (w: World)
      ensures world == w
    {
      world := w;
    }

    /** Whatever else runs now. */
    method Interfere(steps: seq<EnvStep>)
      modifies this
      ensures world == EnvRun(old(world), steps)
    {
      var i := 0;
      while i < |steps|
        invariant 0 <= i <= |steps|
        invariant EnvRun(world, steps[i..]) == EnvRun(old(world), steps)
      {
        world := EnvNext(world, steps[i]);
        i := i + 1;
      }
    }
  }

  /** A code that is recorded stays. */
  lemma {:induction false} EnvKeepsCode(w: World, steps: seq<EnvStep>)
    ensures w.exit.Code? ==> EnvRun(w, steps).exit == w.exit
    decreases |steps|
  {
    if steps != [] {
      EnvKeepsCode(EnvNext(w, steps[0]), steps[1..]);
    }
  }

  /** One own step, then a batch of the environment's. */
  lemma {:induction false} Extend(start: State, trace: seq<Label>, s: State, steps: seq<EnvStep>)
    requires Runnable(start) && Runnable(s) && Run(start, trace) == s
    ensures var t := Next(s, Own);
            Run(start, trace + [Own] + EnvLabels(steps)) == t.(w := EnvRun(t.w, steps))
  {
    RunAppend(start, trace, [Own]);
    assert Run(s, [Own]) == Next(s, Own);
    NextRunnable(s, Own);
    RunAppend(start, trace + [Own], EnvLabels(steps));
    RunEnv(Next(s, Own), steps);
  }

  class PollAttachment {
    const files: RunFiles
    const from: nat
    const grace: nat
    var hasPid: bool
    var offset: nat
    /** What was pushed to `output`. */
    var delivered: seq<Byte>
    var deadSince: Option<nat>
    var closed: bool
    var exit: Option<RunExit>
    ghost var noticed: bool
    ghost var waited: int

    ghost function View(pc: Pc): State
      reads this, files
    {
      State(files.world, from, grace, Attachment(pc, hasPid, offset, delivered, deadSince, exit, noticed, waited))
    }

    /** Between two handlers. */
    ghost function Rest(): State
      reads this, files
    {
      View(if closed then Ended else Waiting)
    }

    ghost predicate Valid()
      reads this, files
    {
      (closed <==> exit.Some?) && Inv(Rest())
    }

    /** Opens the attachment: the pid check, and the entry check that may end it at once. */
    constructor (files: RunFiles, fromByte: int, grace: nat, env: seq<EnvStep>)
      modifies files
      ensures this.files == files && this.grace == grace && from == (if fromByte < 0 then 0 else fromByte)
      ensures Published(old(files.world)) ==> Valid()
      ensures Runnable(Attach(old(files.world), fromByte, grace))
      ensures Rest() ==
              Run(Attach(old(files.world), fromByte, grace), [Own] + EnvLabels(env) + [Own])
    {
      this.files := files;
      this.from := if fromByte < 0 then 0 else fromByte;
      this.grace := grace;
      offset := if fromByte < 0 then 0 else fromByte;
      delivered, deadSince, exit := [], None, None;
      closed, noticed, waited := false, false, 0;
      hasPid := RunPid(files.world);
      new;
      ghost var start := Attach(old(files.world), fromByte, grace);
      Extend(start, [], start, env);
      assert [] + [Own] + EnvLabels(env) == [Own] + EnvLabels(env);
      files.Interfere(env);
      ghost var now := View(EntryCheck);
      RunAppend(start, [Own] + EnvLabels(env), [Own]);
      assert Run(now, [Own]) == Next(now, Own);
      if !hasPid && files.world.exit.Absent? {
        End(Lost);
      }
      if Published(old(files.world)) {
        AttachInv(old(files.world), fromByte, grace);
        RunInv(start, [Own] + EnvLabels(env) + [Own]);
      }
    }

    method End(value: RunExit)
      modifies this`closed, this`exit
      ensures closed && exit == if old(closed) then old(exit) else Some(value)
    {
      if closed { return; }
      closed := true;
      exit := Some(value);
    }

    /** `close()`. */
    method Close()
      requires Valid()
      modifies this`closed, this`exit
      ensures Valid() && closed
      ensures Rest() == Next(old(Rest()), PollAttach.Close)
    {
      End(Detached(Closed));
    }

    /** `pump`: the file's size, then the bytes up to it. The environment runs between the two. */
    method Pump(after: After, env: seq<EnvStep>, ghost start: State, ghost sofar: seq<Label>)
      returns (ghost trace: seq<Label>)
      requires Runnable(start) && Runnable(View(Stat(after)))
      requires Run(start, sofar) == View(Stat(after))
      modifies this`offset, this`delivered, files
      ensures trace == sofar + [Own] + EnvLabels(env) + [Own]
      ensures Run(start, trace) == View(At(after)) && files.world == EnvRun(old(files.world), env)
    {
      var size := |files.world.output|;
      Extend(start, sofar, View(Stat(after)), env);
      EnvGrows(files.world, env);
      files.Interfere(env);
      ghost var now := View(Read(after, size));
      trace := sofar + [Own] + EnvLabels(env) + [Own];
      RunAppend(start, sofar + [Own] + EnvLabels(env), [Own]);
      assert Run(now, [Own]) == Next(now, Own);
      if size > offset {
        var bytes := files.world.output[offset..size];
        offset := size;
        delivered := delivered + bytes;
      }
    }

    /** The end of a tick: the liveness check, and the grace once the agent is found dead. */
    method CheckAlive(env: seq<seq<EnvStep>>, ghost start: State, ghost sofar: seq<Label>)
      returns (ghost trace: seq<Label>)
      requires |env| == 4 && !closed && exit.None?
      requires Runnable(start) && Run(start, sofar) == View(Liveness)
      modifies this`offset, this`delivered, this`deadSince, this`closed, this`exit, this`noticed, this`waited
      modifies files
      ensures sofar <= trace && Rest() == Run(start, trace) && (closed <==> exit.Some?)
    {
      if hasPid && PidAlive(files.world) {
        Extend(start, sofar, View(Liveness), []);
        trace := sofar + [Own] + EnvLabels([]);
        return;
      }
      Extend(start, sofar, View(Liveness), env[0]);
      trace := sofar + [Own] + EnvLabels(env[0]);
      files.Interfere(env[0]);
      Extend(start, trace, View(FirstClock), env[1]);
      trace := trace + [Own] + EnvLabels(env[1]);
      if deadSince.None? {
        deadSince := Some(files.world.now);
        noticed := true;
      }
      files.Interfere(env[1]);
      trace := CheckGrace(env[2..], start, trace);
    }

    method CheckGrace(env: seq<seq<EnvStep>>, ghost start: State, ghost sofar: seq<Label>)
      returns (ghost trace: seq<Label>)
      requires |env| == 2 && !closed && exit.None? && deadSince.Some?
      requires Runnable(start) && Run(start, sofar) == View(SecondClock)
      modifies this`offset, this`delivered, this`closed, this`exit, this`waited, files
      ensures sofar <= trace && Rest() == Run(start, trace) && (closed <==> exit.Some?)
    {
      if files.world.now - deadSince.value <= grace {
        Extend(start, sofar, View(SecondClock), []);
        trace := sofar + [Own] + EnvLabels([]);
        waited := files.world.now - deadSince.value;
        return;
      }
      Extend(start, sofar, View(SecondClock), env[0]);
      trace := sofar + [Own] + EnvLabels(env[0]);
      waited := files.world.now - deadSince.value;
      files.Interfere(env[0]);
      trace := Pump(GiveUp, env[1], start, trace);
      Extend(start, trace, View(At(GiveUp)), []);
      trace := trace + [Own] + EnvLabels([]);
      End(Lost);
    }

    /** One run of the timer handler: at the end the attachment rests again, having taken exactly the
        protocol's own steps, with the batches `env` of the environment's in between. */
    method Tick(env: seq<seq<EnvStep>>) returns (ghost trace: seq<Label>)
      requires Valid() && |env| == 9
      modifies this`offset, this`delivered, this`deadSince, this`closed, this`exit, this`noticed, this`waited
      modifies files
      ensures Valid()
      ensures Runnable(old(Rest())) && Rest() == Run(old(Rest()), trace)
      ensures if old(closed) then trace == [] else trace != [] && trace[0] == Own
      ensures !old(closed) && old(files.world).exit.Code? ==>
                && exit == Some(Exited(old(files.world).exit.code))
                && delivered == Tail(files.world.output, from)
    {
      ghost var start := Rest();
      trace := [];
      if closed { return; }
      noticed := false;
      Extend(start, [], start, env[0]);
      trace := [] + [Own] + EnvLabels(env[0]);
      EnvKeepsCode(files.world, env[0]);
      files.Interfere(env[0]);
      EnvKeepsCode(files.world, env[1]);
      trace := Pump(ExitCheck, env[1], start, trace);
      trace := CheckExit(env[2..5], start, trace);
      if !closed {
        trace := CheckAlive(env[5..], start, trace);
      }
      RunInv(start, trace);
    }

    /** The exit check: with an exit file there, a second pump, and the end once the code is readable. */
    method CheckExit(env: seq<seq<EnvStep>>, ghost start: State, ghost sofar: seq<Label>)
      returns (ghost trace: seq<Label>)
      requires |env| == 3 && !closed && exit.None?
      requires Runnable(start) && Run(start, sofar) == View(At(ExitCheck))
      modifies this`offset, this`delivered, this`closed, this`exit, files
      ensures sofar <= trace && (closed <==> exit.Some?)
      ensures Run(start, trace) == View(if closed then Ended else Liveness)
      ensures old(files.world).exit.Code? ==> exit == Some(Exited(old(files.world).exit.code))
    {
      EnvKeepsCode(files.world, env[0]);
      Extend(start, sofar, View(At(ExitCheck)), env[0]);
      trace := sofar + [Own] + EnvLabels(env[0]);
      if files.world.exit.Absent? {
        files.Interfere(env[0]);
        return;
      }
      files.Interfere(env[0]);
      EnvKeepsCode(files.world, env[1]);
      trace := Pump(ReadCode, env[1], start, trace);
      if files.world.exit.Code? {
        Extend(start, trace, View(At(ReadCode)), []);
        trace := trace + [Own] + EnvLabels([]);
        End(Exited(files.world.exit.code));
        return;
      }
      Extend(start, trace, View(At(ReadCode)), env[2]);
      trace := trace + [Own] + EnvLabels(env[2]);
      files.Interfere(env[2]);
    }
  }

  lemma {:induction false} EnvGrows(w: World, steps: seq<EnvStep>)
    ensures w.output <= EnvRun(w, steps).output
    decreases |steps|
  {
    if steps != [] {
      EnvGrows(EnvNext(w, steps[0]), steps[1..]);
    }
  }
}
