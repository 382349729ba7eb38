/** How an attach script reports the end of a run (packages/container-runtime/src/run-protocol.ts:284-286):
    it waits for the exit file, then prints what is in it behind the marker, while the supervisor
    (run-protocol.ts:156-168) writes that file, and may be killed between making it and filling it. */
module AttachScript {
  import opened RunSpec
  import opened Decimal
  import opened ExecAttach

  const EXIT_POLLS := 20

  /** A shell's `echo code > exit` makes or empties the file, then writes. */
  datatype ExitFile = Absent | Empty | Holding(code: nat)

  /** The supervisor: `begun` is the last code it began to record. A signal may make it record again. */
  datatype Supervisor = Supervisor(alive: bool, begun: Option<nat>)

  /** Where the script is. What it reported is kept with the file as `cat` found it, and the code the
      supervisor had last begun to record by then. */
  datatype Script =
    | Polling(left: nat)
    | Deciding
    | Reading
    | Reported(line: string, found: ExitFile, begun: Option<nat>)

  datatype State = State(file: ExitFile, sup: Supervisor, script: Script)

  datatype Label =
    /** The supervisor opens the exit file for `code`, writes the code, or dies. */
    | Open(code: nat)
    | Write
    | Die
    /** The script takes its next step. */
    | Step

  const START := State(Absent, Supervisor(true, None), Polling(EXIT_POLLS))

  function ReportLine(file: ExitFile): string {
    match file
    case Absent => RUN_LOST_MARKER
    case Empty => RUN_EXIT_MARKER + ":"
    case Holding(code) => RUN_EXIT_MARKER + ":" + Numeral(code)
  }

  function StepNext(s: State): Script {
    match s.script
    case Polling(left) => if left == 0 || !s.file.Absent? then Deciding else Polling(left - 1)
    case Deciding => if s.file.Absent? then Reported(RUN_LOST_MARKER, s.file, s.sup.begun) else Reading
    case Reading => Reported(ReportLine(s.file), s.file, s.sup.begun)
    case Reported(_, _, _) => s.script
  }

  function Next(s: State, l: Label): State {
    match l
    case Open(code) =>
      if s.sup.alive && !s.file.Empty? then s.(file := Empty, sup := s.sup.(begun := Some(code))) else s
    case Write =>
      if s.sup.alive && s.file.Empty? && s.sup.begun.Some? then s.(file := Holding(s.sup.begun.value)) else s
    case Die => s.(sup := s.sup.(alive := false))
    case Step => s.(script := StepNext(s))
  }

  function Run(s: State, labels: seq<Label>): State
    decreases |labels|
  {
    if labels == [] then s else Run(Next(s, labels[0]), labels[1..])
  }

  ghost predicate FileOk(s: State) {
    match s.file
    case Absent => s.sup.begun == None
    case Empty => s.sup.begun.Some?
    case Holding(code) => s.sup.begun == Some(code)
  }

  ghost predicate ReportOk(script: Script) {
    script.Reported? ==>
      && script.line == ReportLine(script.found)
      && FileOk(State(script.found, Supervisor(true, script.begun), script))
  }

  ghost predicate Inv(s: State) {
    FileOk(s) && (s.script.Reading? ==> !s.file.Absent?) && ReportOk(s.script)
  }

  lemma {:induction false} RunInv(s: State, labels: seq<Label>)
    requires Inv(s)
    ensures Inv(Run(s, labels))
    decreases |labels|
  {
    if labels != [] {
      assert Inv(Next(s, labels[0]));
      RunInv(Next(s, labels[0]), labels[1..]);
    }
  }

  lemma LostLine()
    ensures ParseRunExitLine(RUN_LOST_MARKER) == Some(Lost)
  {
    assert RUN_LOST_MARKER[0] == '_' && RUN_LOST_MARKER[|RUN_LOST_MARKER| - 1] == '_';
    assert Trim(RUN_LOST_MARKER) == RUN_LOST_MARKER;
  }

  /** Over all interleavings of the script with the supervisor's recording and its death: `lost` is reported
      iff no code had been begun; else the code last begun is reported iff `cat` found it written, or it
      is 1, which an empty file reads as. */
  lemma {:induction false} ReportedIff(labels: seq<Label>)
    requires Run(START, labels).script.Reported?
    ensures var script := Run(START, labels).script;
            var report := ParseRunExitLine(script.line);
            && (report == Some(Lost) <==> script.begun == None)
            && (script.begun.Some? ==>
                  (report == Some(Exited(script.begun.value)) <==> script.found.Holding? || script.begun == Some(1)))
  {
    RunInv(START, labels);
    var script := Run(START, labels).script;
    match script.found {
      case Absent => LostLine();
      case Empty => EmptyExitReadsAsOne();
      case Holding(code) => ExitLineRoundTrip(code);
    }
  }

  lemma {:induction false} Then(s: State, labels: seq<Label>, l: Label)
    ensures Run(s, labels + [l]) == Next(Run(s, labels), l)
    decreases |labels|
  {
    if labels == [] {
      assert Run(Next(s, l), [l][1..]) == Next(s, l);
    } else {
      Then(Next(s, labels[0]), labels[1..], l);
      assert (labels + [l])[1..] == labels[1..] + [l];
    }
  }

  function Steps(labels: seq<Label>): nat {
    if labels == [] then 0 else (if labels[0].Step? then 1 else 0) + Steps(labels[1..])
  }

  /** How many steps the script is from its report, at most. */
  function StepsLeft(script: Script): nat {
    match script
    case Polling(left) => left + 3
    case Deciding => 2
    case Reading => 1
    case Reported(_, _, _) => 0
  }

  /** The script ends: after 23 steps of its own it has reported, whatever the supervisor does. */
  lemma {:induction false} ScriptEnds(s: State, labels: seq<Label>)
    requires Steps(labels) >= StepsLeft(s.script)
    ensures Run(s, labels).script.Reported?
    decreases |labels|
  {
    if labels != [] {
      ScriptEnds(Next(s, labels[0]), labels[1..]);
    }
  }

  /** It does not wait for long: with an exit file there, its next three steps report. */
  lemma {:induction false} ReportsWhenThere(s: State)
    requires !s.file.Absent?
    ensures Run(s, [Step, Step, Step]).script.Reported?
  {
    assert [Step, Step, Step][1..] == [Step, Step] && [Step, Step][1..] == [Step] && [Step][1..] == [];
  }

  /** It waits: while there is no exit file, its first 20 steps are polls. */
  lemma {:induction false} PollsWhileAbsent(s: State, labels: seq<Label>, left: nat)
    requires s.script == Polling(left) && Steps(labels) <= left && Run(s, labels).file.Absent?
    ensures s.file.Absent? && Run(s, labels).script == Polling(left - Steps(labels))
    decreases |labels|
  {
    if labels != [] {
      StaysThere(Next(s, labels[0]), labels[1..]);
      var l := labels[0];
      PollsWhileAbsent(Next(s, l), labels[1..], if l.Step? then left - 1 else left);
    }
  }

  lemma {:induction false} StaysThere(s: State, labels: seq<Label>)
    ensures !s.file.Absent? ==> !Run(s, labels).file.Absent?
    decreases |labels|
  {
    if labels != [] {
      StaysThere(Next(s, labels[0]), labels[1..]);
    }
  }

  /** Without an exit file it reports the run lost, after its polls and two steps more. */
  lemma {:induction false} LostAfterPolls(s: State, labels: seq<Label>, left: nat)
    requires s.script == Polling(left) && Steps(labels) == left + 2 && Run(s, labels).file.Absent?
    ensures Run(s, labels).script.Reported? && ParseRunExitLine(Run(s, labels).script.line) == Some(Lost)
    decreases |labels|
  {
    StaysThere(s, labels);
    var l, s1, rest := labels[0], Next(s, labels[0]), labels[1..];
    if !l.Step? {
      LostAfterPolls(s1, rest, left);
    } else if left > 0 {
      LostAfterPolls(s1, rest, left - 1);
    } else {
      LostNow(s1, rest);
    }
  }

  lemma {:induction false} LostNow(s: State, labels: seq<Label>)
    requires s.script.Deciding? && Steps(labels) == 1 && Run(s, labels).file.Absent?
    ensures Run(s, labels).script.Reported? && Run(s, labels).script.line == RUN_LOST_MARKER
    ensures ParseRunExitLine(RUN_LOST_MARKER) == Some(Lost)
    decreases |labels|
  {
    LostLine();
    StaysThere(s, labels);
    if labels[0].Step? {
      ReportedStays(Next(s, labels[0]), labels[1..]);
    } else {
      LostNow(Next(s, labels[0]), labels[1..]);
    }
  }

  lemma {:induction false} ReportedStays(s: State, labels: seq<Label>)
    requires s.script.Reported?
    ensures Run(s, labels).script == s.script
    decreases |labels|
  {
    if labels != [] {
      ReportedStays(Next(s, labels[0]), labels[1..]);
    }
  }

  ghost predicate NoOpen(labels: seq<Label>) { forall i :: 0 <= i < |labels| ==> !labels[i].Open? }

  lemma {:induction false} HeldReported(s: State, labels: seq<Label>, code: nat)
    requires s.file == Holding(code) && NoOpen(labels)
    requires s.script.Polling? || s.script.Deciding? || s.script.Reading? ||
             (s.script.Reported? && s.script.line == ReportLine(Holding(code)))
    ensures var r := Run(s, labels).script; r.Reported? ==> r.line == ReportLine(Holding(code))
    decreases |labels|
  {
    if labels != [] {
      assert !labels[0].Open?;
      assert forall i :: 0 <= i < |labels[1..]| ==> labels[1..][i] == labels[i + 1];
      HeldReported(Next(s, labels[0]), labels[1..], code);
    }
  }

  /** An exit in time is reported: a code recorded within the script's first 20 steps is what it reports, 23
      steps later at the latest, whatever happens in between but another recording. */
  lemma {:induction false} ExitInTime(before: seq<Label>, code: nat, after: seq<Label>)
    requires Steps(before) <= 20 && Run(START, before).file.Absent? && Run(START, before).sup.alive
    requires NoOpen(after) && Steps(after) >= 23
    ensures var script := Run(Run(START, before + [Open(code)] + [Write]), after).script;
            script.Reported? && ParseRunExitLine(script.line) == Some(Exited(code))
  {
    PollsWhileAbsent(START, before, 20);
    Then(START, before, Open(code));
    Then(START, before + [Open(code)], Write);
    var s := Run(START, before + [Open(code)] + [Write]);
    assert s.file == Holding(code) && s.script.Polling? && s.script.left <= 20;
    ScriptEnds(s, after);
    HeldReported(s, after, code);
    ExitLineRoundTrip(code);
  }

  /** And the empty file is met: a supervisor that is killed while it records, of whatever code, is
      reported to have exited with 1. */
  lemma {:induction false} KilledReadsAsOne(code: nat) returns (labels: seq<Label>)
    ensures var s := Run(START, labels);
            && !s.sup.alive && s.sup.begun == Some(code) && s.script.Reported?
            && ParseRunExitLine(s.script.line) == Some(Exited(1))
  {
    EmptyExitReadsAsOne();
    labels := [];
    Then(START, labels, Open(code));
    labels := labels + [Open(code)];
    Then(START, labels, Die);
    labels := labels + [Die];
    Then(START, labels, Step);
    labels := labels + [Step];
    Then(START, labels, Step);
    labels := labels + [Step];
    Then(START, labels, Step);
    labels := labels + [Step];
  }
}
