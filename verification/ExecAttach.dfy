/** An attachment over exec (packages/container-runtime/src/run-protocol.ts:359-367, 429-499): the output on
    stdout, and on stderr the marker that says how the run ended. */
module ExecAttach {
  import opened Lines
  import opened RunSpec
  import opened Decimal

  const NL: char := '\n'
  const RUN_EXIT_MARKER: string := "__OPTIO_RUN_EXIT__"
  const RUN_LOST_MARKER: string := "__OPTIO_RUN_LOST__"

  // ---- The marker line ----

  /** JavaScript's white space and line terminators. */
  predicate IsSpace(c: char) {
    var n := c as int;
    || 0x09 <= n <= 0x0d || n == 0x20 || n == 0xa0 || n == 0x1680 || 0x2000 <= n <= 0x200a
    || n == 0x2028 || n == 0x2029 || n == 0x202f || n == 0x205f || n == 0x3000 || n == 0xfeff
  }

  function TrimStart(s: string): string {
    if s != [] && IsSpace(s[0]) then TrimStart(s[1..]) else s
  }

  function TrimEnd(s: string): string {
    if s != [] && IsSpace(s[|s| - 1]) then TrimEnd(s[..|s| - 1]) else s
  }

  function Trim(s: string): string { TrimEnd(TrimStart(s)) }

  function LeadingDigits(s: string): (d: string)
    ensures AllDigits(d)
  {
    if s != [] && IsDigit(s[0]) then [s[0]] + LeadingDigits(s[1..]) else []
  }

  /** `Number.parseInt(s, 10)`; `None` is NaN. */
  function ParseInt(s: string): Option<int> {
    var t := TrimStart(s);
    var negative := t != [] && t[0] == '-';
    var digits := LeadingDigits(if t != [] && t[0] in "+-" then t[1..] else t);
    if digits == [] then None else Some(if negative then -(Value(digits) as int) else Value(digits))
  }

  function ParseRunExitLine(line: string): Option<RunExit> {
    var trimmed := Trim(line);
    if trimmed == RUN_LOST_MARKER then Some(Lost)
    else if RUN_EXIT_MARKER + ":" <= trimmed then
      match ParseInt(trimmed[|RUN_EXIT_MARKER| + 1..])
      case Some(code) => Some(Exited(code))
      case None => Some(Exited(1))
    else None
  }

  lemma {:induction false} DigitsNoSpace(s: string)
    requires AllDigits(s)
    ensures LeadingDigits(s) == s && TrimStart(s) == s
  {
    if s != [] {
      DigitsNoSpace(s[1..]);
    }
  }

  lemma TrimsNothing(digits: string)
    requires AllDigits(digits) && digits != []
    ensures Trim(RUN_EXIT_MARKER + ":" + digits) == RUN_EXIT_MARKER + ":" + digits != RUN_LOST_MARKER
  {
    var line := RUN_EXIT_MARKER + ":" + digits;
    assert IsDigit(digits[|digits| - 1]);
    assert line[0] == '_' && TrimStart(line) == line;
    assert line[|line| - 1] == digits[|digits| - 1] && TrimEnd(line) == line;
    assert |line| > |RUN_LOST_MARKER|;
  }

  /** The code the supervisor echoes comes back from the marker line. */
  lemma {:induction false} ExitLineRoundTrip(code: nat)
    ensures ParseRunExitLine(RUN_EXIT_MARKER + ":" + Numeral(code)) == Some(Exited(code))
  {
    var digits := Numeral(code);
    TrimsNothing(digits);
    DigitsNoSpace(digits);
    NumeralValue(code);
    assert RUN_EXIT_MARKER + ":" <= RUN_EXIT_MARKER + ":" + digits;
    assert (RUN_EXIT_MARKER + ":" + digits)[|RUN_EXIT_MARKER| + 1..] == digits;
  }

  /** A script that catches the exit file empty, while the code is being written, reports code 1. */
  lemma {:induction false} EmptyExitReadsAsOne()
    ensures ParseRunExitLine(RUN_EXIT_MARKER + ":") == Some(Exited(1))
  {
    var line := RUN_EXIT_MARKER + ":";
    assert line[0] == '_' && TrimStart(line) == line;
    assert line[|line| - 1] == ':' && Trim(line) == line;
    assert line[|RUN_EXIT_MARKER| + 1..] == [];
    assert |line| != |RUN_LOST_MARKER|;
  }

  // ---- Lines with and without a marker ----

  predicate AllSpace(s: string) { forall i :: 0 <= i < |s| ==> IsSpace(s[i]) }

  lemma {:induction false} TrimStartSlice(s: string) returns (a: nat)
    ensures a <= |s| && TrimStart(s) == s[a..] && AllSpace(s[..a])
    ensures a < |s| ==> !IsSpace(s[a])
  {
    if s != [] && IsSpace(s[0]) {
      var b := TrimStartSlice(s[1..]);
      a := b + 1;
      assert s[..a] == [s[0]] + s[1..][..b];
    } else {
      a := 0;
    }
  }

  lemma {:induction false} TrimEndSlice(s: string) returns (b: nat)
    ensures b <= |s| && TrimEnd(s) == s[..b] && AllSpace(s[b..])
    ensures b > 0 ==> !IsSpace(s[b - 1])
  {
    if s != [] && IsSpace(s[|s| - 1]) {
      b := TrimEndSlice(s[..|s| - 1]);
      assert s[b..] == s[..|s| - 1][b..] + [s[|s| - 1]];
    } else {
      b := |s|;
    }
  }

  /** What trimming leaves: the text without the white space around it, and nothing of a blank one. */
  lemma {:induction false} TrimIs(pre: string, core: string, post: string)
    requires AllSpace(pre) && AllSpace(post)
    requires core != [] ==> !IsSpace(core[0]) && !IsSpace(core[|core| - 1])
    ensures Trim(pre + core + post) == core
  {
    var s := pre + core + post;
    var a := TrimStartSlice(s);
    var b := TrimEndSlice(s[a..]);
    if core == [] {
      forall i | 0 <= i < |s| ensures IsSpace(s[i]) {
        if i >= |pre| { assert s[i] == post[i - |pre|]; }
      }
      assert b == 0;
    } else {
      Associative(pre, core, post);
      SpaceAt(s, s[..a], s[a..], |pre|);
      assert s[|pre|] == core[0];
      SpaceAt(s, pre, core + post, a);
      assert a == |pre|;
      assert s[a..] == core + post;
      SpaceBehind(core + post, core, post, b);
      SpaceBehind(core + post, (core + post)[..b], (core + post)[b..], |core|);
      assert (core + post)[..|core|] == core;
    }
  }

  /** In the white space at the front of a text each character is white space. */
  lemma SpaceAt(s: string, space: string, rest: string, k: nat)
    requires s == space + rest && AllSpace(space) && k < |s|
    ensures s[k] == (if k < |space| then space[k] else rest[k - |space|]) && (k < |space| ==> IsSpace(s[k]))
  {
  }

  /** And at its end. */
  lemma SpaceBehind(s: string, front: string, space: string, k: nat)
    requires s == front + space && AllSpace(space) && 0 < k <= |s|
    ensures s[k - 1] == (if k <= |front| then front[k - 1] else space[k - 1 - |front|])
    ensures k > |front| ==> IsSpace(s[k - 1])
  {
  }

  /** A text with something in it that is not white space, by its parts. */
  lemma {:induction false} TrimParts(s: string) returns (pre: string, core: string, post: string)
    ensures s == pre + core + post && Trim(s) == core && AllSpace(pre) && AllSpace(post)
    ensures core != [] ==> !IsSpace(core[0]) && !IsSpace(core[|core| - 1])
  {
    var a := TrimStartSlice(s);
    var b := TrimEndSlice(s[a..]);
    pre, core, post := s[..a], s[a..][..b], s[a..][b..];
    assert core + post == s[a..];
    Associative(pre, core, post);
    assert b > 0 ==> core[0] == s[a] && core[b - 1] == s[a..][b - 1];
  }

  predicate HasMarker(line: string) { Includes(line, RUN_EXIT_MARKER) || Includes(line, RUN_LOST_MARKER) }

  /** A line in which neither marker stands at any position says nothing. */
  lemma {:induction false} NoMarkerNone(line: string)
    requires !HasMarker(line)
    ensures ParseRunExitLine(line) == None
  {
    var pre, core, post := TrimParts(line);
    if core == RUN_LOST_MARKER {
      assert PartAt(line, RUN_LOST_MARKER, |pre|);
    } else if RUN_EXIT_MARKER + ":" <= core {
      assert core[..|RUN_EXIT_MARKER|] == RUN_EXIT_MARKER;
      assert line[|pre|..|pre| + |RUN_EXIT_MARKER|] == core[..|RUN_EXIT_MARKER|];
      assert PartAt(line, RUN_EXIT_MARKER, |pre|);
    }
  }

  /** The line that reports `value`, with any white space around it. */
  ghost predicate MarkerLine(line: string, value: RunExit) {
    exists pre: string, core: string, post: string {:trigger MarkerParts(line, value, pre, core, post)} ::
      MarkerParts(line, value, pre, core, post)
  }

  ghost predicate MarkerParts(line: string, value: RunExit, pre: string, core: string, post: string) {
    && line == pre + core + post && AllSpace(pre) && AllSpace(post)
    && match value
       case Lost => core == RUN_LOST_MARKER
       case Exited(code) => code >= 0 && core == RUN_EXIT_MARKER + ":" + Numeral(code)
       case Detached(_) => false
  }

  lemma {:induction false} MarkerLineParses(line: string, value: RunExit)
    requires MarkerLine(line, value)
    ensures ParseRunExitLine(line) == Some(value)
  {
    var pre, core, post :| MarkerParts(line, value, pre, core, post);
    if value.Lost? {
      assert RUN_LOST_MARKER[0] == '_' && RUN_LOST_MARKER[|RUN_LOST_MARKER| - 1] == '_';
      TrimIs(pre, core, post);
    } else {
      var digits := Numeral(value.code);
      TrimsNothing(digits);
      assert core[0] == '_' && core[|core| - 1] == digits[|digits| - 1] && IsDigit(digits[|digits| - 1]);
      TrimIs(pre, core, post);
      ExitLineRoundTrip(value.code);
      assert Trim(core) == core;
    }
  }

  /** `parseInt` reads the numeral, with its sign, up to the first character that is no digit. */
  lemma {:induction false} ParseIntReads(pre: string, n: nat, rest: string)
    requires AllSpace(pre) && (rest != [] ==> !IsDigit(rest[0]))
    ensures ParseInt(pre + Numeral(n) + rest) == Some(n)
    ensures ParseInt(pre + ("-" + Numeral(n)) + rest) == Some(-(n as int))
  {
    hide Numeral, TrimStart, LeadingDigits, Value;
    var digits := Numeral(n);
    NumeralValue(n);
    ReadsDigits(digits, rest);
    assert IsDigit(digits[0]);
    assert (digits + rest)[0] == digits[0] && ("-" + digits + rest)[0] == '-';
    SkipsSpace(pre, digits + rest);
    SkipsSpace(pre, "-" + digits + rest);
    Associative(pre, digits, rest);
    Associative(pre, "-" + digits, rest);
    assert ("-" + digits + rest)[1..] == digits + rest;
  }

  lemma {:induction false} SkipsSpace(pre: string, s: string)
    requires AllSpace(pre) && s != [] && !IsSpace(s[0])
    ensures TrimStart(pre + s) == s
  {
    if pre == [] {
      assert pre + s == s;
    } else {
      TailAppend(pre, s);
      SkipsSpace(pre[1..], s);
    }
  }

  lemma {:induction false} ReadsDigits(digits: string, rest: string)
    requires AllDigits(digits) && (rest != [] ==> !IsDigit(rest[0]))
    ensures LeadingDigits(digits + rest) == digits
  {
    if digits == [] {
      assert digits + rest == rest;
    } else {
      TailAppend(digits, rest);
      ReadsDigits(digits[1..], rest);
    }
  }

  // ---- The marker in a stream ----

  function OrElse(a: Option<RunExit>, b: Option<RunExit>): Option<RunExit> {
    if a.Some? then a else b
  }

  function FirstMarker(lines: seq<string>): Option<RunExit> {
    if lines == [] then None else OrElse(ParseRunExitLine(lines[0]), FirstMarker(lines[1..]))
  }

  lemma {:induction false} FirstMarkerAppend(a: seq<string>, b: seq<string>)
    ensures FirstMarker(a + b) == OrElse(FirstMarker(a), FirstMarker(b))
  {
    if a == [] {
      assert a + b == b;
    } else {
      FirstMarkerAppend(a[1..], b);
      assert (a + b)[1..] == a[1..] + b;
    }
  }

  /** The stderr reader: the unfinished line, and the marker once it came. */
  datatype Reader = Reader(buf: string, settled: Option<RunExit>)

  function FeedChunk(r: Reader, chunk: string): Reader {
    Reader(Partial(r.buf + chunk, NL), OrElse(r.settled, FirstMarker(Complete(r.buf + chunk, NL))))
  }

  function FeedChunks(r: Reader, chunks: seq<string>): Reader
    decreases |chunks|
  {
    if chunks == [] then r else FeedChunks(FeedChunk(r, chunks[0]), chunks[1..])
  }

  /** Whatever the chunk boundaries, the reader stands where one that got all of stderr at once would:
      at the first marker among its complete lines. */
  lemma {:induction false} ChunksIrrelevant(sofar: string, chunks: seq<string>)
    ensures FeedChunks(Reader(Partial(sofar, NL), FirstMarker(Complete(sofar, NL))), chunks) ==
            var all := sofar + Concat(chunks);
            Reader(Partial(all, NL), FirstMarker(Complete(all, NL)))
    decreases |chunks|
  {
    if chunks == [] {
      assert sofar + Concat(chunks) == sofar;
    } else {
      AppendLines(sofar, chunks[0], NL);
      FirstMarkerAppend(Complete(sofar, NL), Complete(Partial(sofar, NL) + chunks[0], NL));
      ChunksIrrelevant(sofar + chunks[0], chunks[1..]);
      Associative(sofar, chunks[0], Concat(chunks[1..]));
    }
  }

  // ---- The attachment, event by event ----

  datatype Event =
    | StderrData(chunk: string)
    | StderrEnd
    | StderrError
    | OutputEnd
    | OutputFinish
    | OutputClose
    | OutputError
    /** `close()`. */
    | Close

  /** `marker` is what stderr settled on, `exit` the promise: it resolves to the marker's value once the
      output is done too, and keeps that value. */
  datatype Exec = Exec(buf: string, marker: Option<RunExit>, detached: bool, outputDone: bool, exit: Option<RunExit>)

  const OPENED := Exec([], None, false, false, None)

  function Handle(x: Exec, e: Event): Exec {
    match e
    case StderrData(chunk) =>
      var r := FeedChunk(Reader(x.buf, x.marker), chunk);
      x.(buf := r.buf, marker := r.settled)
    case StderrEnd =>
      var severed := Detached(if x.detached then DetachReason.Closed else StreamEnded);
      x.(marker := OrElse(x.marker, OrElse(ParseRunExitLine(x.buf), Some(severed))))
    case StderrError => x.(marker := OrElse(x.marker, Some(Detached(StreamEnded))))
    case Close => x.(detached := true, outputDone := true)
    case _ => x.(outputDone := true)
  }

  function Resolve(x: Exec): Exec {
    if x.exit.None? && x.outputDone then x.(exit := x.marker) else x
  }

  function Next(x: Exec, e: Event): Exec { Resolve(Handle(x, e)) }

  function Run(x: Exec, events: seq<Event>): Exec
    decreases |events|
  {
    if events == [] then x else Run(Next(x, events[0]), events[1..])
  }

  // ---- What the events say ----

  predicate EndsStderr(e: Event) { e.StderrEnd? || e.StderrError? }

  predicate EndsOutput(e: Event) {
    e.OutputEnd? || e.OutputFinish? || e.OutputClose? || e.OutputError? || e.Close?
  }

  ghost predicate OutputOver(events: seq<Event>) {
    exists i :: 0 <= i < |events| && EndsOutput(events[i])
  }

  /** Where stderr first ends; past the events when it does not. */
  function FirstEnd(events: seq<Event>): (n: nat)
    ensures n <= |events| && (n < |events| ==> EndsStderr(events[n]))
    ensures forall i :: 0 <= i < n ==> !EndsStderr(events[i])
  {
    if events == [] || EndsStderr(events[0]) then 0 else 1 + FirstEnd(events[1..])
  }

  function Chunks(events: seq<Event>): seq<string> {
    if events == [] then []
    else (if events[0].StderrData? then [events[0].chunk] else []) + Chunks(events[1..])
  }

  /** All stderr brought until it ended. */
  function StderrText(events: seq<Event>): string {
    Concat(Chunks(events[..FirstEnd(events)]))
  }

  /** The first marker line of stderr as a whole; an unterminated last line counts once stderr ended.
      Without a marker, how it ended. */
  function Verdict(events: seq<Event>): Option<RunExit> {
    var n, text := FirstEnd(events), StderrText(events);
    if n == |events| then FirstMarker(Complete(text, NL))
    else if events[n].StderrError? then OrElse(FirstMarker(Complete(text, NL)), Some(Detached(StreamEnded)))
    else
      var severed := Detached(if Close in events[..n] then DetachReason.Closed else StreamEnded);
      OrElse(FirstMarker(Split(text, NL)), Some(severed))
  }

  lemma {:induction false} Then(x: Exec, events: seq<Event>, e: Event)
    ensures Run(x, events + [e]) == Next(Run(x, events), e)
    decreases |events|
  {
    hide Next;
    if events == [] {
      assert Run(Next(x, e), [e][1..]) == Next(x, e);
    } else {
      Then(Next(x, events[0]), events[1..], e);
      TailAppend(events, [e]);
    }
  }

  lemma {:induction false} FirstEndThen(events: seq<Event>, e: Event)
    ensures FirstEnd(events + [e]) ==
            if FirstEnd(events) < |events| then FirstEnd(events)
            else if EndsStderr(e) then |events| else |events| + 1
  {
    if events == [] {
      assert [e][1..] == [];
    } else {
      TailAppend(events, [e]);
      FirstEndThen(events[1..], e);
    }
  }

  lemma {:induction false} ChunksThen(events: seq<Event>, e: Event)
    ensures Chunks(events + [e]) == Chunks(events) + (if e.StderrData? then [e.chunk] else [])
  {
    if events == [] {
      assert [e][1..] == [];
    } else {
      TailAppend(events, [e]);
      ChunksThen(events[1..], e);
      Associative(if events[0].StderrData? then [events[0].chunk] else [], Chunks(events[1..]),
                  if e.StderrData? then [e.chunk] else []);
    }
  }

  /** One more event, while stderr goes on: more text, or its end. */
  lemma {:induction false} TextThen(events: seq<Event>, e: Event)
    requires FirstEnd(events) == |events|
    ensures StderrText(events + [e]) == StderrText(events) + (if e.StderrData? then e.chunk else [])
  {
    FirstEndThen(events, e);
    assert events[..|events|] == events && (events + [e])[..|events|] == events;
    assert (events + [e])[..|events| + 1] == events + [e];
    ChunksThen(events, e);
    if e.StderrData? {
      ConcatAppend(Chunks(events), [e.chunk]);
      assert Concat([e.chunk]) == e.chunk + Concat([e.chunk][1..]) == e.chunk;
    } else {
      assert Chunks(events) + [] == Chunks(events);
    }
  }

  /** Once stderr ended nothing changes what it said. */
  lemma {:induction false} OverThen(events: seq<Event>, e: Event)
    requires FirstEnd(events) < |events|
    ensures Verdict(events + [e]) == Verdict(events) && Verdict(events).Some?
  {
    FirstEndThen(events, e);
    var n := FirstEnd(events);
    assert (events + [e])[..n] == events[..n] && (events + [e])[n] == events[n];
  }

  lemma {:induction false} WholeMarker(text: string)
    ensures FirstMarker(Split(text, NL)) ==
            OrElse(FirstMarker(Complete(text, NL)), ParseRunExitLine(Partial(text, NL)))
  {
    assert Split(text, NL) == Complete(text, NL) + [Partial(text, NL)];
    FirstMarkerAppend(Complete(text, NL), [Partial(text, NL)]);
    assert FirstMarker([Partial(text, NL)]) ==
           OrElse(ParseRunExitLine(Partial(text, NL)), FirstMarker([Partial(text, NL)][1..]));
  }

  /** The attachment follows its events: what it keeps of stderr, and what that settled on. */
  ghost predicate Follows(x: Exec, events: seq<Event>) {
    && (FirstEnd(events) == |events| ==> x.buf == Partial(StderrText(events), NL))
    && x.marker == Verdict(events)
    && (x.detached <==> Close in events)
    && (x.outputDone <==> OutputOver(events))
    && x.exit == (if x.outputDone then x.marker else None)
  }

  lemma {:induction false} VerdictThen(events: seq<Event>, e: Event, x: Exec)
    requires Follows(x, events)
    ensures Handle(x, e).marker == Verdict(events + [e])
    ensures FirstEnd(events + [e]) == |events + [e]| ==> Handle(x, e).buf == Partial(StderrText(events + [e]), NL)
    ensures x.marker.Some? ==> Handle(x, e).marker == x.marker
  {
    hide ParseRunExitLine;
    if FirstEnd(events) < |events| {
      OverThen(events, e);
      FirstEndThen(events, e);
    } else {
      TextThen(events, e);
      FirstEndThen(events, e);
      var text := StderrText(events);
      assert (events + [e])[..|events|] == events && text + [] == text;
      if e.StderrData? {
        AppendLines(text, e.chunk, NL);
        FirstMarkerAppend(Complete(text, NL), Complete(Partial(text, NL) + e.chunk, NL));
      }
      WholeMarker(text);
    }
  }

  lemma {:induction false} FollowsThen(events: seq<Event>, e: Event, x: Exec)
    requires Follows(x, events)
    ensures Follows(Next(x, e), events + [e])
  {
    VerdictThen(events, e, x);
    var more := events + [e];
    assert forall i :: 0 <= i < |events| ==> more[i] == events[i];
    assert more[|events|] == e;
    assert Close in more <==> Close in events || e == Close;
    assert OutputOver(more) <==> OutputOver(events) || EndsOutput(e) by {
      if OutputOver(events) {
        var i :| 0 <= i < |events| && EndsOutput(events[i]);
        assert EndsOutput(more[i]);
      }
    }
    hide Verdict, FirstEnd, StderrText, Partial, ParseRunExitLine, FeedChunk, OutputOver;
  }

  lemma {:induction false} RunFollows(events: seq<Event>)
    ensures Follows(Run(OPENED, events), events)
    decreases |events|
  {
    if events == [] {
      assert Split([], NL) == [[]];
    } else {
      var front, e := events[..|events| - 1], events[|events| - 1];
      assert events == front + [e];
      RunFollows(front);
      Then(OPENED, front, e);
      FollowsThen(front, e, Run(OPENED, front));
    }
  }

  /** For every sequence of events, every chunking of stderr among them: the exit is reported once the output
      ended or was abandoned and stderr said how, and then it is the first marker of stderr as a whole. */
  lemma {:induction false} ExitOfEvents(events: seq<Event>)
    ensures Run(OPENED, events).exit == if OutputOver(events) then Verdict(events) else None
  {
    RunFollows(events);
  }

  lemma {:induction false} NoneMarked(lines: seq<string>)
    requires forall line :: line in lines ==> !HasMarker(line)
    ensures FirstMarker(lines) == None
  {
    if lines != [] {
      NoMarkerNone(lines[0]);
      NoneMarked(lines[1..]);
    }
  }

  lemma CompleteOrAll(text: string)
    ensures forall line :: line in Complete(text, NL) ==> line in Split(text, NL)
  {
  }

  /** An exec severed before any marker came is `detached`, and never `lost`: for every sequence of events
      whose stderr has no line with a marker in it, the exit reported once the output is over is `closed`
      when a `close` came before stderr ended, else `stream-ended`; and none while stderr goes on. */
  lemma {:induction false} SeveredIsDetached(events: seq<Event>)
    requires forall line :: line in Split(StderrText(events), NL) ==> !HasMarker(line)
    ensures var n := FirstEnd(events);
            Run(OPENED, events).exit ==
            if !OutputOver(events) || n == |events| then None
            else Some(Detached(if events[n].StderrEnd? && Close in events[..n] then DetachReason.Closed
                               else StreamEnded))
  {
    ExitOfEvents(events);
    CompleteOrAll(StderrText(events));
    NoneMarked(Complete(StderrText(events), NL));
    NoneMarked(Split(StderrText(events), NL));
  }

  lemma {:induction false} MarkedFirst(lines: seq<string>, k: nat, value: RunExit)
    requires k < |lines| && MarkerLine(lines[k], value) && forall j :: 0 <= j < k ==> !HasMarker(lines[j])
    ensures FirstMarker(lines) == Some(value)
  {
    hide ParseRunExitLine, HasMarker, MarkerLine;
    if k == 0 {
      MarkerLineParses(lines[0], value);
    } else {
      NoMarkerNone(lines[0]);
      MarkedFirst(lines[1..], k - 1, value);
    }
  }

  /** And a marker decides: the first line of stderr with one, complete or last before stderr ended, is what
      is reported once the output is over, whatever comes behind it. */
  lemma {:induction false} MarkerDecides(events: seq<Event>, k: nat, value: RunExit)
    requires OutputOver(events)
    requires var lines := Split(StderrText(events), NL);
             && k < |lines| && MarkerLine(lines[k], value) && (forall j :: 0 <= j < k ==> !HasMarker(lines[j]))
             && (k == |lines| - 1 ==> FirstEnd(events) < |events| && events[FirstEnd(events)].StderrEnd?)
    ensures Run(OPENED, events).exit == Some(value)
  {
    ExitOfEvents(events);
    var text := StderrText(events);
    var lines := Split(text, NL);
    MarkedFirst(lines, k, value);
    if k < |lines| - 1 {
      assert Complete(text, NL)[k] == lines[k];
      MarkedFirst(Complete(text, NL), k, value);
    }
  }

  /** It settles at most once: a value reported is the value for good. */
  lemma {:induction false} SettlesOnce(events: seq<Event>, more: seq<Event>)
    requires Run(OPENED, events).exit.Some?
    ensures Run(OPENED, events + more).exit == Run(OPENED, events).exit
    decreases |more|
  {
    if more == [] {
      assert events + more == events;
    } else {
      var front, e := more[..|more| - 1], more[|more| - 1];
      assert events + more == (events + front) + [e];
      SettlesOnce(events, front);
      Then(OPENED, events + front, e);
    }
  }

  class ExecAttachment {
    var buf: string
    var marker: Option<RunExit>
    var detached: bool
    /** The output ended, or its consumer abandoned it. */
    var outputDone: bool
    var exit: Option<RunExit>

    function View(): Exec
      reads this
    {
      Exec(buf, marker, detached, outputDone, exit)
    }

    constructor ()
      ensures View() == OPENED
    {
      buf, marker, detached, outputDone, exit := [], None, false, false, None;
    }

    method Settle(value: RunExit)
      modifies this`marker
      ensures marker == OrElse(old(marker), Some(value))
    {
      if marker.Some? { return; }
      marker := Some(value);
    }

    /** `Promise.all` of the marker and the output's end. */
    method TryResolve()
      modifies this`exit
      ensures View() == Resolve(old(View()))
    {
      if exit.None? && outputDone { exit := marker; }
    }

    /** A stderr chunk, at any point of the exec. */
    method OnStderrData(chunk: string)
      modifies this
      ensures View() == Next(old(View()), StderrData(chunk))
    {
      buf, marker := ScanLines(buf + chunk, marker);
      TryResolve();
    }

    /** Stderr ended: an unterminated last line counts, and without a marker the exec was severed. */
    method OnStderrEnd()
      modifies this
      ensures View() == Next(old(View()), StderrEnd)
    {
      var parsed := ParseRunExitLine(buf);
      if parsed.Some? { Settle(parsed.value); }
      Settle(Detached(if detached then DetachReason.Closed else StreamEnded));
      TryResolve();
    }

    method OnStderrError()
      modifies this
      ensures View() == Next(old(View()), StderrError)
    {
      Settle(Detached(StreamEnded));
      TryResolve();
    }

    /** The output's end, finish, close or error. */
    method OnOutputDone(e: Event)
      requires EndsOutput(e) && !e.Close?
      modifies this
      ensures View() == Next(old(View()), e)
    {
      outputDone := true;
      TryResolve();
    }

    /** `close()`: the consumer abandons the output. */
    method OnClose()
      modifies this
      ensures View() == Next(old(View()), Close)
    {
      detached := true;
      outputDone := true;
      TryResolve();
    }
  }

  /** The loop over the complete lines of `text`: the first marker settles, the unfinished line is kept. */
  method ScanLines(text: string, before: Option<RunExit>) returns (buf: string, settled: Option<RunExit>)
    ensures buf == Partial(text, NL)
    ensures settled == OrElse(before, FirstMarker(Complete(text, NL)))
  {
    buf, settled := text, before;
    var idx := IndexOfNewline(buf);
    while idx >= 0
      invariant Partial(buf, NL) == Partial(text, NL)
      invariant OrElse(settled, FirstMarker(Complete(buf, NL))) == OrElse(before, FirstMarker(Complete(text, NL)))
      invariant idx == -1 ==> NL !in buf
      invariant idx != -1 ==> 0 <= idx < |buf| && buf[idx] == NL && NL !in buf[..idx]
      decreases if idx == -1 then 0 else |buf| + 1
    {
      var line := buf[..idx];
      DropLine(buf, idx);
      buf := buf[idx + 1..];
      var parsed := ParseRunExitLine(line);
      settled := OrElse(settled, parsed);
      idx := IndexOfNewline(buf);
    }
    SplitLine(buf, [], NL);
    assert Complete(buf, NL) == [];
  }

  lemma DropLine(buf: string, idx: nat)
    requires idx < |buf| && buf[idx] == NL && NL !in buf[..idx]
    ensures Partial(buf, NL) == Partial(buf[idx + 1..], NL)
    ensures FirstMarker(Complete(buf, NL)) ==
            OrElse(ParseRunExitLine(buf[..idx]), FirstMarker(Complete(buf[idx + 1..], NL)))
  {
    var line, rest := buf[..idx], buf[idx + 1..];
    assert buf == line + [NL] + rest;
    SplitLine(line, rest, NL);
    assert Complete(buf, NL) == [line] + Complete(rest, NL);
  }

  method IndexOfNewline(s: string) returns (i: int)
    ensures i == -1 ==> NL !in s
    ensures i != -1 ==> 0 <= i < |s| && s[i] == NL && NL !in s[..i]
  {
    i := 0;
    while i < |s|
      invariant 0 <= i <= |s| && NL !in s[..i]
    {
      if s[i] == NL { return; }
      i := i + 1;
    }
    i := -1;
  }
}
