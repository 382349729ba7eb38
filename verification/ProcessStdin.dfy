/** The process runtime's stdin (packages/container-runtime/src/process.ts:170-172, 245-250, 267-282): no
    feeder process reads the file, each text is split and written to the child as it comes. */
module ProcessStdin {
  import opened Lines
  import opened RunStdin

  /** `split("\n")`, less the empty last element a trailing newline leaves. */
  function ReadLines(text: string): seq<string> {
    var last := Partial(text, NL);
    Complete(text, NL) + (if last == [] then [] else [last])
  }

  /** `stdin.ndjson`, what was written to the child's stdin, and whether that was ended. */
  datatype Stdin = Stdin(file: string, sent: string, closed: bool)

  function FeedText(st: Stdin, text: string): Stdin {
    if st.closed then st
    else st.(sent := st.sent + Unlines(BeforeEof(ReadLines(text)), NL), closed := EOF_LINE in ReadLines(text))
  }

  /** The start's stdin: the file written, and fed. */
  function Prime(initial: string): Stdin {
    FeedText(Stdin(initial, [], false), initial)
  }

  /** A delivery: refused once closed, else appended and fed. */
  function DeliverLine(st: Stdin, line: string): Stdin {
    if st.closed then st else FeedText(st.(file := st.file + line + [NL]), line + [NL])
  }

  function DeliverAll(st: Stdin, lines: seq<string>): Stdin
    decreases |lines|
  {
    if lines == [] then st else DeliverAll(DeliverLine(st, lines[0]), lines[1..])
  }

  /** The child was written exactly the file's lines before its first sentinel, and its stdin was ended
      iff there is one. */
  ghost predicate FedAsFile(st: Stdin) {
    && st.sent == Unlines(BeforeEof(ReadLines(st.file)), NL)
    && (st.closed <==> EOF_LINE in ReadLines(st.file))
  }

  lemma BoundaryLines(text: string)
    requires AtLineBoundary(text, NL)
    ensures ReadLines(text) == Complete(text, NL)
  {
    BoundaryPartial(text, NL);
  }

  lemma {:induction false} DeliverKeeps(st: Stdin, line: string)
    requires AtLineBoundary(st.file, NL) && FedAsFile(st)
    ensures AtLineBoundary(DeliverLine(st, line).file, NL) && FedAsFile(DeliverLine(st, line))
  {
    if !st.closed {
      var text := line + [NL];
      assert st.file + line + [NL] == st.file + text;
      BoundaryLines(st.file);
      BoundaryLines(text);
      BoundaryLines(st.file + text);
      BoundaryAppend(st.file, text, NL);
      BeforeEofAppend(ReadLines(st.file), ReadLines(text));
      BeforeEofPrefix(ReadLines(st.file));
      UnlinesAppend(ReadLines(st.file), BeforeEof(ReadLines(text)), NL);
    }
  }

  /** After any start and deliveries, the child has been written the newline-terminated lines of the file
      before its first sentinel, which is what the supervisor's feeder forwards of the same file, and its
      stdin is ended iff a sentinel line is there. */
  lemma {:induction false} FeederAgrees(initial: string, lines: seq<string>)
    requires AtLineBoundary(initial, NL)
    ensures var st := DeliverAll(Prime(initial), lines);
            && st.sent == Unlines(AgentLines(st.file), NL)
            && (st.closed <==> EOF_LINE in Complete(st.file, NL))
  {
    DeliverAllKeeps(Prime(initial), lines);
    BoundaryLines(DeliverAll(Prime(initial), lines).file);
  }

  lemma {:induction false} DeliverAllKeeps(st: Stdin, lines: seq<string>)
    requires AtLineBoundary(st.file, NL) && FedAsFile(st)
    ensures AtLineBoundary(DeliverAll(st, lines).file, NL) && FedAsFile(DeliverAll(st, lines))
    decreases |lines|
  {
    if lines != [] {
      DeliverKeeps(st, lines[0]);
      DeliverAllKeeps(DeliverLine(st, lines[0]), lines[1..]);
    }
  }

  /** The lines delivered before the child's stdin was ended, each with its newline. */
  function Taken(closed: bool, lines: seq<string>): string
    decreases |lines|
  {
    if closed || lines == [] then []
    else lines[0] + [NL] + Taken(EOF_LINE in Split(lines[0] + [NL], NL), lines[1..])
  }

  lemma {:induction false} FileGrows(st: Stdin, lines: seq<string>)
    ensures DeliverAll(st, lines).file == st.file + Taken(st.closed, lines)
    decreases |lines|
  {
    if lines == [] {
    } else if st.closed {
      FileGrows(st, lines[1..]);
    } else {
      SentinelLine(lines[0]);
      FileGrows(DeliverLine(st, lines[0]), lines[1..]);
      Associative(st.file, lines[0], [NL]);
      Associative(st.file, lines[0] + [NL], Taken(EOF_LINE in Split(lines[0] + [NL], NL), lines[1..]));
    }
  }

  /** The empty part behind the last newline is no sentinel. */
  lemma SentinelLine(line: string)
    ensures EOF_LINE in ReadLines(line + [NL]) <==> EOF_LINE in Split(line + [NL], NL)
  {
    var parts := Split(line + [NL], NL);
    var last := Partial(line + [NL], NL);
    assert parts == Complete(line + [NL], NL) + [last];
  }

  /** The file: the initial stdin as it was given, and behind it the lines delivered before the sentinel came,
      the sentinel's own included. */
  lemma {:induction false} FileIs(initial: string, lines: seq<string>)
    ensures DeliverAll(Prime(initial), lines).file ==
            initial + Taken(initial != [] && EOF_LINE in Split(initial, NL), lines)
  {
    FileGrows(Prime(initial), lines);
    var parts := Split(initial, NL);
    assert parts == Complete(initial, NL) + [Partial(initial, NL)];
    assert Prime(initial).closed <==> EOF_LINE in ReadLines(initial);
  }

  // ---- Initial stdin that ends within a line ----

  lemma {:induction false} UnlinesInjective(a: seq<string>, b: seq<string>)
    requires AllClear(a, NL) && AllClear(b, NL) && Unlines(a, NL) == Unlines(b, NL)
    ensures a == b
  {
    UnlinesComplete(a, []);
    UnlinesComplete(b, []);
    assert Unlines(a, NL) + [] == Unlines(b, NL) + [];
    assert (a + [[]])[..|a|] == a && (b + [[]])[..|b|] == b;
  }

  /** The child was written an unfinished initial line `p` as a line of its own, while in the file the
      first delivery went on with it. */
  ghost predicate Torn(st: Stdin, front: seq<string>, p: string, x: string, rest: seq<string>) {
    && EOF_LINE !in front && p != [] && p != EOF_LINE
    && AllClear(front + [p, x] + rest, NL)
    && AtLineBoundary(st.file, NL)
    && Complete(st.file, NL) == front + [p + x] + rest
    && st.sent == Unlines(BeforeEof(front + [p, x] + rest), NL)
    && (st.closed <==> EOF_LINE in front + [p, x] + rest)
  }

  lemma {:induction false} TornDiffers(st: Stdin, front: seq<string>, p: string, x: string, rest: seq<string>)
    requires Torn(st, front, p, x, rest)
    ensures !FedAsFile(st)
  {
    BoundaryLines(st.file);
    var a, b := front + [p, x] + rest, front + [p + x] + rest;
    TornPrefixes(front, p, x, rest);
    if st.sent == Unlines(BeforeEof(b), NL) {
      SplitParts(st.file, NL);
      BeforeEofPrefix(a);
      BeforeEofPrefix(b);
      assert AllClear(BeforeEof(a), NL) && AllClear(BeforeEof(b), NL);
      UnlinesInjective(BeforeEof(a), BeforeEof(b));
    }
  }

  lemma {:induction false} TornPrefixes(front: seq<string>, p: string, x: string, rest: seq<string>)
    requires EOF_LINE !in front && p != [] && p != EOF_LINE
    ensures BeforeEof(front + [p, x] + rest) != BeforeEof(front + [p + x] + rest)
  {
    var n := |front|;
    var a, b := [p, x] + rest, [p + x] + rest;
    assert front + [p, x] + rest == front + a && front + [p + x] + rest == front + b;
    BeforeEofAppend(front, a);
    BeforeEofAppend(front, b);
    assert a[1..] == [x] + rest && b[1..] == rest && ([x] + rest)[1..] == rest;
    assert |BeforeEof(a)| > 0 && (front + BeforeEof(a))[n] == p;
    if p + x == EOF_LINE {
      assert BeforeEof(b) == [];
      assert |front + BeforeEof(a)| > |front + BeforeEof(b)|;
    } else if x == [] {
      assert x != EOF_LINE;
      assert |BeforeEof(a)| == 2 + |BeforeEof(rest)| && |BeforeEof(b)| == 1 + |BeforeEof(rest)|;
      assert |front + BeforeEof(a)| > |front + BeforeEof(b)|;
    } else {
      assert (front + BeforeEof(b))[n] == p + x;
      assert |p + x| > |p|;
    }
  }

  lemma {:induction false} TornKeeps(st: Stdin, line: string, front: seq<string>, p: string, x: string,
        rest: seq<string>)
    requires Torn(st, front, p, x, rest)
    ensures Torn(DeliverLine(st, line), front, p, x, if st.closed then rest else rest + ReadLines(line + [NL]))
  {
    if !st.closed {
      var text := line + [NL];
      assert st.file + line + [NL] == st.file + text;
      BoundaryLines(text);
      BoundaryAppend(st.file, text, NL);
      var more := ReadLines(text);
      SplitParts(text, NL);
      Associative(front + [p, x], rest, more);
      Associative(front + [p + x], rest, more);
      SentOn(front + [p, x] + rest, more);
    }
  }

  /** What goes in after lines without a sentinel. */
  lemma {:induction false} SentOn(a: seq<string>, more: seq<string>)
    requires EOF_LINE !in a
    ensures BeforeEof(a) == a
    ensures Unlines(BeforeEof(a + more), NL) == Unlines(a, NL) + Unlines(BeforeEof(more), NL)
  {
    BeforeEofAppend(a, more);
    BeforeEofPrefix(a);
    UnlinesAppend(a, BeforeEof(more), NL);
  }

  lemma {:induction false} TornForever(st: Stdin, lines: seq<string>, front: seq<string>, p: string, x: string,
        rest: seq<string>)
    requires Torn(st, front, p, x, rest)
    ensures !FedAsFile(DeliverAll(st, lines))
    decreases |lines|
  {
    if lines == [] {
      TornDiffers(st, front, p, x, rest);
    } else {
      TornKeeps(st, lines[0], front, p, x, rest);
      var more := if st.closed then rest else rest + ReadLines(lines[0] + [NL]);
      TornForever(DeliverLine(st, lines[0]), lines[1..], front, p, x, more);
    }
  }

  lemma {:induction false} FirstDeliveryTears(initial: string, line: string)
      returns (x: string, rest: seq<string>)
    requires !AtLineBoundary(initial, NL) && EOF_LINE !in ReadLines(initial)
    ensures Torn(DeliverLine(Prime(initial), line), Complete(initial, NL), Partial(initial, NL), x, rest)
  {
    var front, p := Complete(initial, NL), Partial(initial, NL);
    var text := line + [NL];
    BoundaryPartial(initial, NL);
    SplitParts(initial, NL);
    SplitParts(text, NL);
    BoundaryLines(text);
    var lines := Complete(text, NL);
    x, rest := TornFile(initial, text);
    assert [p, x] + rest == [p] + lines;
    Associative(front, [p, x], rest);
    Associative(front, [p], lines);
    assert AllClear(front + [p] + lines, NL);
    FedTwice(front + [p], lines);
    Associative(initial, line, [NL]);
    DeliverFeeds(Prime(initial), line);
    hide Split, BeforeEof, Unlines, FeedText, DeliverLine, AllClear;
  }

  /** Lines fed after others that hold no sentinel. */
  lemma FedTwice(a: seq<string>, b: seq<string>)
    requires EOF_LINE !in a
    ensures Unlines(BeforeEof(a + b), NL) == Unlines(BeforeEof(a), NL) + Unlines(BeforeEof(b), NL)
    ensures EOF_LINE in a + b <==> EOF_LINE in b
  {
    BeforeEofPrefix(a);
    BeforeEofAppend(a, b);
    UnlinesAppend(a, BeforeEof(b), NL);
  }

  lemma DeliverFeeds(st: Stdin, line: string)
    requires !st.closed
    ensures var lines := ReadLines(line + [NL]);
            DeliverLine(st, line) ==
            Stdin(st.file + line + [NL], st.sent + Unlines(BeforeEof(lines), NL), EOF_LINE in lines)
  {
  }

  /** A text of whole lines, put after an unfinished one. */
  lemma {:induction false} FirstLineJoins(p: string, text: string) returns (x: string, rest: seq<string>)
    requires NL !in p && text != [] && AtLineBoundary(text, NL)
    ensures Complete(text, NL) == [x] + rest
    ensures Complete(p + text, NL) == [p + x] + rest
  {
    BoundaryPartial(text, NL);
    CompleteUnlines(text, NL);
    SplitParts(text, NL);
    var lines := Complete(text, NL);
    x, rest := lines[0], lines[1..];
    var after := Unlines(rest, NL);
    assert p + text == p + x + [NL] + after;
    SplitLine(p + x, after, NL);
    UnlinesComplete(rest, []);
    assert after + [] == after;
    LastDropped([p + x], rest);
  }

  lemma LastDropped(a: seq<string>, b: seq<string>)
    ensures var parts := a + (b + [[]]); parts[..|parts| - 1] == a + b
  {
  }

  /** In the file, the first delivered line goes on with the unfinished one. */
  lemma {:induction false} TornFile(initial: string, text: string) returns (x: string, rest: seq<string>)
    requires text != [] && AtLineBoundary(text, NL)
    ensures Complete(text, NL) == [x] + rest
    ensures AtLineBoundary(initial + text, NL)
    ensures Complete(initial + text, NL) == Complete(initial, NL) + [Partial(initial, NL) + x] + rest
  {
    SplitParts(initial, NL);
    x, rest := FirstLineJoins(Partial(initial, NL), text);
    AppendLines(initial, text, NL);
    Associative(Complete(initial, NL), [Partial(initial, NL) + x], rest);
  }

  /** Exactly when the child is written what the file says: the initial stdin is whole lines, or it holds
      the sentinel, or nothing is delivered after it. */
  lemma {:induction false} FeederAgreesIff(initial: string, lines: seq<string>)
    ensures FedAsFile(DeliverAll(Prime(initial), lines)) <==>
            AtLineBoundary(initial, NL) || EOF_LINE in ReadLines(initial) || lines == []
  {
    if AtLineBoundary(initial, NL) {
      DeliverAllKeeps(Prime(initial), lines);
    } else if EOF_LINE in ReadLines(initial) {
      ClosedRefuses(Prime(initial), lines);
    } else if lines != [] {
      var x, rest := FirstDeliveryTears(initial, lines[0]);
      var first := DeliverLine(Prime(initial), lines[0]);
      TornForever(first, lines[1..], Complete(initial, NL), Partial(initial, NL), x, rest);
    }
  }

  lemma {:induction false} ClosedRefuses(st: Stdin, lines: seq<string>)
    requires st.closed
    ensures DeliverAll(st, lines) == st
    decreases |lines|
  {
    if lines != [] {
      ClosedRefuses(st, lines[1..]);
    }
  }
}
