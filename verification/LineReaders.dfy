/** Readers of text that come in line by line or chunk by chunk, and agree with reading the whole:
    the agents' result scanners (packages/agent-adapters/src/types.ts:31-58) and the container log
    (packages/container-runtime/src/docker.ts:102-121). */
module LineReaders {
  import opened Lines
  import opened RunSpec
  import ExecAttach

  const NL: char := '\n'

  // ---- First match ----

  /** What a pattern makes of a text at one position: what it captured there, or nothing. */
  type Matcher<!R> = (string, nat) -> Option<R>

  /** `match`: the leftmost position of `text`, from `i` on, where the pattern matches. */
  function MatchFrom<R>(m: Matcher<R>, text: string, i: nat): Option<R>
    requires i <= |text|
    decreases |text| - i
  {
    if m(text, i).Some? then m(text, i)
    else if i == |text| then None
    else MatchFrom(m, text, i + 1)
  }

  function Match<R>(m: Matcher<R>, text: string): Option<R> {
    MatchFrom(m, text, 0)
  }

  /** The match is the leftmost: at the first position, its end included, where the pattern matches; there is
      none iff it matches nowhere. */
  lemma {:induction false} MatchIsLeftmost<R>(m: Matcher<R>, text: string, i: nat)
    requires i <= |text|
    ensures MatchFrom(m, text, i).None? <==> forall k :: i <= k <= |text| ==> m(text, k).None?
    ensures forall k :: i <= k <= |text| && m(text, k).Some? && (forall j :: i <= j < k ==> m(text, j).None?) ==>
              MatchFrom(m, text, i) == m(text, k)
    decreases |text| - i
  {
    if m(text, i).None? && i < |text| {
      MatchIsLeftmost(m, text, i + 1);
    }
  }

  /** A pattern that never looks past a newline: at a position of a line, it sees that line only. */
  ghost predicate WithinLines<R>(m: Matcher<R>) {
    forall line: string, rest: string, i: nat :: NL !in line ==>
      && (i <= |line| ==> m(line + [NL] + rest, i) == m(line, i))
      && (i <= |rest| ==> m(line + [NL] + rest, |line| + 1 + i) == m(rest, i))
  }

  /** The scanner: it keeps the first value it gets. */
  class FirstMatch<R> {
    const re: Matcher<R>
    var value: Option<R>

    constructor (re: Matcher<R>)
      ensures this.re == re && value == None
    {
      this.re, value := re, None;
    }

    method Push(line: string)
      modifies this
      ensures value == if old(value).Some? then old(value) else Match(re, line)
    {
      if value.None? {
        value := Match(re, line);
      }
    }

    /** A whole output, fed line by line. */
    method PushAll(logs: string)
      requires value.None?
      modifies this
      ensures value == FirstOf(re, Split(logs, NL))
    {
      var lines := Split(logs, NL);
      var i := 0;
      while i < |lines|
        invariant 0 <= i <= |lines|
        invariant FirstOf(re, lines) == if value.Some? then value else FirstOf(re, lines[i..])
      {
        Push(lines[i]);
        i := i + 1;
      }
    }
  }

  function FirstOf<R>(m: Matcher<R>, lines: seq<string>): Option<R> {
    if lines == [] then None
    else if Match(m, lines[0]).Some? then Match(m, lines[0])
    else FirstOf(m, lines[1..])
  }

  /** Line by line is whole text: the first line's match is the text's leftmost. */
  lemma {:induction false} LineByLineIsWhole<R>(m: Matcher<R>, text: string)
    requires WithinLines(m)
    ensures FirstOf(m, Split(text, NL)) == Match(m, text)
    decreases |text|
  {
    if NL in text {
      var n := FirstNewline(text);
      var line, rest := text[..n], text[n + 1..];
      assert text == line + [NL] + rest;
      SplitLine(line, rest, NL);
      LineByLineIsWhole(m, rest);
      MatchInLine(m, line, rest, 0);
      if Match(m, line).None? {
        MatchInRest(m, line, rest, 0);
      }
    } else {
      SplitLine(text, [], NL);
      assert FirstOf(m, [text][1..]) == None;
    }
  }

  lemma {:induction false} FirstNewline(text: string) returns (n: nat)
    requires NL in text
    ensures n < |text| && text[n] == NL && NL !in text[..n]
  {
    if text[0] == NL {
      n := 0;
    } else {
      var k := FirstNewline(text[1..]);
      n := k + 1;
      assert text[..n] == [text[0]] + text[1..][..k];
    }
  }

  /** Positions of the first line: a match there is the line's own, and without one the search goes on
      behind its newline. */
  lemma {:induction false} MatchInLine<R>(m: Matcher<R>, line: string, rest: string, i: nat)
    requires WithinLines(m) && NL !in line && i <= |line|
    ensures MatchFrom(m, line + [NL] + rest, i) ==
            if MatchFrom(m, line, i).Some? then MatchFrom(m, line, i)
            else MatchFrom(m, line + [NL] + rest, |line| + 1)
    decreases |line| - i
  {
    var text := line + [NL] + rest;
    assert m(text, i) == m(line, i);
    if i < |line| {
      MatchInLine(m, line, rest, i + 1);
    }
  }

  lemma {:induction false} MatchInRest<R>(m: Matcher<R>, line: string, rest: string, i: nat)
    requires WithinLines(m) && NL !in line && i <= |rest|
    ensures MatchFrom(m, line + [NL] + rest, |line| + 1 + i) == MatchFrom(m, rest, i)
    decreases |rest| - i
  {
    var text := line + [NL] + rest;
    assert m(text, |line| + 1 + i) == m(rest, i);
    if i < |rest| {
      MatchInRest(m, line, rest, i + 1);
    }
  }

  // ---- Container logs ----

  predicate Blank(line: string) { ExecAttach.Trim(line) == [] }

  function NonBlank(lines: seq<string>): seq<string> {
    if lines == [] then [] else (if Blank(lines[0]) then [] else [lines[0]]) + NonBlank(lines[1..])
  }

  /** A line is blank iff it has nothing but white space. */
  lemma {:induction false} BlankIff(line: string)
    ensures Blank(line) <==> ExecAttach.AllSpace(line)
  {
    if ExecAttach.AllSpace(line) {
      assert line == line + [] + [];
      ExecAttach.TrimIs(line, [], []);
    }
    var pre, core, post := ExecAttach.TrimParts(line);
    assert core == [] ==> line == pre + post;
  }

  /** Of one line: itself, when there is more than white space in it. */
  lemma {:induction false} NonBlankOne(line: string)
    ensures NonBlank([]) == []
    ensures NonBlank([line]) ==
            if exists i :: 0 <= i < |line| && !ExecAttach.IsSpace(line[i]) then [line] else []
  {
    BlankIff(line);
    assert [line][1..] == [];
  }

  lemma {:induction false} NonBlankAppend(a: seq<string>, b: seq<string>)
    ensures NonBlank(a + b) == NonBlank(a) + NonBlank(b)
  {
    hide Blank;
    if a == [] {
      assert a + b == b;
    } else {
      NonBlankAppend(a[1..], b);
      TailAppend(a, b);
      Associative(if Blank(a[0]) then [] else [a[0]], NonBlank(a[1..]), NonBlank(b));
    }
  }

  /** Which lines are yielded, line by line: those with more than white space in them, in their order. */
  lemma {:induction false} NonBlankIs(before: seq<string>, line: string, after: seq<string>)
    ensures NonBlank([]) == []
    ensures NonBlank(before + [line] + after) ==
            NonBlank(before)
            + (if exists i :: 0 <= i < |line| && !ExecAttach.IsSpace(line[i]) then [line] else [])
            + NonBlank(after)
  {
    NonBlankOne(line);
    NonBlankAppend(before + [line], after);
    NonBlankAppend(before, [line]);
  }

  /** The non-blank lines of `lines`, yielded one by one. */
  method YieldNonBlank(lines: seq<string>) returns (out: seq<string>)
    ensures out == NonBlank(lines)
  {
    hide Blank;
    out := [];
    var i := 0;
    while i < |lines|
      invariant 0 <= i <= |lines|
      invariant out + NonBlank(lines[i..]) == NonBlank(lines)
    {
      assert lines[i..][1..] == lines[i + 1..];
      Associative(out, if Blank(lines[i]) then [] else [lines[i]], NonBlank(lines[i + 1..]));
      if !Blank(lines[i]) { out := out + [lines[i]]; }
      i := i + 1;
    }
  }

  /** Not following: the whole text at once. */
  method WholeLogs(text: string) returns (out: seq<string>)
    ensures out == NonBlank(Split(text, NL))
  {
    out := YieldNonBlank(Split(text, NL));
  }

  lemma {:induction false} ConcatNext(chunks: seq<string>, i: nat)
    requires i < |chunks|
    ensures Concat(chunks[..i + 1]) == Concat(chunks[..i]) + chunks[i]
  {
    ConcatAppend(chunks[..i], [chunks[i]]);
    assert chunks[..i + 1] == chunks[..i] + [chunks[i]];
    assert Concat([chunks[i]]) == chunks[i];
  }

  /** Following: for every chunking, the lines the whole text would have given. */
  method FollowLogs(chunks: seq<string>) returns (out: seq<string>)
    ensures out == NonBlank(Split(Concat(chunks), NL))
  {
    out := [];
    var buffer: string := [];
    var i := 0;
    assert chunks[..0] == [];
    while i < |chunks|
      invariant 0 <= i <= |chunks|
      invariant buffer == Partial(Concat(chunks[..i]), NL)
      invariant out == NonBlank(Complete(Concat(chunks[..i]), NL))
    {
      ghost var sofar := Concat(chunks[..i]);
      AppendLines(sofar, chunks[i], NL);
      NonBlankAppend(Complete(sofar, NL), Complete(buffer + chunks[i], NL));
      ConcatNext(chunks, i);
      buffer := buffer + chunks[i];
      var lines := Split(buffer, NL);
      buffer := lines[|lines| - 1];
      var yielded := YieldNonBlank(lines[..|lines| - 1]);
      out := out + yielded;
      i := i + 1;
    }
    assert chunks[..i] == chunks;
    var parts := Complete(Concat(chunks), NL);
    assert Split(Concat(chunks), NL) == parts + [buffer];
    NonBlankAppend(parts, [buffer]);
    if !Blank(buffer) { out := out + [buffer]; }
  }
}
