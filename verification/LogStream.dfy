/** From output bytes to log rows (apps/api/src/services/run-attachment.ts:780-970,
    apps/api/src/services/run-log-service.ts:228-276): each line of a run's output becomes a row once,
    with no gap, whichever holders stream it and wherever one of them stops. */
module LogStream {
  import opened Lines
  import opened RunSpec

  /** A line and the file offset just past it. */
  datatype OutputLine = OutputLine(text: seq<Byte>, end: nat)

  function Numbered(lines: seq<seq<Byte>>, base: nat): (r: seq<OutputLine>)
    ensures |r| == |lines|
  {
    if lines == [] then []
    else
      var end := base + |lines[0]| + 1;
      [OutputLine(lines[0], end)] + Numbered(lines[1..], end)
  }

  /** The newline-terminated lines of the file. */
  function FileLines(output: seq<Byte>): seq<OutputLine> {
    Numbered(Complete(output, NEWLINE), 0)
  }

  /** Every line of a file that ends here: an unterminated tail is its last line. */
  function AllLines(output: seq<Byte>): seq<OutputLine> {
    var tail := Partial(output, NEWLINE);
    FileLines(output) + (if tail != [] then [OutputLine(tail, |output|)] else [])
  }

  function EndOf(lines: seq<OutputLine>): nat {
    if lines == [] then 0 else lines[|lines| - 1].end
  }

  // ---- The splitter ----

  method IndexOf(buf: seq<Byte>, start: nat) returns (i: int)
    requires start <= |buf|
    ensures i == -1 ==> NEWLINE !in buf[start..]
    ensures i != -1 ==> start <= i < |buf| && buf[i] == NEWLINE && NEWLINE !in buf[start..i]
  {
    i := start;
    while i < |buf|
      invariant start <= i <= |buf|
      invariant NEWLINE !in buf[start..i]
    {
      if buf[i] == NEWLINE { return; }
      i := i + 1;
    }
    i := -1;
  }

  /** The loop of `push`: every line of `buf` with its end offset, and where the unfinished rest starts. */
  method SplitLines(buf: seq<Byte>, base: nat) returns (lines: seq<OutputLine>, start: nat)
    ensures start <= |buf|
    ensures lines == Numbered(Complete(buf, NEWLINE), base)
    ensures buf[start..] == Partial(buf, NEWLINE) && NEWLINE !in buf[start..]
  {
    lines, start := [], 0;
    var i := IndexOf(buf, 0);
    while i != -1
      invariant 0 <= start <= |buf| && AtLineBoundary(buf[..start], NEWLINE)
      invariant lines == Numbered(Complete(buf[..start], NEWLINE), base)
      invariant i == -1 ==> NEWLINE !in buf[start..]
      invariant i != -1 ==> start <= i < |buf| && buf[i] == NEWLINE && NEWLINE !in buf[start..i]
      decreases if i == -1 then 0 else |buf| - start + 1
    {
      NextLine(buf, start, i, base);
      lines := lines + [OutputLine(buf[start..i], base + i + 1)];
      start := i + 1;
      i := IndexOf(buf, start);
    }
    LastLine(buf, start);
  }

  lemma LastLine(buf: seq<Byte>, start: nat)
    requires start <= |buf| && AtLineBoundary(buf[..start], NEWLINE) && NEWLINE !in buf[start..]
    ensures Complete(buf, NEWLINE) == Complete(buf[..start], NEWLINE)
    ensures Partial(buf, NEWLINE) == buf[start..]
  {
    hide Split;
    var front, rest := buf[..start], buf[start..];
    assert buf == front + rest;
    BoundaryAppend(front, rest, NEWLINE);
    SplitLine(rest, [], NEWLINE);
    assert Complete(rest, NEWLINE) == [] && Partial(rest, NEWLINE) == rest;
  }

  class LineSplitter {
    var pending: seq<Byte>
    /** The file offset of the end of what has been pushed so far. */
    var seen: nat

    ghost predicate Valid()
      reads this
    {
      NEWLINE !in pending && |pending| <= seen
    }

    constructor (fromByte: nat)
      ensures Valid() && pending == [] && seen == fromByte
    {
      pending, seen := [], fromByte;
    }

    /** The lines `chunk` completes. */
    method Push(chunk: seq<Byte>) returns (lines: seq<OutputLine>)
      requires Valid()
      modifies this
      ensures Valid()
      ensures lines == Numbered(Complete(old(pending) + chunk, NEWLINE), old(seen) - |old(pending)|)
      ensures pending == Partial(old(pending) + chunk, NEWLINE)
      ensures seen == old(seen) + |chunk|
    {
      var buf := if |pending| > 0 then pending + chunk else chunk;
      assert buf == pending + chunk;
      var start;
      lines, start := SplitLines(buf, seen - |pending|);
      pending := buf[start..];
      seen := seen + |chunk|;
    }

    /** The unterminated tail, as a last line. */
    method Flush() returns (line: Option<OutputLine>)
      requires Valid()
      modifies this
      ensures Valid() && pending == [] && seen == old(seen)
      ensures line == if old(pending) == [] then None else Some(OutputLine(old(pending), seen))
    {
      if |pending| == 0 { return None; }
      line := Some(OutputLine(pending, seen));
      pending := [];
    }
  }

  lemma {:induction false} NumberedAppend(a: seq<seq<Byte>>, b: seq<seq<Byte>>, base: nat)
    ensures Numbered(a + b, base) == Numbered(a, base) + Numbered(b, base + |Unlines(a, NEWLINE)|)
  {
    if a == [] {
      assert a + b == b;
    } else {
      var end := base + |a[0]| + 1;
      NumberedAppend(a[1..], b, end);
      TailAppend(a, b);
      Associative([OutputLine(a[0], end)], Numbered(a[1..], end), Numbered(b, end + |Unlines(a[1..], NEWLINE)|));
    }
  }

  lemma NextLine(buf: seq<Byte>, start: nat, i: nat, base: nat)
    requires start <= i < |buf| && AtLineBoundary(buf[..start], NEWLINE)
    requires buf[i] == NEWLINE && NEWLINE !in buf[start..i]
    ensures Numbered(Complete(buf[..i + 1], NEWLINE), base) ==
            Numbered(Complete(buf[..start], NEWLINE), base) + [OutputLine(buf[start..i], base + i + 1)]
  {
    var front, line := buf[..start], buf[start..i];
    OneLine(line);
    assert buf[..i + 1] == front + (line + [NEWLINE]);
    BoundaryAppend(front, line + [NEWLINE], NEWLINE);
    NumberedAppend(Complete(front, NEWLINE), [line], base);
    CompleteUnlines(front, NEWLINE);
    BoundaryPartial(front, NEWLINE);
    hide Split, Unlines;
    assert Unlines(Complete(front, NEWLINE), NEWLINE) == front;
  }

  lemma OneLine(line: seq<Byte>)
    requires NEWLINE !in line
    ensures Complete(line + [NEWLINE], NEWLINE) == [line]
  {
    SplitLine(line, [], NEWLINE);
    assert line + [NEWLINE] + [] == line + [NEWLINE];
  }

  /** What the splitter hands out over a whole stream: after `received`, one more chunk gives exactly the
      lines of the file that end in that chunk, at their offsets in the file. */
  lemma {:induction false} PushIsFileLines(received: seq<Byte>, chunk: seq<Byte>)
    ensures var pending := Partial(received, NEWLINE);
            && |pending| <= |received|
            && FileLines(received + chunk) ==
               FileLines(received) + Numbered(Complete(pending + chunk, NEWLINE), |received| - |pending|)
            && Partial(received + chunk, NEWLINE) == Partial(pending + chunk, NEWLINE)
  {
    CompleteUnlines(received, NEWLINE);
    AppendLines(received, chunk, NEWLINE);
    NumberedAppend(Complete(received, NEWLINE), Complete(Partial(received, NEWLINE) + chunk, NEWLINE), 0);
  }

  // ---- Line offsets ----

  ghost predicate Increasing(lines: seq<OutputLine>, base: nat) {
    && (forall i :: 0 <= i < |lines| ==> base < lines[i].end)
    && (forall i, j :: 0 <= i < j < |lines| ==> lines[i].end < lines[j].end)
  }

  lemma {:induction false} NumberedIncreasing(lines: seq<seq<Byte>>, base: nat)
    ensures Increasing(Numbered(lines, base), base)
    ensures lines != [] ==> EndOf(Numbered(lines, base)) == base + |Unlines(lines, NEWLINE)|
  {
    if lines != [] {
      NumberedIncreasing(lines[1..], base + |lines[0]| + 1);
    }
  }

  lemma {:induction false} AllIncreasing(output: seq<Byte>)
    ensures Increasing(AllLines(output), 0)
    ensures EndOf(FileLines(output)) + |Partial(output, NEWLINE)| == |output|
  {
    NumberedIncreasing(Complete(output, NEWLINE), 0);
    CompleteUnlines(output, NEWLINE);
  }

  /** Where a numbered line ends, and what stands around it in the text. */
  lemma {:induction false} NumberedAt(lines: seq<seq<Byte>>, k: nat)
    requires k < |lines|
    ensures Numbered(lines, 0)[k] == OutputLine(lines[k], |Unlines(lines[..k], NEWLINE)| + |lines[k]| + 1)
    ensures EndOf(Numbered(lines, 0)[..k]) == |Unlines(lines[..k], NEWLINE)|
    ensures Unlines(lines, NEWLINE) ==
            Unlines(lines[..k], NEWLINE) + (lines[k] + ([NEWLINE] + Unlines(lines[k + 1..], NEWLINE)))
  {
    var front, rest := lines[..k], lines[k..];
    assert lines == front + rest && rest[0] == lines[k] && rest[1..] == lines[k + 1..];
    NumberedAppend(front, rest, 0);
    NumberedIncreasing(front, 0);
    UnlinesAppend(front, rest, NEWLINE);
    Associative(lines[k], [NEWLINE], Unlines(lines[k + 1..], NEWLINE));
    assert Numbered(lines, 0)[..k] == Numbered(front, 0);
    assert Numbered(lines, 0)[k] == Numbered(rest, |Unlines(front, NEWLINE)|)[0];
  }

  lemma Middle(a: seq<Byte>, b: seq<Byte>, c: seq<Byte>)
    ensures (a + (b + c))[|a|..|a| + |b|] == b && (c != [] ==> (a + (b + c))[|a| + |b|] == c[0])
  {
  }

  /** A newline-terminated line in the file. */
  lemma {:induction false} FileLineAt(output: seq<Byte>, k: nat)
    requires k < |FileLines(output)|
    ensures var line, from := FileLines(output)[k], EndOf(FileLines(output)[..k]);
            && from + |line.text| < |output| && line.text == output[from..from + |line.text|]
            && NEWLINE !in line.text
            && output[from + |line.text|] == NEWLINE && line.end == from + |line.text| + 1
  {
    CompleteUnlines(output, NEWLINE);
    SplitParts(output, NEWLINE);
    var whole, tail := Complete(output, NEWLINE), Partial(output, NEWLINE);
    NumberedAt(whole, k);
    assert NEWLINE !in whole[k];
    hide *;
    var front, after := Unlines(whole[..k], NEWLINE), [NEWLINE] + Unlines(whole[k + 1..], NEWLINE);
    Associative(front, whole[k] + after, tail);
    Associative(whole[k], after, tail);
    Middle(front, whole[k], after + tail);
    assert output == front + (whole[k] + (after + tail));
    assert (after + tail)[0] == NEWLINE && |after + tail| > 0;
    assert FileLines(output) == Numbered(whole, 0);
  }

  /** The lines tile the file: line `k` is the bytes from where the one before it ended up to a newline, or to
      the end of the file, and has no newline in it; the last one ends where the file does. */
  lemma {:induction false} LinesTile(output: seq<Byte>, k: nat)
    requires k < |AllLines(output)|
    ensures var lines := AllLines(output);
            var from := EndOf(lines[..k]);
            && from + |lines[k].text| <= |output| && lines[k].text == output[from..from + |lines[k].text|]
            && NEWLINE !in lines[k].text
            && (if from + |lines[k].text| < |output|
                then output[from + |lines[k].text|] == NEWLINE && lines[k].end == from + |lines[k].text| + 1
                else k == |lines| - 1 && lines[k].end == |output| && lines[k].text != [])
            && EndOf(lines) == |output|
  {
    hide FileLines, Partial, Complete, Numbered;
    AllIncreasing(output);
    AllEnd(output);
    if k < |FileLines(output)| {
      FileLineAt(output, k);
      assert AllLines(output)[..k] == FileLines(output)[..k] && AllLines(output)[k] == FileLines(output)[k];
    } else {
      TailAt(output);
      assert AllLines(output)[..k] == FileLines(output);
    }
  }

  lemma AllEnd(output: seq<Byte>)
    ensures EndOf(AllLines(output)) == |output|
  {
    AllIncreasing(output);
    hide FileLines, Partial;
    assert Partial(output, NEWLINE) == [] ==> AllLines(output) == FileLines(output);
  }

  /** The unterminated tail in the file. */
  lemma TailAt(output: seq<Byte>)
    ensures var tail, from := Partial(output, NEWLINE), EndOf(FileLines(output));
            from + |tail| == |output| && output[from..] == tail && NEWLINE !in tail
  {
    AllIncreasing(output);
    CompleteUnlines(output, NEWLINE);
    SplitParts(output, NEWLINE);
    hide FileLines, Numbered, Unlines;
  }

  /** Lines of the file stay its lines as it grows. */
  lemma {:induction false} FileLinesGrow(output: seq<Byte>, more: seq<Byte>)
    ensures FileLines(output) <= FileLines(output + more)
  {
    PushIsFileLines(output, more);
  }

  // ---- Holders that stream, and the rows they store ----

  /** The run's row: how much of the output is log rows, who holds the run, and the rows themselves. */
  datatype Db = Db(consumed: nat, holder: nat, rows: seq<OutputLine>)

  /** One holder's stream, from byte 0 of the output: the bytes it received, the offset it knows. */
  datatype Streamer = Streamer(received: nat, consumed: nat, streaming: bool)

  datatype State = State(output: seq<Byte>, db: Db, streamers: map<nat, Streamer>)

  datatype Label =
    /** The agent writes output. */
    | Append(bytes: seq<Byte>)
    /** A job takes the run under a new token. */
    | Claim(token: nat)
    /** Its attachment delivers the bytes up to `to`. */
    | Chunk(token: nat, to: nat)
    /** Its attachment reports `exited`, at any time: a runtime may do so before the last bytes came. */
    | Exit(token: nat)
    /** Its stream ends early: a crash, a shutdown, a dropped exec. */
    | Stop(token: nat)

  /** The lines past the holder's offset; the others are replayed only. */
  function Fresh(lines: seq<OutputLine>, consumed: nat): seq<OutputLine> {
    if lines == [] then []
    else (if lines[0].end <= consumed then [] else [lines[0]]) + Fresh(lines[1..], consumed)
  }

  /** One batch: the rows and the new offset in one transaction that only the holder at the old offset
      can commit. A holder that cannot has lost the run. */
  function HandleLines(s: State, token: nat, lines: seq<OutputLine>): State
    requires token in s.streamers
  {
    Commit(s, token, Fresh(lines, s.streamers[token].consumed))
  }

  function Commit(s: State, token: nat, added: seq<OutputLine>): State
    requires token in s.streamers
  {
    var st := s.streamers[token];
    if added == [] then s
    else if s.db.holder == token && s.db.consumed == st.consumed then
      var last := EndOf(added);
      s.(db := s.db.(consumed := last, rows := s.db.rows + added),
         streamers := s.streamers[token := st.(consumed := last)])
    else s.(streamers := s.streamers[token := st.(streaming := false)])
  }

  function ChunkNext(s: State, token: nat, to: nat): State {
    if token !in s.streamers || !s.streamers[token].streaming then s
    else if !(s.streamers[token].received < to <= |s.output|) then s
    else
      var st := s.streamers[token];
      var received := s.output[..st.received];
      var pending := Partial(received, NEWLINE);
      PushIsFileLines(received, []);
      var chunk := s.output[st.received..to];
      var lines := Numbered(Complete(pending + chunk, NEWLINE), |received| - |pending|);
      HandleLines(s.(streamers := s.streamers[token := st.(received := to)]), token, lines)
  }

  function Stopped(s: State, token: nat): State
    requires token in s.streamers
  {
    s.(streamers := s.streamers[token := s.streamers[token].(streaming := false)])
  }

  /** Whatever has no trailing newline by then is the last line. */
  function ExitNext(s: State, token: nat): State {
    if token !in s.streamers || !s.streamers[token].streaming || s.streamers[token].received > |s.output| then s
    else
      var received := s.streamers[token].received;
      var pending := Partial(s.output[..received], NEWLINE);
      Stopped(if pending == [] then s else HandleLines(s, token, [OutputLine(pending, received)]), token)
  }

  function Next(s: State, l: Label): State {
    match l
    case Append(bytes) => s.(output := s.output + bytes)
    case Claim(token) =>
      if token in s.streamers then s
      else s.(db := s.db.(holder := token), streamers := s.streamers[token := Streamer(0, s.db.consumed, true)])
    case Chunk(token, to) => ChunkNext(s, token, to)
    case Exit(token) => ExitNext(s, token)
    case Stop(token) => if token !in s.streamers then s else Stopped(s, token)
  }

  function Run(s: State, labels: seq<Label>): State
    decreases |labels|
  {
    if labels == [] then s else Run(Next(s, labels[0]), labels[1..])
  }

  /** A run just started: nothing consumed, nobody streaming. */
  ghost predicate Started(s: State) {
    s.db.consumed == 0 && s.db.rows == [] && s.streamers == map[]
  }

  /** The rows are the file's first lines, each once, and the offset is where they end. */
  ghost predicate RowsAreLines(s: State) {
    && s.db.rows <= AllLines(s.output)
    && s.db.consumed == EndOf(s.db.rows)
  }

  ghost predicate StreamerOk(s: State, st: Streamer) {
    && st.received <= |s.output|
    && st.consumed <= s.db.consumed
    && (st.streaming ==> EndOf(FileLines(s.output[..st.received])) <= st.consumed)
  }

  ghost predicate Inv(s: State) {
    && RowsAreLines(s)
    && (forall t :: t in s.streamers ==> StreamerOk(s, s.streamers[t]))
    && (s.db.holder in s.streamers && s.streamers[s.db.holder].streaming ==>
          s.streamers[s.db.holder].consumed == s.db.consumed)
  }

  /** In increasing lines, those past the end of the first `n` are the others. */
  lemma {:induction false} FreshSuffix(lines: seq<OutputLine>, k: nat, n: nat, m: nat)
    requires Increasing(lines, 0) && k <= n <= |lines| && k <= m <= |lines|
    ensures Fresh(lines[k..m], EndOf(lines[..n])) == if n <= m then lines[n..m] else []
    decreases m - k
  {
    if k < m {
      var rest := lines[k..m];
      if k < n {
        assert rest[0].end <= EndOf(lines[..n]) && rest[1..] == lines[k + 1..m];
        assert Fresh(rest, EndOf(lines[..n])) == [] + Fresh(rest[1..], EndOf(lines[..n]));
        FreshSuffix(lines, k + 1, n, m);
      } else {
        FreshAll(rest, EndOf(lines[..n]));
      }
    }
  }

  lemma {:induction false} FreshAll(lines: seq<OutputLine>, consumed: nat)
    requires forall i :: 0 <= i < |lines| ==> consumed < lines[i].end
    ensures Fresh(lines, consumed) == lines
  {
    if lines != [] {
      FreshAll(lines[1..], consumed);
    }
  }

  /** What a batch up to line `m` leaves behind: the rows are as they were or the file's first `m` lines, and
      those only if the holder's batch it was; the other holders are untouched, and one that still streams
      has passed line `m`. */
  ghost predicate BatchOk(s: State, s': State, token: nat, m: nat)
    requires token in s.streamers && m <= |AllLines(s.output)|
  {
    && token in s'.streamers
    && RowsAreLines(s') && s.db.consumed <= s'.db.consumed
    && s' == s.(db := s'.db, streamers := s.streamers[token := s'.streamers[token]])
    && s'.db.holder == s.db.holder && (s.db.holder != token ==> s'.db == s.db)
    && (s'.db.rows == s.db.rows || s'.db.rows == AllLines(s.output)[..m])
    && (var st, st' := s.streamers[token], s'.streamers[token];
    && st'.received == st.received
    && st'.consumed <= s'.db.consumed
    && (st'.streaming ==> st.streaming && EndOf(AllLines(s.output)[..m]) <= st'.consumed)
    && (s.db.holder == token ==>
          st'.consumed == s'.db.consumed && st'.streaming == st.streaming && m <= |s'.db.rows|))
  }

  /** A batch of consecutive lines of the file that starts no later than the streamer's offset. */
  lemma {:induction false} BatchInv(s: State, token: nat, k: nat, m: nat)
    requires RowsAreLines(s) && token in s.streamers && k <= m <= |AllLines(s.output)|
    requires s.streamers[token].consumed <= s.db.consumed
    requires EndOf(AllLines(s.output)[..k]) <= s.streamers[token].consumed
    requires s.db.holder == token ==> s.streamers[token].consumed == s.db.consumed
    ensures BatchOk(s, HandleLines(s, token, AllLines(s.output)[k..m]), token, m)
  {
    var all := AllLines(s.output);
    AllIncreasing(s.output);
    var st := s.streamers[token];
    var n := |s.db.rows|;
    assert all[..n] == s.db.rows;
    if st.consumed == s.db.consumed {
      StartsBefore(all, k, n);
      FreshSuffix(all, k, n, m);
      CommitRows(all, n, m);
      hide AllLines, Fresh;
      assert HandleLines(s, token, all[k..m]) == Commit(s, token, if n <= m then all[n..m] else []);
      if n < m {
        CommitOk(s, token, n, m);
      }
    } else {
      StaleBatch(s, token, k, m);
    }
  }

  /** A batch of a streamer that lost the run: it has nothing new, or it stops. */
  lemma {:induction false} StaleBatch(s: State, token: nat, k: nat, m: nat)
    requires RowsAreLines(s) && token in s.streamers && k <= m <= |AllLines(s.output)|
    requires s.streamers[token].consumed < s.db.consumed && s.db.holder != token
    requires EndOf(AllLines(s.output)[..k]) <= s.streamers[token].consumed
    ensures BatchOk(s, HandleLines(s, token, AllLines(s.output)[k..m]), token, m)
  {
    var all := AllLines(s.output);
    NoneAdded(all[k..m], s.streamers[token].consumed);
    if Fresh(all[k..m], s.streamers[token].consumed) == [] && m > k {
      assert all[k..m][m - k - 1] == all[m - 1];
    }
  }

  lemma {:induction false} CommitOk(s: State, token: nat, n: nat, m: nat)
    requires token in s.streamers && n < m <= |AllLines(s.output)|
    requires s.db.rows == AllLines(s.output)[..n] && s.streamers[token].consumed == s.db.consumed
    requires RowsAreLines(s)
    requires var all := AllLines(s.output);
             s.db.rows + all[n..m] == all[..m] && EndOf(all[n..m]) == EndOf(all[..m]) > s.db.consumed
    ensures BatchOk(s, Commit(s, token, AllLines(s.output)[n..m]), token, m)
  {
    var all := AllLines(s.output);
    if s.db.holder == token {
      var s' := Commit(s, token, all[n..m]);
      assert s'.db.rows == all[..m];
    }
  }

  lemma {:induction false} StartsBefore(all: seq<OutputLine>, k: nat, n: nat)
    requires Increasing(all, 0) && k <= |all| && n <= |all|
    requires EndOf(all[..k]) <= EndOf(all[..n])
    ensures k <= n
  {
  }

  lemma {:induction false} CommitRows(all: seq<OutputLine>, n: nat, m: nat)
    requires Increasing(all, 0) && n <= |all| && m <= |all|
    ensures n < m ==> all[..n] + all[n..m] == all[..m] && EndOf(all[n..m]) == EndOf(all[..m])
    ensures n < m ==> EndOf(all[..n]) < EndOf(all[..m])
    ensures m <= n ==> EndOf(all[..m]) <= EndOf(all[..n])
  {
  }

  lemma {:induction false} NoneAdded(lines: seq<OutputLine>, consumed: nat)
    ensures Fresh(lines, consumed) == [] <==> forall i :: 0 <= i < |lines| ==> lines[i].end <= consumed
  {
    if lines != [] {
      NoneAdded(lines[1..], consumed);
      if forall i :: 0 <= i < |lines| ==> lines[i].end <= consumed {
        forall i | 0 <= i < |lines| - 1 ensures lines[1..][i].end <= consumed {
          assert lines[1..][i] == lines[i + 1];
        }
      } else if forall i :: 0 <= i < |lines[1..]| ==> lines[1..][i].end <= consumed {
        forall i | 1 <= i < |lines| ensures lines[i].end <= consumed {
          assert lines[1..][i - 1] == lines[i];
        }
      }
    }
  }

  lemma {:induction false} ChunkInv(s: State, token: nat, to: nat)
    requires Inv(s) && token in s.streamers && s.streamers[token].streaming
    requires s.streamers[token].received < to <= |s.output|
    ensures var s' := ChunkNext(s, token, to);
            Inv(s') && (s'.db.rows == s.db.rows || s'.db.rows <= FileLines(s.output))
  {
    var st := s.streamers[token];
    var k, m := ChunkLines(s.output, st.received, to);
    EndWithin(s, token);
    BatchMid(s, token, to, k, m);
    ChunkIsBatch(s, token, to, k, m);
  }

  lemma ChunkIsBatch(s: State, token: nat, to: nat, k: nat, m: nat)
    requires token in s.streamers && s.streamers[token].streaming && s.streamers[token].received < to <= |s.output|
    requires k <= m <= |AllLines(s.output)|
    requires var had := s.streamers[token].received;
             var pending := Partial(s.output[..had], NEWLINE);
             && |pending| <= had
             && AllLines(s.output)[k..m] ==
                Numbered(Complete(pending + s.output[had..to], NEWLINE), had - |pending|)
    ensures var mid := s.(streamers := s.streamers[token := s.streamers[token].(received := to)]);
            ChunkNext(s, token, to) == HandleLines(mid, token, AllLines(s.output)[k..m])
  {
    hide AllLines, FileLines, Numbered, Complete, Partial, HandleLines;
  }

  lemma EndWithin(s: State, token: nat)
    requires Inv(s) && token in s.streamers && s.streamers[token].streaming
    ensures EndOf(FileLines(s.output[..s.streamers[token].received])) <= s.streamers[token].consumed
  {
    assert StreamerOk(s, s.streamers[token]);
  }

  /** The lines a chunk completes are consecutive lines of the file, after those completed before. */
  lemma {:induction false} ChunkLines(output: seq<Byte>, had: nat, to: nat) returns (k: nat, m: nat)
    requires had < to <= |output|
    ensures k <= m <= |AllLines(output)|
    ensures AllLines(output)[..k] == FileLines(output[..had])
    ensures AllLines(output)[..m] == FileLines(output[..to]) <= FileLines(output)
    ensures var pending := Partial(output[..had], NEWLINE);
            && |pending| <= had
            && AllLines(output)[k..m] == Numbered(Complete(pending + output[had..to], NEWLINE), had - |pending|)
  {
    hide Complete, Partial, Numbered, AllLines, FileLines;
    var received, chunk := output[..had], output[had..to];
    PushIsFileLines(received, chunk);
    assert received + chunk == output[..to];
    assert output[..to] + output[to..] == output;
    FileLinesGrow(output[..to], output[to..]);
    LinesFirst(output);
    var pending := Partial(received, NEWLINE);
    var lines := Numbered(Complete(pending + chunk, NEWLINE), had - |pending|);
    k, m := |FileLines(received)|, |FileLines(output[..to])|;
    Pieces(AllLines(output), FileLines(received), lines, FileLines(output[..to]));
  }

  lemma LinesFirst(output: seq<Byte>)
    ensures FileLines(output) <= AllLines(output)
  {
  }

  lemma Pieces(all: seq<OutputLine>, a: seq<OutputLine>, b: seq<OutputLine>, ab: seq<OutputLine>)
    requires ab == a + b && ab <= all
    ensures all[..|a|] == a && all[|a|..|ab|] == b && all[..|ab|] == ab
  {
  }

  /** The batch with the streamer already past `to`: between the two only its own entry differs. */
  lemma {:induction false} BatchMid(s: State, token: nat, to: nat, k: nat, m: nat)
    requires Inv(s) && token in s.streamers && s.streamers[token].streaming && to <= |s.output|
    requires var all := AllLines(s.output);
             && k <= m <= |all|
             && EndOf(all[..k]) <= s.streamers[token].consumed
             && all[..m] == FileLines(s.output[..to])
    ensures var mid := s.(streamers := s.streamers[token := s.streamers[token].(received := to)]);
            var s' := HandleLines(mid, token, AllLines(s.output)[k..m]);
            Inv(s') && (s'.db.rows == s.db.rows || s'.db.rows == AllLines(s.output)[..m])
  {
    BatchInv(s, token, k, m);
    var all := AllLines(s.output);
    var mid := s.(streamers := s.streamers[token := s.streamers[token].(received := to)]);
    var s1, s2 := HandleLines(s, token, all[k..m]), HandleLines(mid, token, all[k..m]);
    assert s2.db == s1.db && s2.streamers[token] == s1.streamers[token].(received := to);
    forall t | t in s2.streamers ensures StreamerOk(s2, s2.streamers[t]) {
      if t != token {
        assert s2.streamers[t] == s.streamers[t];
      }
    }
  }

  // ---- A tail stored too early ----

  /** A row that ends within a line: what was the file's unterminated tail when it was stored, and is not
      any more. */
  predicate TornRow(output: seq<Byte>, row: OutputLine) {
    0 < row.end < |output| && output[row.end - 1] != NEWLINE
  }

  ghost predicate Torn(s: State) {
    exists k :: 0 <= k < |s.db.rows| && TornRow(s.output, s.db.rows[k])
  }

  lemma {:induction false} CompleteEnds(output: seq<Byte>, k: nat)
    requires k < |FileLines(output)|
    ensures 0 < FileLines(output)[k].end <= |output| && output[FileLines(output)[k].end - 1] == NEWLINE
  {
    CompleteUnlines(output, NEWLINE);
    NumberedEnds(Complete(output, NEWLINE), 0, k);
  }

  lemma {:induction false} NumberedEnds(lines: seq<seq<Byte>>, base: nat, k: nat)
    requires k < |lines|
    ensures var at, text := Numbered(lines, base)[k].end - base, Unlines(lines, NEWLINE);
            0 < at <= |text| && text[at - 1] == NEWLINE
  {
    if k > 0 {
      NumberedEnds(lines[1..], base + |lines[0]| + 1, k - 1);
    }
  }

  /** Rows that are lines of the file are not torn. */
  lemma {:induction false} LinesNotTorn(s: State)
    ensures RowsAreLines(s) ==> !Torn(s)
  {
    forall k | RowsAreLines(s) && 0 <= k < |s.db.rows| ensures !TornRow(s.output, s.db.rows[k]) {
      if k < |FileLines(s.output)| {
        CompleteEnds(s.output, k);
      }
    }
  }

  lemma HandleGrows(s: State, token: nat, lines: seq<OutputLine>)
    requires token in s.streamers
    ensures var s' := HandleLines(s, token, lines);
            s.db.rows <= s'.db.rows && s'.output == s.output && token in s'.streamers
  {
  }

  lemma NextGrows(s: State, l: Label)
    ensures s.db.rows <= Next(s, l).db.rows && s.output <= Next(s, l).output
  {
    match l {
      case Chunk(token, to) =>
        if token in s.streamers && s.streamers[token].streaming && s.streamers[token].received < to <= |s.output| {
          var st := s.streamers[token];
          var received := s.output[..st.received];
          var pending := Partial(received, NEWLINE);
          PushIsFileLines(received, []);
          var lines := Numbered(Complete(pending + s.output[st.received..to], NEWLINE), |received| - |pending|);
          HandleGrows(s.(streamers := s.streamers[token := st.(received := to)]), token, lines);
        }
      case Exit(token) =>
        if token in s.streamers && s.streamers[token].received <= |s.output| {
          var received := s.streamers[token].received;
          HandleGrows(s, token, [OutputLine(Partial(s.output[..received], NEWLINE), received)]);
        }
      case _ =>
    }
  }

  lemma {:induction false} RunGrows(s: State, labels: seq<Label>)
    ensures s.db.rows <= Run(s, labels).db.rows && s.output <= Run(s, labels).output
    decreases |labels|
  {
    hide Next;
    if labels != [] {
      NextGrows(s, labels[0]);
      RunGrows(Next(s, labels[0]), labels[1..]);
    }
  }

  lemma TornForever(s: State, r: State)
    requires Torn(s) && s.db.rows <= r.db.rows && s.output <= r.output
    ensures Torn(r)
  {
    var k :| 0 <= k < |s.db.rows| && TornRow(s.output, s.db.rows[k]);
    assert TornRow(r.output, r.db.rows[k]);
  }

  /** Output after the rows' end leaves them lines, or tears the last one. */
  lemma {:induction false} GrowInv(s: State, bytes: seq<Byte>)
    requires Inv(s)
    ensures Inv(Next(s, Append(bytes))) || Torn(Next(s, Append(bytes)))
    ensures s.db.rows <= FileLines(s.output) ==>
              Inv(Next(s, Append(bytes))) && s.db.rows <= FileLines(s.output + bytes)
  {
    var s' := Next(s, Append(bytes));
    FileLinesGrow(s.output, bytes);
    var n := |s.db.rows|;
    if n <= |FileLines(s.output)| {
      assert s.db.rows == AllLines(s.output)[..n] == FileLines(s.output)[..n];
      assert s.db.rows <= FileLines(s'.output);
      forall t | t in s'.streamers ensures StreamerOk(s', s'.streamers[t]) {
        assert s'.output[..s.streamers[t].received] == s.output[..s.streamers[t].received];
      }
    } else {
      TailRow(s.output, s.db.rows);
      if bytes == [] {
        assert s' == s.(output := s.output + []) && s.output + [] == s.output;
      } else {
        assert TornRow(s'.output, s.db.rows[n - 1]);
      }
    }
  }

  lemma TailRow(output: seq<Byte>, rows: seq<OutputLine>)
    requires rows <= AllLines(output) && |rows| > |FileLines(output)|
    ensures |output| > 0 && rows[|rows| - 1].end == |output| && output[|output| - 1] != NEWLINE
  {
    BoundaryPartial(output, NEWLINE);
  }

  /** An exit that finds the whole output received stores the tail as the last line. */
  lemma {:induction false} ExitInv(s: State, token: nat)
    requires Inv(s) && token in s.streamers && s.streamers[token].streaming
    requires s.streamers[token].received == |s.output|
    ensures Inv(ExitNext(s, token))
    ensures s.db.holder == token ==> ExitNext(s, token).db.rows == AllLines(s.output)
  {
    var all := AllLines(s.output);
    var k := |FileLines(s.output)|;
    assert s.output[..|s.output|] == s.output;
    assert all[..k] == FileLines(s.output);
    BatchInv(s, token, k, |all|);
    var pending := Partial(s.output, NEWLINE);
    if pending != [] {
      assert all[k..] == [OutputLine(pending, |s.output|)];
      assert all[k..|all|] == all[k..];
    } else {
      assert all[k..|all|] == [];
      assert HandleLines(s, token, []) == s;
    }
    StoppedInv(s, HandleLines(s, token, all[k..|all|]), token, |all|);
  }

  lemma StoppedInv(s: State, s1: State, token: nat, m: nat)
    requires Inv(s) && token in s.streamers && m <= |AllLines(s.output)| && BatchOk(s, s1, token, m)
    ensures Inv(Stopped(s1, token))
  {
    var s' := Stopped(s1, token);
    forall t | t in s'.streamers ensures StreamerOk(s', s'.streamers[t]) {
      if t != token {
        assert s'.streamers[t] == s.streamers[t];
      }
    }
  }

  /** One that comes before the last bytes did changes no row, or stores a torn one. */
  lemma {:induction false} EarlyExit(s: State, token: nat)
    requires Inv(s) && token in s.streamers && s.streamers[token].streaming
    requires s.streamers[token].received < |s.output|
    ensures Inv(ExitNext(s, token)) || Torn(ExitNext(s, token))
    ensures Inv(ExitNext(s, token)) ==> ExitNext(s, token).db == s.db
  {
    var st := s.streamers[token];
    var received := s.output[..st.received];
    var pending := Partial(received, NEWLINE);
    BoundaryPartial(received, NEWLINE);
    assert StreamerOk(s, st);
    if pending == [] || st.received <= st.consumed || s.db.holder != token {
      UnchangedInv(s, token);
    } else {
      var row := OutputLine(pending, st.received);
      assert Fresh([row], st.consumed) == [row] + Fresh([row][1..], st.consumed) == [row];
      var s1 := HandleLines(s, token, [row]);
      assert s1.db.rows == s.db.rows + [row];
      assert TornRow(s.output, row) && s1.db.rows[|s.db.rows|] == row;
      LinesNotTorn(ExitNext(s, token));
    }
  }

  lemma UnchangedInv(s: State, token: nat)
    requires Inv(s) && token in s.streamers && s.streamers[token].received <= |s.output|
    requires var st := s.streamers[token];
             || Partial(s.output[..st.received], NEWLINE) == []
             || st.received <= st.consumed || s.db.holder != token
    ensures Inv(ExitNext(s, token)) && ExitNext(s, token).db == s.db
  {
    var st := s.streamers[token];
    var row := OutputLine(Partial(s.output[..st.received], NEWLINE), st.received);
    assert Fresh([row], st.consumed) == (if row.end <= st.consumed then [] else [row]) + Fresh([row][1..], st.consumed);
    var s' := ExitNext(s, token);
    forall t | t in s'.streamers ensures StreamerOk(s', s'.streamers[t]) {
      assert StreamerOk(s, s.streamers[t]);
    }
  }

  lemma {:induction false} NextInv(s: State, l: Label)
    requires Inv(s)
    ensures Inv(Next(s, l)) || Torn(Next(s, l))
  {
    match l {
      case Append(bytes) => GrowInv(s, bytes);
      case Chunk(token, to) =>
        if token in s.streamers && s.streamers[token].streaming && s.streamers[token].received < to <= |s.output| {
          ChunkInv(s, token, to);
        }
      case Exit(token) =>
        if token in s.streamers && s.streamers[token].streaming {
          assert StreamerOk(s, s.streamers[token]);
          if s.streamers[token].received == |s.output| { ExitInv(s, token); } else { EarlyExit(s, token); }
        }
      case _ => OthersInv(s, l);
    }
  }

  lemma OthersInv(s: State, l: Label)
    requires Inv(s) && (l.Claim? || l.Stop?)
    ensures Inv(Next(s, l)) && Next(s, l).output == s.output && Next(s, l).db.rows == s.db.rows
  {
    var s' := Next(s, l);
    forall t | t in s'.streamers ensures StreamerOk(s', s'.streamers[t]) {
      if t in s.streamers {
        assert StreamerOk(s, s.streamers[t]);
      } else {
        assert s'.output[..0] == [] && Split([], NEWLINE) == [[]];
      }
    }
  }

  lemma {:induction false} RunInv(s: State, labels: seq<Label>)
    requires Inv(s) || Torn(s)
    ensures Inv(Run(s, labels)) || Torn(Run(s, labels))
    decreases |labels|
  {
    hide Inv, Torn, Next;
    if labels != [] {
      if Torn(s) {
        NextGrows(s, labels[0]);
        TornForever(s, Next(s, labels[0]));
      } else {
        NextInv(s, labels[0]);
      }
      RunInv(Next(s, labels[0]), labels[1..]);
    }
  }

  // ---- Main results ----

  lemma StartInv(s: State)
    requires Started(s)
    ensures Inv(s)
  {
  }

  lemma LinesOrTorn(r: State)
    requires Inv(r) || Torn(r)
    ensures RowsAreLines(r) <==> !Torn(r)
  {
    LinesNotTorn(r);
  }

  /** When it goes wrong: the run's holder sees `exited` with a tail pending that is no row yet. Whatever
      follows, the rows stay the file's lines exactly while no byte comes behind what it had received. */
  lemma {:induction false} ExitTearsIff(s: State, token: nat, labels: seq<Label>)
    requires Inv(s) && s.db.holder == token && token in s.streamers && s.streamers[token].streaming
    requires s.streamers[token].consumed < s.streamers[token].received <= |s.output|
    requires Partial(s.output[..s.streamers[token].received], NEWLINE) != []
    ensures var r := Run(ExitNext(s, token), labels);
            RowsAreLines(r) <==> |r.output| == s.streamers[token].received
  {
    var e := s.streamers[token].received;
    var t := ExitNext(s, token);
    var r := Run(t, labels);
    ExitStores(s, token);
    RunGrows(t, labels);
    var k := |s.db.rows|;
    if |r.output| == e {
      assert s.output == r.output;
      ExitInv(s, token);
      AtEndInv(t, labels);
    } else {
      assert r.db.rows[k] == t.db.rows[k] && TornRow(r.output, r.db.rows[k]);
      LinesNotTorn(r);
    }
  }

  lemma ExitStores(s: State, token: nat)
    requires Inv(s) && s.db.holder == token && token in s.streamers && s.streamers[token].streaming
    requires s.streamers[token].consumed < s.streamers[token].received <= |s.output|
    requires Partial(s.output[..s.streamers[token].received], NEWLINE) != []
    ensures var e, t := s.streamers[token].received, ExitNext(s, token);
            && t.output == s.output && |t.db.rows| == |s.db.rows| + 1 && t.db.rows[|s.db.rows|].end == e
            && t.db.consumed == e && 0 < e && s.output[e - 1] != NEWLINE
  {
    var st := s.streamers[token];
    var row := OutputLine(Partial(s.output[..st.received], NEWLINE), st.received);
    BoundaryPartial(s.output[..st.received], NEWLINE);
    assert Fresh([row], st.consumed) == [row] + Fresh([row][1..], st.consumed) == [row];
  }

  lemma {:induction false} Then(s: State, labels: seq<Label>, l: Label)
    ensures Run(s, labels + [l]) == Next(Run(s, labels), l)
    decreases |labels|
  {
    hide Next;
    if labels == [] {
      assert Run(Next(s, l), [l][1..]) == Next(s, l);
    } else {
      Then(Next(s, labels[0]), labels[1..], l);
      assert (labels + [l])[1..] == labels[1..] + [l];
    }
  }

  /** And that happens: a run whose first line is cut by the exit, with `more` to follow. */
  lemma {:induction false} ExitTears(s: State, token: nat, cut: seq<Byte>, more: seq<Byte>)
      returns (labels: seq<Label>)
    requires Started(s) && s.output == [] && cut != [] && more != [] && NEWLINE !in cut
    ensures Torn(Run(s, labels))
  {
    labels := [Claim(token)];
    Then(s, [], Claim(token));
    assert [] + [Claim(token)] == labels;
    Then(s, labels, Append(cut));
    labels := labels + [Append(cut)];
    assert [] + cut == cut;
    CutChunk(Run(s, labels), token, cut);
    Then(s, labels, Chunk(token, |cut|));
    labels := labels + [Chunk(token, |cut|)];
    Then(s, labels, Exit(token));
    labels := labels + [Exit(token)];
    Then(s, labels, Append(more));
    labels := labels + [Append(more)];
    assert TornRow(Run(s, labels).output, Run(s, labels).db.rows[0]);
  }

  lemma CutChunk(s: State, token: nat, cut: seq<Byte>)
    requires s.output == cut && cut != [] && NEWLINE !in cut && s.db == Db(0, token, [])
    requires token in s.streamers && s.streamers[token] == Streamer(0, 0, true)
    ensures var t := ChunkNext(s, token, |cut|);
            && t.output == cut && t.db == s.db
            && token in t.streamers && t.streamers[token] == Streamer(|cut|, 0, true)
    ensures var r := ExitNext(ChunkNext(s, token, |cut|), token);
            r.db.rows == [OutputLine(cut, |cut|)] && r.output == cut
  {
    SplitLine(cut, [], NEWLINE);
    assert cut[..0] == [] && cut[0..|cut|] == cut[..|cut|] == cut && Partial([], NEWLINE) + cut == cut;
    var row := OutputLine(cut, |cut|);
    assert Fresh([row], 0) == [row] + Fresh([row][1..], 0) == [row];
  }

  /** A stream that ended, by an exit or before, does nothing any more. */
  lemma EndedIsInert(s: State, token: nat, to: nat)
    requires token in s.streamers
    ensures token in Next(s, Stop(token)).streamers && !Next(s, Stop(token)).streamers[token].streaming
    ensures s.streamers[token].received <= |s.output| ==>
              token in Next(s, Exit(token)).streamers && !Next(s, Exit(token)).streamers[token].streaming
    ensures !s.streamers[token].streaming ==> Next(s, Chunk(token, to)) == s && Next(s, Exit(token)) == s
  {
  }

  /** With every byte in a row, nothing but more output can change that. */
  lemma {:induction false} AtEndInv(t: State, labels: seq<Label>)
    requires Inv(t) && t.db.consumed == |t.output| && |Run(t, labels).output| == |t.output|
    ensures Inv(Run(t, labels))
    decreases |labels|
  {
    if labels != [] {
      var t1 := Next(t, labels[0]);
      NextGrows(t, labels[0]);
      RunGrows(t1, labels[1..]);
      assert t1.output == t.output;
      AtEndNext(t, labels[0]);
      AtEndInv(t1, labels[1..]);
    }
  }

  lemma {:induction false} AtEndNext(t: State, l: Label)
    requires Inv(t) && t.db.consumed == |t.output| && Next(t, l).output == t.output
    ensures Inv(Next(t, l)) && Next(t, l).db.consumed == |t.output|
  {
    NextInv(t, l);
    RowsAtEnd(t, l);
    LinesNotTorn(t);
    assert Torn(Next(t, l)) ==> Torn(t);
  }

  lemma {:induction false} RowsAtEnd(t: State, l: Label)
    requires Inv(t) && t.db.consumed == |t.output| && Next(t, l).output == t.output
    ensures Next(t, l).db.rows == t.db.rows && Next(t, l).db.consumed == t.db.consumed
  {
    match l {
      case Chunk(token, to) => ChunkAtEnd(t, token, to);
      case Exit(token) =>
        if token in t.streamers && t.streamers[token].streaming {
          assert StreamerOk(t, t.streamers[token]);
          var received := t.streamers[token].received;
          HandleAtEnd(t, token, [OutputLine(Partial(t.output[..received], NEWLINE), received)]);
        }
      case _ =>
    }
  }

  lemma {:induction false} ChunkAtEnd(t: State, token: nat, to: nat)
    requires Inv(t) && t.db.consumed == |t.output|
    ensures ChunkNext(t, token, to).db == t.db
  {
    if token in t.streamers && t.streamers[token].streaming && t.streamers[token].received < to <= |t.output| {
      var st := t.streamers[token];
      var k, m := ChunkLines(t.output, st.received, to);
      EndsWithin(t.output);
      ChunkIsBatch(t, token, to, k, m);
      HandleAtEnd(t.(streamers := t.streamers[token := st.(received := to)]), token, AllLines(t.output)[k..m]);
    }
  }

  lemma {:induction false} EndsWithin(output: seq<Byte>)
    ensures forall i :: 0 <= i < |AllLines(output)| ==> AllLines(output)[i].end <= |output|
  {
    forall i | 0 <= i < |FileLines(output)| ensures FileLines(output)[i].end <= |output| {
      CompleteEnds(output, i);
    }
  }

  lemma HandleAtEnd(s: State, token: nat, lines: seq<OutputLine>)
    requires token in s.streamers && forall i :: 0 <= i < |lines| ==> lines[i].end <= s.db.consumed
    requires s.db.holder == token ==> s.streamers[token].consumed == s.db.consumed
    ensures HandleLines(s, token, lines).db == s.db
  {
    NoneAdded(lines, s.db.consumed);
  }

  /** This exit is the run's holder's, and finds a tail pending that is no row yet. */
  predicate StoresTail(s: State, l: Label) {
    && l.Exit? && l.token in s.streamers && s.streamers[l.token].streaming && s.db.holder == l.token
    && s.streamers[l.token].consumed < s.streamers[l.token].received <= |s.output|
    && Partial(s.output[..s.streamers[l.token].received], NEWLINE) != []
  }

  /** Some exit of a run stores a tail that ends before the run's output does. */
  predicate CutsLine(s: State, labels: seq<Label>)
    decreases |labels|
  {
    labels != [] &&
    ((StoresTail(s, labels[0]) && s.streamers[labels[0].token].received < |Run(s, labels).output|) ||
     CutsLine(Next(s, labels[0]), labels[1..]))
  }

  /** The last row is an unterminated tail. */
  ghost predicate TailStored(s: State) { !(s.db.rows <= FileLines(s.output)) }

  /** A step that stores no tail, and does not let the output grow past one that is stored. */
  lemma PlainStep(s: State, l: Label)
    requires Inv(s) && !StoresTail(s, l) && (TailStored(s) ==> |Next(s, l).output| == |s.output|)
    ensures Inv(Next(s, l)) && (TailStored(Next(s, l)) <==> TailStored(s))
  {
    NextGrows(s, l);
    match l {
      case Append(bytes) =>
        GrowInv(s, bytes);
        if bytes == [] { assert s.output + [] == s.output && Next(s, l) == s; }
      case Chunk(token, to) =>
        if token in s.streamers && s.streamers[token].streaming && s.streamers[token].received < to <= |s.output| {
          ChunkInv(s, token, to);
        }
      case Exit(token) =>
        if token in s.streamers && s.streamers[token].streaming {
          assert StreamerOk(s, s.streamers[token]);
          UnchangedInv(s, token);
        }
      case _ => OthersInv(s, l);
    }
  }

  /** Output behind a stored tail tears it. */
  lemma TailTorn(s: State, r: State)
    requires Inv(s) && TailStored(s) && s.db.rows <= r.db.rows && s.output <= r.output && |s.output| < |r.output|
    ensures !RowsAreLines(r)
  {
    ShortRows(s.output, s.db.rows);
    TailRow(s.output, s.db.rows);
    assert TornRow(r.output, r.db.rows[|s.db.rows| - 1]);
    LinesNotTorn(r);
  }

  lemma ShortRows(output: seq<Byte>, rows: seq<OutputLine>)
    requires rows <= AllLines(output)
    ensures rows <= FileLines(output) || |rows| > |FileLines(output)|
  {
    if |rows| <= |FileLines(output)| {
      assert rows == AllLines(output)[..|rows|] == FileLines(output)[..|rows|];
    }
  }

  lemma {:induction false} CutsIff(s: State, labels: seq<Label>)
    requires Inv(s)
    ensures var r := Run(s, labels);
            RowsAreLines(r) <==> !CutsLine(s, labels) && (TailStored(s) ==> |r.output| == |s.output|)
    decreases |labels|, 0
  {
    if labels != [] {
      var r := Run(s, labels);
      var l, s1, rest := labels[0], Next(s, labels[0]), labels[1..];
      NextGrows(s, l);
      RunGrows(s1, rest);
      assert r == Run(s1, rest);
      hide AllLines, FileLines, Inv, RowsAreLines, Next, Run, Torn, TailStored;
      if TailStored(s) && |r.output| > |s.output| {
        TailTorn(s, r);
      } else if StoresTail(s, l) {
        TailStep(s, l, rest);
      } else {
        PlainStep(s, l);
        CutsIff(s1, rest);
      }
    }
  }

  /** A step that stores the tail, and the rest of the run. */
  lemma {:induction false} TailStep(s: State, l: Label, rest: seq<Label>)
    requires Inv(s) && StoresTail(s, l)
    requires TailStored(s) ==> |Run(Next(s, l), rest).output| == |s.output|
    ensures var r := Run(Next(s, l), rest);
            RowsAreLines(r) <==> !(s.streamers[l.token].received < |r.output|) && !CutsLine(Next(s, l), rest)
    decreases |rest|, 1
  {
    var r, s1 := Run(Next(s, l), rest), Next(s, l);
    assert s1 == ExitNext(s, l.token);
    ExitTearsIff(s, l.token, rest);
    NextGrows(s, l);
    RunGrows(s1, rest);
    if s.streamers[l.token].received == |r.output| {
      ExitInv(s, l.token);
      CutsIff(s1, rest);
    }
  }

  /** Each line once, no gap: after any interleaving of output, claims, chunks, exits, crashes and stale
      holders, the rows are the file's first lines in order, and the offset is where they end, iff no exit
      of a holder stored a pending tail that the output then went on behind. */
  lemma {:induction false} EachLineOnceIff(s: State, labels: seq<Label>)
    requires Started(s)
    ensures var r := Run(s, labels);
            r.db.rows <= AllLines(r.output) && r.db.consumed == EndOf(r.db.rows) <==> !CutsLine(s, labels)
  {
    StartInv(s);
    CutsIff(s, labels);
  }

  /** No exit before the whole output was received, and no output after one: what the attachments of
      PollAttach and ExecAttach give, which report `exited` only behind the last byte. */
  ghost predicate ExitsAtEnd(s: State, labels: seq<Label>)
    decreases |labels|
  {
    labels != [] ==>
      && (labels[0].Exit? && labels[0].token in s.streamers && s.streamers[labels[0].token].streaming ==>
            s.streamers[labels[0].token].received == |s.output| == |Run(s, labels).output|)
      && ExitsAtEnd(Next(s, labels[0]), labels[1..])
  }

  lemma {:induction false} NoneCut(s: State, labels: seq<Label>)
    requires ExitsAtEnd(s, labels)
    ensures !CutsLine(s, labels)
    decreases |labels|
  {
    hide Next;
    if labels != [] {
      NoneCut(Next(s, labels[0]), labels[1..]);
    }
  }

  /** So for a runtime that reports `exited` behind the last byte: each line is a row once, with no gap. */
  lemma {:induction false} EachLineOnce(s: State, labels: seq<Label>)
    requires Started(s) && ExitsAtEnd(s, labels)
    ensures var r := Run(s, labels);
            r.db.rows <= AllLines(r.output) && r.db.consumed == EndOf(r.db.rows)
  {
    NoneCut(s, labels);
    EachLineOnceIff(s, labels);
  }

  /** And none is missing at the end: when the run's holder sees `exited` with all output received, the rows
      are all its lines, iff no exit cut one before. */
  lemma {:induction false} EveryLineAtExit(s: State, labels: seq<Label>, token: nat)
    requires Started(s)
    requires var r := Run(s, labels);
             && r.db.holder == token && token in r.streamers && r.streamers[token].streaming
             && r.streamers[token].received == |r.output|
    ensures var r := Run(s, labels);
            ExitNext(r, token).db.rows == AllLines(r.output) <==> !CutsLine(s, labels)
  {
    StartInv(s);
    RunInv(s, labels);
    EachLineOnceIff(s, labels);
    LinesOrTorn(Run(s, labels));
    var r := Run(s, labels);
    if Torn(r) {
      var r' := ExitNext(r, token);
      NextGrows(r, Exit(token));
      TornForever(r, r');
      var k :| 0 <= k < |r'.db.rows| && TornRow(r'.output, r'.db.rows[k]);
      if r'.db.rows == AllLines(r.output) {
        if k < |FileLines(r.output)| { CompleteEnds(r.output, k); }
      }
    } else {
      ExitInv(r, token);
    }
  }
}
