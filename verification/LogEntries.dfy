/** The log table itself (apps/api/src/services/run-attachment.ts:864-926): the line parser makes any number of
    entries of a line, and a batch inserts those of its new lines in the transaction that moves the offset. */
module LogEntries {
  import opened RunSpec
  import opened Lines
  import opened LogStream

  /** What the parser makes of a line; nothing of a blank one. */
  type Parser<!E> = seq<Byte> -> seq<E>

  /** The run's state, and the rows of its log table in order. */
  datatype Table<E> = Table(state: State, entries: seq<E>)

  function Entries<E>(parse: Parser<E>, lines: seq<OutputLine>): seq<E> {
    if lines == [] then [] else parse(lines[0].text) + Entries(parse, lines[1..])
  }

  lemma {:induction false} EntriesAppend<E>(parse: Parser<E>, a: seq<OutputLine>, b: seq<OutputLine>)
    ensures Entries(parse, a + b) == Entries(parse, a) + Entries(parse, b)
  {
    if a == [] {
      assert a + b == b;
    } else {
      assert (a + b)[1..] == a[1..] + b;
      EntriesAppend(parse, a[1..], b);
    }
  }

  /** The batch loop: the entries of the new lines in order, and where the last of these ends. */
  method BatchRows<E>(parse: Parser<E>, lines: seq<OutputLine>, consumed: nat) returns (rows: seq<E>, last: nat)
    ensures rows == Entries(parse, Fresh(lines, consumed))
    ensures last == if Fresh(lines, consumed) == [] then consumed else EndOf(Fresh(lines, consumed))
    ensures |rows| == CountBefore(parse, Fresh(lines, consumed), |Fresh(lines, consumed)|)
  {
    EntryCount(parse, Fresh(lines, consumed));
    rows, last := [], consumed;
    for i := 0 to |lines|
      invariant rows == Entries(parse, Fresh(lines[..i], consumed))
      invariant last == if Fresh(lines[..i], consumed) == [] then consumed else EndOf(Fresh(lines[..i], consumed))
    {
      var line := lines[i];
      FreshNext(lines[..i], line, consumed);
      assert lines[..i] + [line] == lines[..i + 1];
      if line.end > consumed {
        EntriesAppend(parse, Fresh(lines[..i], consumed), [line]);
        assert Entries(parse, [line]) == parse(line.text) + Entries(parse, [line][1..]) == parse(line.text);
        rows := rows + parse(line.text);
        last := line.end;
      } else {
        assert Fresh(lines[..i + 1], consumed) == Fresh(lines[..i], consumed);
      }
    }
    assert lines[..|lines|] == lines;
  }

  lemma {:induction false} FreshNext(lines: seq<OutputLine>, line: OutputLine, consumed: nat)
    ensures Fresh(lines + [line], consumed) ==
            Fresh(lines, consumed) + (if line.end <= consumed then [] else [line])
  {
    if lines == [] {
      assert [] + [line] == [line] && [line][1..] == [];
    } else {
      assert (lines + [line])[1..] == lines[1..] + [line];
      FreshNext(lines[1..], line, consumed);
    }
  }

  /** The lines a step hands to the batch. */
  function Batch(s: State, l: Label): seq<OutputLine>
    requires (l.Chunk? || l.Exit?) && l.token in s.streamers && s.streamers[l.token].received <= |s.output|
  {
    var st := s.streamers[l.token];
    var received := s.output[..st.received];
    var pending := Partial(received, NEWLINE);
    if l.Exit? then (if pending == [] then [] else [OutputLine(pending, st.received)])
    else if !(st.received < l.to <= |s.output|) then []
    else
      PushIsFileLines(received, []);
      Numbered(Complete(pending + s.output[st.received..l.to], NEWLINE), |received| - |pending|)
  }

  /** Whether its transaction finds the holder and the offset it names. */
  predicate Accepted(s: State, token: nat) {
    token in s.streamers && s.streamers[token].streaming && s.streamers[token].received <= |s.output| &&
    s.db.holder == token && s.db.consumed == s.streamers[token].consumed
  }

  function NextTable<E>(parse: Parser<E>, t: Table<E>, l: Label): Table<E> {
    Table(Next(t.state, l),
          if (l.Chunk? || l.Exit?) && Accepted(t.state, l.token)
          then t.entries + Entries(parse, Fresh(Batch(t.state, l), t.state.streamers[l.token].consumed))
          else t.entries)
  }

  function RunTable<E>(parse: Parser<E>, t: Table<E>, labels: seq<Label>): Table<E>
    decreases |labels|
  {
    if labels == [] then t else RunTable(parse, NextTable(parse, t, labels[0]), labels[1..])
  }

  /** The lines a step makes rows of. */
  lemma StepRows(s: State, l: Label)
    ensures Next(s, l).db.rows ==
            s.db.rows + (if (l.Chunk? || l.Exit?) && Accepted(s, l.token)
                         then Fresh(Batch(s, l), s.streamers[l.token].consumed) else [])
  {
    hide Numbered, Partial, Complete;
  }

  lemma {:induction false} TableRun<E>(parse: Parser<E>, t: Table<E>, labels: seq<Label>)
    requires t.entries == Entries(parse, t.state.db.rows)
    ensures var r := RunTable(parse, t, labels);
            r.state == Run(t.state, labels) && r.entries == Entries(parse, r.state.db.rows)
    decreases |labels|
  {
    if labels != [] {
      var s, l := t.state, labels[0];
      StepRows(s, l);
      if (l.Chunk? || l.Exit?) && Accepted(s, l.token) {
        EntriesAppend(parse, s.db.rows, Fresh(Batch(s, l), s.streamers[l.token].consumed));
      }
      hide Next, Batch, Fresh, Accepted;
      TableRun(parse, NextTable(parse, t, l), labels[1..]);
    }
  }

  /** How many entries the first `i` lines make. */
  function CountBefore<E>(parse: Parser<E>, lines: seq<OutputLine>, i: nat): nat
    requires i <= |lines|
    decreases i
  {
    if i == 0 then 0 else CountBefore(parse, lines, i - 1) + |parse(lines[i - 1].text)|
  }

  lemma {:induction false} CountTail<E>(parse: Parser<E>, lines: seq<OutputLine>, i: nat)
    requires 0 < i <= |lines|
    ensures CountBefore(parse, lines, i) == |parse(lines[0].text)| + CountBefore(parse, lines[1..], i - 1)
    decreases i
  {
    if i > 1 {
      CountTail(parse, lines, i - 1);
      assert lines[1..][i - 2] == lines[i - 1];
    }
  }

  /** The entries stand line by line, as many as the parser makes of each, in its order. */
  lemma {:induction false} EntryPlaces<E>(parse: Parser<E>, lines: seq<OutputLine>, i: nat, j: nat)
    requires i < |lines| && j < |parse(lines[i].text)|
    ensures |Entries(parse, lines)| == CountBefore(parse, lines, |lines|)
    ensures CountBefore(parse, lines, i) + j < |Entries(parse, lines)|
    ensures Entries(parse, lines)[CountBefore(parse, lines, i) + j] == parse(lines[i].text)[j]
    decreases |lines|
  {
    EntryCount(parse, lines);
    EntryCount(parse, lines[1..]);
    if i > 0 {
      CountTail(parse, lines, i);
      EntryPlaces(parse, lines[1..], i - 1, j);
    }
  }

  lemma {:induction false} EntryCount<E>(parse: Parser<E>, lines: seq<OutputLine>)
    ensures |Entries(parse, lines)| == CountBefore(parse, lines, |lines|)
  {
    if lines != [] {
      EntryCount(parse, lines[1..]);
      CountTail(parse, lines, |lines|);
    }
  }

  lemma {:induction false} OneEach<E>(parse: Parser<E>, lines: seq<OutputLine>, i: nat)
    requires i <= |lines| && forall text :: |parse(text)| == 1
    ensures CountBefore(parse, lines, i) == i
    decreases i
  {
    if i > 0 { OneEach(parse, lines, i - 1); }
  }

  /** Each entry once, no gap: whatever parser, over every interleaving, the log table holds what it makes of
      the file's first lines, those up to the offset, each once and in order, if no exit cut a line. */
  lemma {:induction false} EntriesOnce<E>(parse: Parser<E>, s: State, labels: seq<Label>)
    requires Started(s) && !CutsLine(s, labels)
    ensures var r := RunTable(parse, Table(s, []), labels);
            var n := |r.state.db.rows|;
            && r.state == Run(s, labels)
            && n <= |AllLines(r.state.output)| && r.state.db.consumed == EndOf(AllLines(r.state.output)[..n])
            && r.entries == Entries(parse, AllLines(r.state.output)[..n])
  {
    TableRun(parse, Table(s, []), labels);
    EachLineOnceIff(s, labels);
    hide Run, RunTable, AllLines, Entries;
    var r := RunTable(parse, Table(s, []), labels);
    assert r.state.db.rows == AllLines(r.state.output)[..|r.state.db.rows|];
  }

  /** So the table is as long as the lines up to the offset have entries, and entry `j` of line `i` stands
      behind all of the lines before it; with one entry a line, entry `i` is that of line `i`. */
  lemma {:induction false} EntriesInPlace<E>(parse: Parser<E>, s: State, labels: seq<Label>, i: nat, j: nat)
    requires Started(s) && !CutsLine(s, labels)
    ensures var r := RunTable(parse, Table(s, []), labels);
            var lines, n := AllLines(r.state.output), |r.state.db.rows|;
            && n <= |lines| && |r.entries| == CountBefore(parse, lines[..n], n)
            && (i < n && j < |parse(lines[i].text)| ==>
                  && CountBefore(parse, lines[..n], i) + j < |r.entries|
                  && r.entries[CountBefore(parse, lines[..n], i) + j] == parse(lines[i].text)[j])
            && ((forall text :: |parse(text)| == 1) ==>
                  |r.entries| == n && (i < n ==> r.entries[i] == parse(lines[i].text)[0]))
  {
    EntriesOnce(parse, s, labels);
    hide Run, RunTable, AllLines, Entries, CutsLine;
    var r := RunTable(parse, Table(s, []), labels);
    var n := |r.state.db.rows|;
    var lines := AllLines(r.state.output)[..n];
    EntryCount(parse, lines);
    if i < n && j < |parse(lines[i].text)| {
      EntryPlaces(parse, lines, i, j);
    }
    if forall text :: |parse(text)| == 1 {
      OneEach(parse, lines, n);
      if i < n {
        OneEach(parse, lines, i);
        EntryPlaces(parse, lines, i, 0);
      }
    }
  }
}
