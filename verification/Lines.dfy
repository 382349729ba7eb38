/** Cutting text into lines, whole or chunk by chunk.

    `Split` is JavaScript's `text.split("\n")`: it always has a last part, empty when the text ends
    with a newline. All parts but the last are complete (newline-terminated) lines. */
module Lines {

  function Split<T(==)>(text: seq<T>, nl: T): (parts: seq<seq<T>>)
    ensures |parts| > 0
  {
    if text == [] then [[]]
    else if text[0] == nl then [[]] + Split(text[1..], nl)
    else
      var rest := Split(text[1..], nl);
      [[text[0]] + rest[0]] + rest[1..]
  }

  function Join<T>(parts: seq<seq<T>>, nl: T): seq<T>
    requires |parts| > 0
  {
    if |parts| == 1 then parts[0] else parts[0] + [nl] + Join(parts[1..], nl)
  }

  /** The newline-terminated lines, without their newline. */
  function Complete<T(==)>(text: seq<T>, nl: T): seq<seq<T>> {
    var parts := Split(text, nl);
    parts[..|parts| - 1]
  }

  /** What follows the last newline. */
  function Partial<T(==)>(text: seq<T>, nl: T): seq<T> {
    var parts := Split(text, nl);
    parts[|parts| - 1]
  }

  /** Every line followed by a newline. */
  function Unlines<T>(lines: seq<seq<T>>, nl: T): (text: seq<T>) {
    if lines == [] then [] else lines[0] + [nl] + Unlines(lines[1..], nl)
  }

  function Concat<T>(chunks: seq<seq<T>>): seq<T> {
    if chunks == [] then [] else chunks[0] + Concat(chunks[1..])
  }

  ghost predicate AllClear<T>(parts: seq<seq<T>>, nl: T) {
    forall i :: 0 <= i < |parts| ==> nl !in parts[i]
  }

  /** Text that ends where a line ends: empty, or ending with a newline. */
  predicate AtLineBoundary<T(==)>(text: seq<T>, nl: T) {
    text == [] || text[|text| - 1] == nl
  }

  predicate PartAt<T(==)>(text: seq<T>, part: seq<T>, i: nat) {
    i + |part| <= |text| && text[i..i + |part|] == part
  }

  predicate Includes<T(==)>(text: seq<T>, part: seq<T>) {
    exists i: nat :: i <= |text| && PartAt(text, part, i)
  }

  lemma TailAppend<T>(a: seq<T>, b: seq<T>)
    requires a != []
    ensures (a + b)[0] == a[0] && (a + b)[1..] == a[1..] + b
  {
  }

  lemma Associative<T>(a: seq<T>, b: seq<T>, c: seq<T>)
    ensures a + b + c == a + (b + c)
  {
  }

  /** Where a part stands in the joined text. */
  lemma {:induction false} PartOffset<T>(parts: seq<seq<T>>, i: nat, nl: T) returns (at: nat)
    requires i < |parts|
    ensures var text := Join(parts, nl); at + |parts[i]| <= |text| && text[at..at + |parts[i]|] == parts[i]
  {
    if i == 0 {
      at := 0;
    } else {
      var inner := PartOffset(parts[1..], i - 1, nl);
      at := |parts[0]| + 1 + inner;
      var text, tail := Join(parts, nl), Join(parts[1..], nl);
      assert text == (parts[0] + [nl]) + tail;
      assert text[at..at + |parts[i]|] == tail[inner..inner + |parts[i]|];
    }
  }

  lemma {:induction false} SplitParts<T>(text: seq<T>, nl: T)
    ensures AllClear(Split(text, nl), nl)
    ensures Join(Split(text, nl), nl) == text
  {
    if text == [] {
    } else {
      SplitParts(text[1..], nl);
      var rest := Split(text[1..], nl);
      var parts := Split(text, nl);
      assert text == [text[0]] + text[1..];
      if text[0] == nl {
        assert parts[1..] == rest;
      } else if |rest| > 1 {
        assert parts[1..] == rest[1..];
      }
    }
  }

  /** A line read off the front of a text. */
  lemma {:induction false} SplitLine<T>(line: seq<T>, rest: seq<T>, nl: T)
    requires nl !in line
    ensures Split(line, nl) == [line]
    ensures Split(line + [nl] + rest, nl) == [line] + Split(rest, nl)
  {
    if line == [] {
      assert ([] + [nl] + rest)[1..] == rest;
    } else {
      SplitLine(line[1..], rest, nl);
      assert line == [line[0]] + line[1..];
      assert (line + [nl] + rest)[1..] == line[1..] + [nl] + rest;
    }
  }

  lemma {:induction false} SplitJoin<T>(parts: seq<seq<T>>, nl: T)
    requires |parts| > 0 && AllClear(parts, nl)
    ensures Split(Join(parts, nl), nl) == parts
  {
    if |parts| == 1 {
      SplitLine(parts[0], [], nl);
    } else {
      SplitJoin(parts[1..], nl);
      SplitLine(parts[0], Join(parts[1..], nl), nl);
    }
  }

  lemma {:induction false} JoinAppend<T>(front: seq<seq<T>>, back: seq<seq<T>>, nl: T)
    requires |back| > 0
    ensures Join(front + back, nl) == Unlines(front, nl) + Join(back, nl)
  {
    if front == [] {
      assert front + back == back;
    } else {
      JoinAppend(front[1..], back, nl);
      TailAppend(front, back);
      Associative(front[0] + [nl], Unlines(front[1..], nl), Join(back, nl));
    }
  }

  /** A reader that keeps the unfinished last part and prepends it to the next chunk sees the same
      parts as one that reads everything at once. */
  lemma {:induction false} SplitAppend<T>(a: seq<T>, b: seq<T>, nl: T)
    ensures Split(a + b, nl) == Complete(a, nl) + Split(Partial(a, nl) + b, nl)
  {
    var back := Split(Partial(a, nl) + b, nl);
    SplitParts(a, nl);
    SplitParts(Partial(a, nl) + b, nl);
    CompleteUnlines(a, nl);
    var front := Complete(a, nl);
    JoinAppend(front, back, nl);
    Associative(Unlines(front, nl), Partial(a, nl), b);
    assert AllClear(front + back, nl);
    SplitJoin(front + back, nl);
  }

  lemma {:induction false} AppendLines<T>(a: seq<T>, b: seq<T>, nl: T)
    ensures Complete(a + b, nl) == Complete(a, nl) + Complete(Partial(a, nl) + b, nl)
    ensures Partial(a + b, nl) == Partial(Partial(a, nl) + b, nl)
  {
    SplitAppend(a, b, nl);
  }

  lemma {:induction false} BoundaryPartial<T>(text: seq<T>, nl: T)
    ensures AtLineBoundary(text, nl) <==> Partial(text, nl) == []
  {
    if text == [] {
    } else {
      var front, last := text[..|text| - 1], text[|text| - 1];
      assert text == front + [last];
      SplitAppend(front, [last], nl);
      SplitParts(front, nl);
      var p := Partial(front, nl);
      if last == nl {
        SplitLine(p, [], nl);
        assert p + [nl] + [] == p + [nl];
      } else {
        SplitLine(p + [last], [], nl);
      }
    }
  }

  /** From a line boundary on, the lines are simply those of the rest. */
  lemma {:induction false} BoundaryAppend<T>(a: seq<T>, b: seq<T>, nl: T)
    requires AtLineBoundary(a, nl)
    ensures Complete(a + b, nl) == Complete(a, nl) + Complete(b, nl)
    ensures Partial(a + b, nl) == Partial(b, nl)
  {
    AppendLines(a, b, nl);
    BoundaryPartial(a, nl);
    assert [] + b == b;
  }

  lemma {:induction false} CompleteUnlines<T>(text: seq<T>, nl: T)
    ensures text == Unlines(Complete(text, nl), nl) + Partial(text, nl)
  {
    hide Split, Unlines;
    SplitParts(text, nl);
    var front, last := Complete(text, nl), Partial(text, nl);
    assert Split(text, nl) == front + [last];
    JoinAppend(front, [last], nl);
    assert Join([last], nl) == last;
  }

  lemma {:induction false} UnlinesAppend<T>(a: seq<seq<T>>, b: seq<seq<T>>, nl: T)
    ensures Unlines(a + b, nl) == Unlines(a, nl) + Unlines(b, nl)
  {
    if a == [] {
      assert a + b == b;
    } else {
      UnlinesAppend(a[1..], b, nl);
      TailAppend(a, b);
      Associative(a[0] + [nl], Unlines(a[1..], nl), Unlines(b, nl));
    }
  }

  lemma {:induction false} ConcatAppend<T>(a: seq<seq<T>>, b: seq<seq<T>>)
    ensures Concat(a + b) == Concat(a) + Concat(b)
  {
    if a == [] {
      assert a + b == b;
    } else {
      ConcatAppend(a[1..], b);
      TailAppend(a, b);
      Associative(a[0], Concat(a[1..]), Concat(b));
    }
  }
}
