/** Folding several servers' snapshots into one (apps/ios/Shared/NeedsYouSnapshot.swift:27-44, 184-218, 290-309). */
module SnapshotMerge {
  import opened Lines
  import opened RunSpec
  import opened Watch

  const EMPTY: Snapshot := Snapshot([], [], 0, 0, None, 0)

  function Ids(items: seq<Item>): set<nat> {
    if items == [] then {} else {items[0].id} + Ids(items[1..])
  }

  function AllItems(s: Snapshot): seq<Item> { s.needsYou + s.running }

  function AllIds(s: Snapshot): set<nat> { Ids(AllItems(s)) }

  /** Ids distinct across both lists. */
  ghost predicate WellFormed(s: Snapshot) { DistinctIds(AllItems(s)) }

  /** The items not seen before, nor earlier in the list. */
  function NotSeen(seen: set<nat>, items: seq<Item>): seq<Item>
    decreases |items|
  {
    if items == [] then []
    else if items[0].id in seen then NotSeen(seen, items[1..])
    else [items[0]] + NotSeen(seen + {items[0].id}, items[1..])
  }

  function SumTiles(a: Option<Tiles>, b: Option<Tiles>): Option<Tiles> {
    match (a, b)
    case (None, None) => None
    case (Some(x), None) => Some(x)
    case (None, Some(y)) => Some(y)
    case (Some(x), Some(y)) => Some(Tiles(x.waiting + y.waiting, x.recurring + y.recurring, x.agents + y.agents))
  }

  function Merge(a: Snapshot, b: Snapshot): Snapshot {
    var seen := AllIds(a);
    Snapshot(
      a.needsYou + NotSeen(seen, b.needsYou),
      a.running + NotSeen(seen + Ids(b.needsYou), b.running),
      a.hostsOnline + b.hostsOnline,
      a.hostsTotal + b.hostsTotal,
      SumTiles(a.counts, b.counts),
      a.asOf)
  }

  function MergeAll(sofar: Snapshot, servers: seq<Snapshot>): Snapshot
    decreases |servers|
  {
    if servers == [] then sofar else MergeAll(Merge(sofar, servers[0]), servers[1..])
  }

  // ---- The mutating form ----

  class Merged {
    var snapshot: Snapshot

    constructor (s: Snapshot)
      ensures snapshot == s
    {
      snapshot := s;
    }

    /** `merge`: the set of seen ids grows as the other server's items are filtered. */
    method MergeIn(other: Snapshot)
      modifies this
      ensures snapshot == Merge(old(snapshot), other)
    {
      IdsAppend(snapshot.needsYou, snapshot.running);
      var seen := AllIds(snapshot);
      var needs, running;
      needs, seen := FilterFresh(seen, other.needsYou);
      running, seen := FilterFresh(seen, other.running);
      snapshot := snapshot.(
        needsYou := snapshot.needsYou + needs,
        running := snapshot.running + running,
        hostsOnline := snapshot.hostsOnline + other.hostsOnline,
        hostsTotal := snapshot.hostsTotal + other.hostsTotal,
        counts := SumTiles(snapshot.counts, other.counts));
    }
  }

  method FilterFresh(before: set<nat>, items: seq<Item>) returns (added: seq<Item>, seen: set<nat>)
    ensures added == NotSeen(before, items) && seen == before + Ids(items)
  {
    added, seen := [], before;
    var i := 0;
    while i < |items|
      invariant 0 <= i <= |items|
      invariant added + NotSeen(seen, items[i..]) == NotSeen(before, items)
      invariant seen + Ids(items[i..]) == before + Ids(items)
    {
      if items[i].id !in seen {
        added := added + [items[i]];
        seen := seen + {items[i].id};
      }
      i := i + 1;
    }
  }

  datatype Loaded = Loaded(snapshot: Snapshot, failed: seq<nat>)

  /** One paired server's answer: its snapshot, or a failure, under its id when it has one. */
  datatype Answer = Answer(serverId: Option<nat>, snapshot: Option<Snapshot>)

  function Answered(answers: seq<Answer>): seq<Snapshot> {
    if answers == [] then []
    else (if answers[0].snapshot.Some? then [answers[0].snapshot.value] else []) + Answered(answers[1..])
  }

  function FailedIds(answers: seq<Answer>): seq<nat> {
    if answers == [] then []
    else
      (if answers[0].snapshot.None? && answers[0].serverId.Some? then [answers[0].serverId.value] else [])
      + FailedIds(answers[1..])
  }

  /** `loadAll`: the answers merged in the servers' order, the failed ones skipped; `None` when there is no
      server or none answered. */
  method LoadAll(answers: seq<Answer>, now: int) returns (r: Option<Loaded>)
    ensures r.None? <==> Answered(answers) == []
    ensures r.Some? ==> r.value == Loaded(MergeAll(EMPTY, Answered(answers)).(asOf := now), FailedIds(answers))
  {
    hide Answered, FailedIds, MergeAll, Merge;
    NoAnswers(EMPTY);
    if answers == [] { return None; }
    assert answers[0..] == answers;
    var merged := new Merged(EMPTY);
    var failed: seq<nat> := [];
    var any := false;
    var i := 0;
    while i < |answers|
      invariant 0 <= i <= |answers|
      invariant MergeAll(merged.snapshot, Answered(answers[i..])) == MergeAll(EMPTY, Answered(answers))
      invariant failed + FailedIds(answers[i..]) == FailedIds(answers)
      invariant any || Answered(answers[i..]) != [] <==> Answered(answers) != []
    {
      var a := answers[i];
      NextAnswer(merged.snapshot, answers, i);
      if a.snapshot.Some? {
        any := true;
        merged.MergeIn(a.snapshot.value);
      } else if a.serverId.Some? {
        Associative(failed, [a.serverId.value], FailedIds(answers[i + 1..]));
        failed := failed + [a.serverId.value];
      }
      i := i + 1;
    }
    assert answers[i..] == [];
    NoAnswers(merged.snapshot);
    if !any { return None; }
    r := Some(Loaded(merged.snapshot.(asOf := now), failed));
  }

  /** One turn of the loop over the answers. */
  lemma NextAnswer(sofar: Snapshot, answers: seq<Answer>, i: nat)
    requires i < |answers|
    ensures var a, now, later := answers[i], Answered(answers[i..]), Answered(answers[i + 1..]);
            && (a.snapshot.Some? ==>
                  now != [] && MergeAll(sofar, now) == MergeAll(Merge(sofar, a.snapshot.value), later))
            && (a.snapshot.None? ==> now == later)
    ensures var a := answers[i];
            FailedIds(answers[i..]) ==
            (if a.snapshot.None? && a.serverId.Some? then [a.serverId.value] else []) + FailedIds(answers[i + 1..])
  {
    assert answers[i..][0] == answers[i] && answers[i..][1..] == answers[i + 1..];
    hide Merge;
  }

  lemma NoAnswers(sofar: Snapshot)
    ensures Answered([]) == [] && FailedIds([]) == [] && MergeAll(sofar, []) == sofar
  {
  }

  lemma {:induction false} AnswersAppend(a: seq<Answer>, b: seq<Answer>)
    ensures Answered(a + b) == Answered(a) + Answered(b) && FailedIds(a + b) == FailedIds(a) + FailedIds(b)
  {
    if a == [] {
      assert a + b == b;
    } else {
      TailAppend(a, b);
      AnswersAppend(a[1..], b);
      hide *;
      FirstAnswer(a);
      FirstAnswer(a + b);
      Associative(Answered(a[..1]), Answered(a[1..]), Answered(b));
      Associative(FailedIds(a[..1]), FailedIds(a[1..]), FailedIds(b));
      assert (a + b)[..1] == a[..1];
    }
  }

  lemma FirstAnswer(a: seq<Answer>)
    requires a != []
    ensures Answered(a) == Answered(a[..1]) + Answered(a[1..])
    ensures FailedIds(a) == FailedIds(a[..1]) + FailedIds(a[1..])
  {
    assert a[..1][0] == a[0] && a[..1][1..] == [];
  }

  lemma OneAnswer(a: Answer)
    ensures Answered([]) == [] && Answered([a]) == (match a.snapshot case Some(s) => [s] case None => [])
    ensures FailedIds([]) == []
    ensures FailedIds([a]) == (match (a.snapshot, a.serverId) case (None, Some(id)) => [id] case _ => [])
  {
    assert [a][1..] == [];
  }

  /** Whose answers are merged, and which ids are reported failed, answer by answer and in the servers' order:
      each gives its snapshot, or, when it has none, its server's id if that has one. */
  lemma {:induction false} AnswersAre(before: seq<Answer>, a: Answer, after: seq<Answer>)
    ensures Answered([]) == [] && FailedIds([]) == []
    ensures Answered(before + [a] + after) ==
            Answered(before) + (match a.snapshot case Some(s) => [s] case None => []) + Answered(after)
    ensures FailedIds(before + [a] + after) ==
            FailedIds(before) + (match (a.snapshot, a.serverId) case (None, Some(id)) => [id] case _ => [])
            + FailedIds(after)
  {
    OneAnswer(a);
    AnswersAppend(before + [a], after);
    AnswersAppend(before, [a]);
  }

  // ---- Lists without repeats ----

  lemma {:induction false} IdsAppend(a: seq<Item>, b: seq<Item>)
    ensures Ids(a + b) == Ids(a) + Ids(b)
  {
    if a == [] {
      assert a + b == b;
    } else {
      IdsAppend(a[1..], b);
      assert (a + b)[1..] == a[1..] + b;
    }
  }

  lemma {:induction false} IdIn(items: seq<Item>, id: nat)
    ensures id in Ids(items) <==> exists i :: 0 <= i < |items| && items[i].id == id
  {
    if items != [] {
      IdIn(items[1..], id);
      assert forall i :: 1 <= i < |items| ==> items[i] == items[1..][i - 1];
    }
  }

  lemma {:induction false} NotSeenIds(seen: set<nat>, items: seq<Item>)
    ensures Ids(NotSeen(seen, items)) == Ids(items) - seen
    decreases |items|
  {
    if items != [] {
      if items[0].id in seen {
        NotSeenIds(seen, items[1..]);
      } else {
        NotSeenIds(seen + {items[0].id}, items[1..]);
        assert NotSeen(seen, items)[1..] == NotSeen(seen + {items[0].id}, items[1..]);
      }
    }
  }

  lemma {:induction false} NotSeenAppend(seen: set<nat>, a: seq<Item>, b: seq<Item>)
    ensures NotSeen(seen, a + b) == NotSeen(seen, a) + NotSeen(seen + Ids(a), b)
    decreases |a|
  {
    if a == [] {
      assert a + b == b && seen + Ids(a) == seen;
    } else {
      assert (a + b)[1..] == a[1..] + b;
      if a[0].id in seen {
        NotSeenAppend(seen, a[1..], b);
        assert seen + Ids(a) == seen + Ids(a[1..]);
      } else {
        NotSeenAppend(seen + {a[0].id}, a[1..], b);
        assert seen + Ids(a) == seen + {a[0].id} + Ids(a[1..]);
      }
    }
  }

  /** Filtering by one set, then by another, is filtering by both. */
  lemma {:induction false} NotSeenTwice(s: set<nat>, t: set<nat>, items: seq<Item>)
    ensures NotSeen(s, NotSeen(t, items)) == NotSeen(s + t, items)
    decreases |items|
  {
    if items != [] {
      var x := items[0].id;
      if x in t {
        NotSeenTwice(s, t, items[1..]);
      } else {
        var rest := NotSeen(t + {x}, items[1..]);
        assert NotSeen(t, items) == [items[0]] + rest && NotSeen(t, items)[1..] == rest;
        if x in s {
          NotSeenTwice(s, t + {x}, items[1..]);
          assert s + (t + {x}) == s + t;
        } else {
          NotSeenTwice(s + {x}, t + {x}, items[1..]);
          assert s + {x} + (t + {x}) == s + t + {x};
        }
      }
    }
  }

  /** Ids that are none of the list's may be in the set or not. */
  lemma {:induction false} NotSeenIrrelevant(s: set<nat>, t: set<nat>, items: seq<Item>)
    requires s * Ids(items) == t * Ids(items)
    ensures NotSeen(s, items) == NotSeen(t, items)
    decreases |items|
  {
    if items != [] {
      var x := items[0].id;
      assert x in Ids(items);
      assert x in s <==> x in s * Ids(items);
      assert x in t <==> x in t * Ids(items);
      if x in s {
        assert s * Ids(items[1..]) == s * Ids(items) * Ids(items[1..]);
        assert t * Ids(items[1..]) == t * Ids(items) * Ids(items[1..]);
        NotSeenIrrelevant(s, t, items[1..]);
      } else {
        assert (s + {x}) * Ids(items[1..]) == (s * Ids(items) + {x}) * Ids(items[1..]);
        assert (t + {x}) * Ids(items[1..]) == (t * Ids(items) + {x}) * Ids(items[1..]);
        NotSeenIrrelevant(s + {x}, t + {x}, items[1..]);
      }
    }
  }

  lemma {:induction false} NotSeenAll(seen: set<nat>, items: seq<Item>)
    ensures DistinctIds(items) && Ids(items) * seen == {} ==> NotSeen(seen, items) == items
    ensures NotSeen(seen, items) == items ==> DistinctIds(items) && Ids(items) * seen == {}
    decreases |items|
  {
    if items != [] {
      var x, rest := items[0].id, items[1..];
      assert items == [items[0]] + rest;
      IdIn(rest, x);
      NotSeenLength(seen, rest);
      NotSeenAll(seen + {x}, rest);
      if x !in seen {
        assert NotSeen(seen, items)[1..] == NotSeen(seen + {x}, rest);
        if NotSeen(seen + {x}, rest) == rest {
          assert x !in Ids(rest);
          forall i | 1 <= i < |items| ensures items[i].id != x {
            assert items[i] == rest[i - 1];
          }
          forall i, j | 1 <= i < j < |items| ensures items[i].id != items[j].id {
            assert items[i] == rest[i - 1] && items[j] == rest[j - 1];
          }
        }
        if DistinctIds(items) {
          forall i, j | 0 <= i < j < |rest| ensures rest[i].id != rest[j].id {
            assert rest[i] == items[i + 1] && rest[j] == items[j + 1];
          }
          forall i | 0 <= i < |rest| ensures rest[i].id != x {
            assert rest[i] == items[i + 1];
          }
        }
      } else {
        assert x in Ids(items) * seen;
      }
    }
  }

  lemma {:induction false} NotSeenLength(seen: set<nat>, items: seq<Item>)
    ensures |NotSeen(seen, items)| <= |items|
    decreases |items|
  {
    if items != [] {
      NotSeenLength(if items[0].id in seen then seen else seen + {items[0].id}, items[1..]);
    }
  }

  // ---- Merge is a monoid ----

  lemma {:induction false} MergeIds(a: Snapshot, b: Snapshot)
    ensures AllIds(Merge(a, b)) == AllIds(a) + AllIds(b)
    ensures Ids(Merge(a, b).needsYou) == Ids(a.needsYou) + (Ids(b.needsYou) - AllIds(a))
  {
    var m := Merge(a, b);
    IdsAppend(a.needsYou, a.running);
    IdsAppend(b.needsYou, b.running);
    IdsAppend(m.needsYou, m.running);
    IdsAppend(a.needsYou, NotSeen(AllIds(a), b.needsYou));
    IdsAppend(a.running, NotSeen(AllIds(a) + Ids(b.needsYou), b.running));
    NotSeenIds(AllIds(a), b.needsYou);
    NotSeenIds(AllIds(a) + Ids(b.needsYou), b.running);
  }

  lemma {:induction false} MergeNeedsAssociative(a: Snapshot, b: Snapshot, c: Snapshot)
    ensures Merge(Merge(a, b), c).needsYou == Merge(a, Merge(b, c)).needsYou
  {
    var A, B := AllIds(a), AllIds(b);
    MergeIds(a, b);
    NotSeenAppend(A, b.needsYou, NotSeen(B, c.needsYou));
    NotSeenTwice(A + Ids(b.needsYou), B, c.needsYou);
    IdsAppend(b.needsYou, b.running);
    assert A + Ids(b.needsYou) + B == A + B;
  }

  /** What the right fold has seen by the time it comes to `c.running`, against the left one. */
  lemma SeenBy(A: set<nat>, needs: set<nat>, running: set<nat>, cNeeds: set<nat>)
    ensures var B := needs + running;
            var seenBy := A + (needs + (cNeeds - B));
            && (A + needs) * running == seenBy * running
            && seenBy + running + (B + cNeeds) == A + B + cNeeds
  {
  }

  lemma {:induction false} BRunning(A: set<nat>, b: Snapshot, c: Snapshot)
    ensures NotSeen(A + Ids(b.needsYou), b.running) == NotSeen(A + Ids(Merge(b, c).needsYou), b.running)
  {
    MergeIds(b, c);
    IdsAppend(b.needsYou, b.running);
    hide NotSeen, Ids, Merge;
    SeenBy(A, Ids(b.needsYou), Ids(b.running), Ids(c.needsYou));
    NotSeenIrrelevant(A + Ids(b.needsYou), A + Ids(Merge(b, c).needsYou), b.running);
  }

  lemma {:induction false} CRunning(A: set<nat>, b: Snapshot, c: Snapshot)
    ensures var B := AllIds(b);
            var seenBy := A + Ids(Merge(b, c).needsYou) + Ids(b.running);
            NotSeen(seenBy, NotSeen(B + Ids(c.needsYou), c.running)) == NotSeen(A + B + Ids(c.needsYou), c.running)
  {
    MergeIds(b, c);
    IdsAppend(b.needsYou, b.running);
    hide NotSeen, Ids, Merge;
    SeenBy(A, Ids(b.needsYou), Ids(b.running), Ids(c.needsYou));
    NotSeenTwice(A + Ids(Merge(b, c).needsYou) + Ids(b.running), AllIds(b) + Ids(c.needsYou), c.running);
  }

  lemma {:induction false} MergeRunningAssociative(a: Snapshot, b: Snapshot, c: Snapshot)
    ensures Merge(Merge(a, b), c).running == Merge(a, Merge(b, c)).running
  {
    hide NotSeen, Ids;
    MergeIds(a, b);
    BRunning(AllIds(a), b, c);
    CRunning(AllIds(a), b, c);
    NotSeenAppend(AllIds(a) + Ids(Merge(b, c).needsYou), b.running, NotSeen(AllIds(b) + Ids(c.needsYou), c.running));
  }

  /** Merging is associative, for any three snapshots. */
  lemma {:induction false} MergeAssociative(a: Snapshot, b: Snapshot, c: Snapshot)
    ensures Merge(Merge(a, b), c) == Merge(a, Merge(b, c))
  {
    MergeNeedsAssociative(a, b, c);
    MergeRunningAssociative(a, b, c);
  }

  /** The two lists of a snapshot merged into nothing are, together, its items without repeats. */
  lemma {:induction false} MergedIntoEmpty(s: Snapshot)
    ensures Merge(EMPTY, s).needsYou == NotSeen({}, s.needsYou)
    ensures Merge(EMPTY, s).running == NotSeen(Ids(s.needsYou), s.running)
    ensures AllItems(Merge(EMPTY, s)) == NotSeen({}, AllItems(s))
  {
    assert AllItems(EMPTY) == [] && AllIds(EMPTY) == {};
    assert {} + Ids(s.needsYou) == Ids(s.needsYou);
    NotSeenAppend({}, s.needsYou, s.running);
  }

  lemma {:induction false} LeftIdentity(s: Snapshot)
    requires WellFormed(s)
    ensures Merge(EMPTY, s) == s.(asOf := EMPTY.asOf)
  {
    var m := Merge(EMPTY, s);
    MergedIntoEmpty(s);
    NotSeenAll({}, AllItems(s));
    NotSeenLength({}, s.needsYou);
    NotSeenLength(Ids(s.needsYou), s.running);
    SamePrefix(m.needsYou, m.running, s.needsYou, s.running);
  }

  lemma {:induction false} SamePrefix(a: seq<Item>, b: seq<Item>, c: seq<Item>, d: seq<Item>)
    requires a + b == c + d && |a| <= |c| && |b| <= |d|
    ensures a == c && b == d
  {
    assert |a + b| == |c + d|;
    assert a == (a + b)[..|a|] && c == (c + d)[..|c|];
    assert b == (a + b)[|a|..] && d == (c + d)[|c|..];
  }

  /** The empty snapshot changes nothing on the right; on the left it gives the other snapshot under its own
      time, exactly when that one's ids are distinct. */
  lemma {:induction false} MergeIdentity(s: Snapshot)
    ensures Merge(s, EMPTY) == s
    ensures Merge(EMPTY, s) == s.(asOf := EMPTY.asOf) <==> WellFormed(s)
  {
    assert s.needsYou + [] == s.needsYou && s.running + [] == s.running;
    if WellFormed(s) {
      LeftIdentity(s);
    } else if Merge(EMPTY, s) == s.(asOf := EMPTY.asOf) {
      MergedIntoEmpty(s);
      NotSeenAll({}, AllItems(s));
    }
  }

  lemma {:induction false} MergeWellFormed(a: Snapshot, b: Snapshot)
    requires WellFormed(a)
    ensures WellFormed(Merge(a, b))
  {
    MergeIdentity(a);
    MergeAssociative(EMPTY, a, b);
    var m := Merge(a, b);
    assert Merge(EMPTY, a) == a.(asOf := 0);
    assert Merge(a.(asOf := 0), b) == m.(asOf := 0);
    MergeIdentity(m);
  }

  // ---- What a fold over the servers holds ----

  function AllServerIds(servers: seq<Snapshot>): set<nat> {
    if servers == [] then {} else AllIds(servers[0]) + AllServerIds(servers[1..])
  }

  function SumOnline(servers: seq<Snapshot>): int {
    if servers == [] then 0 else servers[0].hostsOnline + SumOnline(servers[1..])
  }

  function SumHosts(servers: seq<Snapshot>): int {
    if servers == [] then 0 else servers[0].hostsTotal + SumHosts(servers[1..])
  }

  function SumAllTiles(servers: seq<Snapshot>): Option<Tiles> {
    if servers == [] then None else SumTiles(servers[0].counts, SumAllTiles(servers[1..]))
  }

  function SumWaiting(servers: seq<Snapshot>): int {
    if servers == [] then 0
    else (if servers[0].counts.Some? then servers[0].counts.value.waiting else 0) + SumWaiting(servers[1..])
  }

  function SumRecurring(servers: seq<Snapshot>): int {
    if servers == [] then 0
    else (if servers[0].counts.Some? then servers[0].counts.value.recurring else 0) + SumRecurring(servers[1..])
  }

  function SumAgents(servers: seq<Snapshot>): int {
    if servers == [] then 0
    else (if servers[0].counts.Some? then servers[0].counts.value.agents else 0) + SumAgents(servers[1..])
  }

  /** Some server has tiles. */
  ghost predicate AnyTiles(servers: seq<Snapshot>) {
    exists i :: 0 <= i < |servers| && servers[i].counts.Some?
  }

  /** Each tile adds up over the servers that have tiles; there are none iff no server has any. */
  lemma {:induction false} TilesAdd(servers: seq<Snapshot>)
    ensures SumAllTiles(servers) ==
            if AnyTiles(servers) then Some(Tiles(SumWaiting(servers), SumRecurring(servers), SumAgents(servers)))
            else None
    ensures !AnyTiles(servers) ==>
              SumWaiting(servers) == 0 && SumRecurring(servers) == 0 && SumAgents(servers) == 0
  {
    if servers != [] {
      var rest := servers[1..];
      TilesAdd(rest);
      assert AnyTiles(servers) <==> servers[0].counts.Some? || AnyTiles(rest) by {
        if AnyTiles(rest) {
          var i :| 0 <= i < |rest| && rest[i].counts.Some?;
          assert servers[i + 1].counts.Some?;
        }
        if AnyTiles(servers) && servers[0].counts.None? {
          var i :| 0 <= i < |servers| && servers[i].counts.Some?;
          assert rest[i - 1].counts.Some?;
        }
      }
    }
  }

  lemma TilesWith(sofar: Snapshot, servers: seq<Snapshot>)
    ensures var all := [sofar] + servers;
            SumTiles(sofar.counts, SumAllTiles(servers)) ==
            if AnyTiles(all) then Some(Tiles(SumWaiting(all), SumRecurring(all), SumAgents(all))) else None
  {
    TilesAdd([sofar] + servers);
    assert ([sofar] + servers)[1..] == servers;
  }

  lemma {:induction false} FoldKeeps(sofar: Snapshot, servers: seq<Snapshot>)
    requires WellFormed(sofar)
    ensures var r := MergeAll(sofar, servers);
            && WellFormed(r)
            && AllIds(r) == AllIds(sofar) + AllServerIds(servers)
            && sofar.needsYou <= r.needsYou && sofar.running <= r.running
            && r.hostsOnline == sofar.hostsOnline + SumOnline(servers)
            && r.hostsTotal == sofar.hostsTotal + SumHosts(servers)
            && r.counts == SumTiles(sofar.counts, SumAllTiles(servers))
    decreases |servers|
  {
    if servers != [] {
      MergeWellFormed(sofar, servers[0]);
      MergeIds(sofar, servers[0]);
      FoldKeeps(Merge(sofar, servers[0]), servers[1..]);
    }
  }

  /** Folding any servers keeps ids distinct, loses none and makes none up, adds new items behind the ones
      there, and adds up hosts and, over those that have them, tiles. */
  lemma {:induction false} FoldConserves(sofar: Snapshot, servers: seq<Snapshot>)
    requires WellFormed(sofar)
    ensures var r, all := MergeAll(sofar, servers), [sofar] + servers;
            && WellFormed(r)
            && AllIds(r) == AllIds(sofar) + AllServerIds(servers)
            && sofar.needsYou <= r.needsYou && sofar.running <= r.running
            && r.hostsOnline == sofar.hostsOnline + SumOnline(servers)
            && r.hostsTotal == sofar.hostsTotal + SumHosts(servers)
            && r.counts == if AnyTiles(all) then Some(Tiles(SumWaiting(all), SumRecurring(all), SumAgents(all)))
                           else None
  {
    FoldKeeps(sofar, servers);
    TilesWith(sofar, servers);
    hide MergeAll, AllIds, WellFormed, SumTiles, SumAllTiles, SumWaiting, SumRecurring, SumAgents, AnyTiles;
  }

  lemma {:induction false} NotSeenHas(seen: set<nat>, items: seq<Item>, x: Item)
    requires DistinctIds(items)
    ensures x in NotSeen(seen, items) <==> x in items && x.id !in seen
    decreases |items|
  {
    if items != [] {
      var rest := items[1..];
      assert items == [items[0]] + rest;
      forall i, j | 0 <= i < j < |rest| ensures rest[i].id != rest[j].id {
        assert rest[i] == items[i + 1] && rest[j] == items[j + 1];
      }
      forall i | 0 <= i < |rest| ensures rest[i].id != items[0].id {
        assert rest[i] == items[i + 1];
      }
      if items[0].id in seen {
        NotSeenHas(seen, rest, x);
      } else {
        NotSeenHas(seen + {items[0].id}, rest, x);
      }
    }
  }

  /** An item needs the user (or runs) in the merged snapshot iff it did on the first server that has its
      id: the copy kept, and the list it is in, are that server's. */
  ghost predicate FirstCopy(servers: seq<Snapshot>, k: nat, id: nat) {
    k < |servers| && id in AllIds(servers[k]) && forall j :: 0 <= j < k ==> id !in AllIds(servers[j])
  }

  lemma {:induction false} MergeKeepsFirst(a: Snapshot, b: Snapshot, x: Item)
    requires WellFormed(a) && WellFormed(b)
    ensures x in Merge(a, b).needsYou <==> x in a.needsYou || (x in b.needsYou && x.id !in AllIds(a))
    ensures x in Merge(a, b).running <==> x in a.running || (x in b.running && x.id !in AllIds(a))
  {
    PartsDistinct(b);
    NotSeenHas(AllIds(a), b.needsYou, x);
    NotSeenHas(AllIds(a) + Ids(b.needsYou), b.running, x);
    if x in b.running {
      var k :| 0 <= k < |b.running| && b.running[k] == x;
      IdIn(b.needsYou, x.id);
      assert AllItems(b)[|b.needsYou| + k] == x;
      forall i | 0 <= i < |b.needsYou| ensures b.needsYou[i].id != x.id {
        assert AllItems(b)[i] == b.needsYou[i];
      }
    }
  }

  lemma {:induction false} PartsDistinct(s: Snapshot)
    requires WellFormed(s)
    ensures DistinctIds(s.needsYou) && DistinctIds(s.running)
  {
    var all := AllItems(s);
    forall i, j | 0 <= i < j < |s.needsYou| ensures s.needsYou[i].id != s.needsYou[j].id {
      assert all[i] == s.needsYou[i] && all[j] == s.needsYou[j];
    }
    forall i, j | 0 <= i < j < |s.running| ensures s.running[i].id != s.running[j].id {
      assert all[|s.needsYou| + i] == s.running[i] && all[|s.needsYou| + j] == s.running[j];
    }
  }

  lemma {:induction false} FoldKeepsFirst(sofar: Snapshot, servers: seq<Snapshot>, x: Item)
    requires WellFormed(sofar) && forall i :: 0 <= i < |servers| ==> WellFormed(servers[i])
    ensures x in MergeAll(sofar, servers).needsYou <==>
            || x in sofar.needsYou
            || (x.id !in AllIds(sofar) && exists k: nat :: FirstCopy(servers, k, x.id) && x in servers[k].needsYou)
    ensures x in MergeAll(sofar, servers).running <==>
            || x in sofar.running
            || (x.id !in AllIds(sofar) && exists k: nat :: FirstCopy(servers, k, x.id) && x in servers[k].running)
    decreases |servers|
  {
    if servers != [] {
      var first, rest := servers[0], servers[1..];
      var m := Merge(sofar, first);
      MergeWellFormed(sofar, first);
      MergeIds(sofar, first);
      MergeKeepsFirst(sofar, first, x);
      FoldKeepsFirst(m, rest, x);
      HasIds(first, x);
      forall k: nat ensures FirstCopy(servers, k + 1, x.id) <==> x.id !in AllIds(first) && FirstCopy(rest, k, x.id) {
        FirstCopyShift(servers, k, x.id);
      }
      assert FirstCopy(servers, 0, x.id) <==> x.id in AllIds(first);
      assert forall k: nat :: k < |rest| ==> rest[k] == servers[k + 1];
      forall k: nat | FirstCopy(servers, k, x.id) && k > 0
        ensures FirstCopy(rest, k - 1, x.id) && x.id !in AllIds(first)
      {
        FirstCopyShift(servers, k - 1, x.id);
      }
    }
  }

  lemma {:induction false} FirstCopyShift(servers: seq<Snapshot>, k: nat, id: nat)
    requires servers != []
    ensures FirstCopy(servers, k + 1, id) <==> id !in AllIds(servers[0]) && FirstCopy(servers[1..], k, id)
  {
    var rest := servers[1..];
    assert forall j :: 0 <= j < |rest| ==> rest[j] == servers[j + 1];
    if FirstCopy(servers[1..], k, id) && id !in AllIds(servers[0]) {
      forall j | 0 <= j < k + 1 ensures id !in AllIds(servers[j]) {
        if j > 0 { assert servers[j] == rest[j - 1]; }
      }
    }
    if FirstCopy(servers, k + 1, id) {
      forall j | 0 <= j < k ensures id !in AllIds(rest[j]) {
        assert rest[j] == servers[j + 1];
      }
    }
  }

  lemma {:induction false} HasIds(s: Snapshot, x: Item)
    ensures x in s.needsYou ==> x.id in AllIds(s)
    ensures x in s.running ==> x.id in AllIds(s)
  {
    IdsAppend(s.needsYou, s.running);
    IdIn(s.needsYou, x.id);
    IdIn(s.running, x.id);
  }

  /** All of it, for the servers a load merges: distinct ids, their union, first copies, conserved sums. */
  lemma {:induction false} LoadedHolds(servers: seq<Snapshot>, x: Item)
    requires forall i :: 0 <= i < |servers| ==> WellFormed(servers[i])
    ensures var r := MergeAll(EMPTY, servers);
            && WellFormed(r) && AllIds(r) == AllServerIds(servers)
            && (x in r.needsYou <==> exists k: nat :: FirstCopy(servers, k, x.id) && x in servers[k].needsYou)
            && (x in r.running <==> exists k: nat :: FirstCopy(servers, k, x.id) && x in servers[k].running)
            && r.hostsOnline == SumOnline(servers) && r.hostsTotal == SumHosts(servers)
            && r.counts == (if AnyTiles(servers)
                            then Some(Tiles(SumWaiting(servers), SumRecurring(servers), SumAgents(servers)))
                            else None)
  {
    TilesAdd(servers);
    assert AllItems(EMPTY) == [] && AllIds(EMPTY) == {};
    FoldKeeps(EMPTY, servers);
    FoldKeepsFirst(EMPTY, servers, x);
  }
}
