/** The Watch frame (apps/ios/Shared/WatchActivity.swift:21-167, 288-361; apps/ios/Shared/NeedsYouSnapshot.swift:6-67):
    `WatchState` recomputes a three-row frame from a whole snapshot, `Handling` updates a frame in place of
    that when the user deals with one of its items.

    Ids are UUID strings compared as strings; they are modelled by their rank in that order. Times are
    whole units of one clock. */
module Watch {
  import opened RunSpec

  datatype Item = Item(id: nat, since: int, attentionReason: Option<string>, snoozedUntil: Option<int>, details: nat)

  predicate IsQuestion(i: Item) { i.attentionReason == Some("question") }

  predicate IsSnoozed(i: Item, now: int) { i.snoozedUntil.Some? && i.snoozedUntil.value > now }

  /** Questions first, then oldest, then by id. */
  predicate PendingOrder(a: Item, b: Item) {
    if IsQuestion(a) != IsQuestion(b) then IsQuestion(a)
    else if a.since != b.since then a.since < b.since
    else a.id < b.id
  }

  // ---- Sorting ----

  ghost predicate DistinctIds(items: seq<Item>) {
    forall i, j :: 0 <= i < j < |items| ==> items[i].id != items[j].id
  }

  ghost predicate SortedPending(items: seq<Item>) {
    forall i, j :: 0 <= i < j < |items| ==> PendingOrder(items[i], items[j])
  }

  function InsertPending(x: Item, items: seq<Item>): seq<Item> {
    if items == [] || PendingOrder(x, items[0]) then [x] + items
    else [items[0]] + InsertPending(x, items[1..])
  }

  function SortPending(items: seq<Item>): seq<Item> {
    if items == [] then [] else InsertPending(items[0], SortPending(items[1..]))
  }

  function InsertNewest(x: Item, items: seq<Item>): seq<Item> {
    if items == [] || x.since >= items[0].since then [x] + items
    else [items[0]] + InsertNewest(x, items[1..])
  }

  /** Newest first; items of the same time keep their order. */
  function SortNewest(items: seq<Item>): seq<Item> {
    if items == [] then [] else InsertNewest(items[0], SortNewest(items[1..]))
  }

  lemma {:induction false} InsertPendingSame(x: Item, items: seq<Item>)
    ensures multiset(InsertPending(x, items)) == multiset{x} + multiset(items)
  {
    if items != [] && !PendingOrder(x, items[0]) {
      InsertPendingSame(x, items[1..]);
      assert items == [items[0]] + items[1..];
    }
  }

  lemma {:induction false} SortPendingSame(items: seq<Item>)
    ensures multiset(SortPending(items)) == multiset(items)
    ensures |SortPending(items)| == |items|
  {
    if items != [] {
      SortPendingSame(items[1..]);
      InsertPendingSame(items[0], SortPending(items[1..]));
      assert items == [items[0]] + items[1..];
      assert |multiset(SortPending(items))| == |multiset(items)|;
    }
  }

  lemma {:induction false} InsertNewestSame(x: Item, items: seq<Item>)
    ensures multiset(InsertNewest(x, items)) == multiset{x} + multiset(items)
  {
    if items != [] && !(x.since >= items[0].since) {
      InsertNewestSame(x, items[1..]);
      assert items == [items[0]] + items[1..];
    }
  }

  lemma {:induction false} SortNewestSame(items: seq<Item>)
    ensures multiset(SortNewest(items)) == multiset(items)
    ensures |SortNewest(items)| == |items|
  {
    if items != [] {
      SortNewestSame(items[1..]);
      InsertNewestSame(items[0], SortNewest(items[1..]));
      assert items == [items[0]] + items[1..];
      assert |multiset(SortNewest(items))| == |multiset(items)|;
    }
  }

  lemma {:induction false} InsertPendingSorted(x: Item, items: seq<Item>)
    requires SortedPending(items) && forall i :: 0 <= i < |items| ==> items[i].id != x.id
    ensures SortedPending(InsertPending(x, items))
  {
    if items != [] && !PendingOrder(x, items[0]) {
      InsertPendingSorted(x, items[1..]);
      InsertPendingSame(x, items[1..]);
      var rest := InsertPending(x, items[1..]);
      forall k | 0 <= k < |rest| ensures PendingOrder(items[0], rest[k]) {
        assert rest[k] in multiset(rest);
        if rest[k] != x {
          assert rest[k] in multiset(items[1..]);
          assert rest[k] in items[1..];
        }
      }
    }
  }

  lemma {:induction false} SortPendingSorted(items: seq<Item>)
    requires DistinctIds(items)
    ensures SortedPending(SortPending(items))
  {
    if items != [] {
      SortPendingSorted(items[1..]);
      SortPendingSame(items[1..]);
      var rest := SortPending(items[1..]);
      forall k | 0 <= k < |rest| ensures rest[k].id != items[0].id {
        assert rest[k] in multiset(rest);
        assert rest[k] in items[1..];
      }
      InsertPendingSorted(items[0], rest);
    }
  }

  lemma {:induction false} HeadsEqual(a: seq<Item>, b: seq<Item>)
    requires SortedPending(a) && SortedPending(b) && multiset(a) == multiset(b) && a != [] && b != []
    ensures a[0] == b[0]
  {
    assert a[0] in multiset(b) && b[0] in multiset(a);
    var i :| 0 <= i < |b| && b[i] == a[0];
    var j :| 0 <= j < |a| && a[j] == b[0];
  }

  /** However it is sorted: items with distinct ids have one order. */
  lemma {:induction false} SortIsUnique(a: seq<Item>, b: seq<Item>)
    requires SortedPending(a) && SortedPending(b) && multiset(a) == multiset(b)
    ensures a == b
  {
    assert |a| == |multiset(a)| == |multiset(b)| == |b|;
    if a != [] {
      HeadsEqual(a, b);
      WithoutFirst(a);
      WithoutFirst(b);
      SortIsUnique(a[1..], b[1..]);
    }
  }

  lemma {:induction false} WithoutFirst(items: seq<Item>)
    requires items != []
    ensures items == [items[0]] + items[1..]
    ensures multiset(items[1..]) == multiset(items) - multiset{items[0]}
    ensures SortedPending(items) ==> SortedPending(items[1..])
  {
  }

  lemma {:induction false} RemoveAt(items: seq<Item>, i: nat)
    requires i < |items|
    ensures multiset(items[..i] + items[i + 1..]) == multiset(items) - multiset{items[i]}
  {
    assert items == items[..i] + ([items[i]] + items[i + 1..]);
    assert multiset([items[i]] + items[i + 1..]) == multiset{items[i]} + multiset(items[i + 1..]);
  }

  lemma SortedRemoveAt(items: seq<Item>, i: nat)
    requires i < |items| && SortedPending(items)
    ensures SortedPending(items[..i] + items[i + 1..])
  {
    var fewer := items[..i] + items[i + 1..];
    forall j, k | 0 <= j < k < |fewer| ensures PendingOrder(fewer[j], fewer[k]) {
      assert fewer[j] == items[if j < i then j else j + 1];
      assert fewer[k] == items[if k < i then k else k + 1];
    }
  }

  // ---- The snapshot and its frame ----

  datatype Tiles = Tiles(waiting: int, recurring: int, agents: int)

  datatype Snapshot = Snapshot(
    needsYou: seq<Item>,
    running: seq<Item>,
    hostsOnline: int,
    hostsTotal: int,
    counts: Option<Tiles>,
    asOf: int)

  datatype Phase = Waiting | Working | Offline | Done

  datatype Frame = Frame(
    phase: Phase,
    head: Option<Item>,
    others: seq<Item>,
    needsYouCount: int,
    runningCount: int,
    tiles: Option<Tiles>,
    offlineSince: Option<int>,
    asOf: int)

  function Snoozed(items: seq<Item>, now: int): seq<Item> {
    if items == [] then [] else (if IsSnoozed(items[0], now) then [items[0]] else []) + Snoozed(items[1..], now)
  }

  function Unsnoozed(items: seq<Item>, now: int): seq<Item> {
    if items == [] then [] else (if IsSnoozed(items[0], now) then [] else [items[0]]) + Unsnoozed(items[1..], now)
  }

  function WaitingItems(s: Snapshot): seq<Item> {
    SortPending(Unsnoozed(s.needsYou, s.asOf))
  }

  function RunningItems(s: Snapshot): seq<Item> {
    SortNewest(s.running + Snoozed(s.needsYou, s.asOf))
  }

  predicate HostsOffline(s: Snapshot) { s.hostsTotal > 0 && s.hostsOnline == 0 }

  function First(items: seq<Item>): Option<Item> {
    if items == [] then None else Some(items[0])
  }

  /** `dropFirst().prefix(2)`. */
  function NextTwo(items: seq<Item>): seq<Item> {
    if items == [] then [] else if |items| <= 3 then items[1..] else items[1..3]
  }

  function WatchState(s: Snapshot): Frame {
    var waiting, running := WaitingItems(s), RunningItems(s);
    if HostsOffline(s) then
      Frame(Offline, First(waiting), [], |waiting|, |running|, None, Some(s.asOf), s.asOf)
    else if waiting != [] then
      Frame(Waiting, First(waiting), NextTwo(waiting), |waiting|, |running|, s.counts, None, s.asOf)
    else
      Frame(Working, First(running), NextTwo(running), 0, |running|, s.counts, None, s.asOf)
  }

  function Queue(f: Frame): seq<Item> {
    if f.phase.Waiting? then Rows(f) else []
  }

  function Rows(f: Frame): seq<Item> {
    match f.phase
    case Waiting => (if f.head.Some? then [f.head.value] else []) + f.others
    case Working => (if f.head.Some? then [f.head.value] else []) + f.others
    case _ => []
  }

  function RowCount(f: Frame): int {
    match f.phase case Waiting => f.needsYouCount case Working => f.runningCount case _ => 0
  }

  const LIST_MAX := 3

  function Listed(f: Frame): seq<Item> {
    var rows := Rows(f);
    if RowCount(f) > LIST_MAX && |rows| > LIST_MAX - 1 then rows[..LIST_MAX - 1] else rows
  }

  function Unlisted(f: Frame): int {
    if RowCount(f) - |Listed(f)| > 0 then RowCount(f) - |Listed(f)| else 0
  }

  function IndexOfId(items: seq<Item>, id: nat): (i: nat)
    ensures i <= |items|
    ensures i < |items| ==> items[i].id == id
    ensures forall k :: 0 <= k < i ==> items[k].id != id
  {
    if items == [] || items[0].id == id then 0 else 1 + IndexOfId(items[1..], id)
  }

  /** The frame right after the user dealt with item `id`; `None` when the frame isn't asking about it. */
  function Handling(f: Frame, id: nat, now: int, update: Item -> Item): Option<Frame> {
    var queue := Queue(f);
    var i := IndexOfId(queue, id);
    if !f.phase.Waiting? || i == |queue| then None
    else
      var handled := update(queue[i]);
      var rest := queue[..i] + queue[i + 1..];
      var needs := if f.needsYouCount - 1 > 0 then f.needsYouCount - 1 else 0;
      var next := f.(asOf := now, runningCount := f.runningCount + 1, needsYouCount := needs);
      Some(if needs > 0 && rest != []
           then next.(head := Some(rest[0]), others := rest[1..])
           else next.(phase := Working, head := Some(handled), others := [], needsYouCount := 0))
  }

  // ---- What a recomputed frame shows ----

  /** Newest first. */
  ghost predicate NewestFirst(items: seq<Item>) {
    forall i, j :: 0 <= i < j < |items| ==> items[i].since >= items[j].since
  }

  lemma {:induction false} InsertNewestSorted(x: Item, items: seq<Item>)
    requires NewestFirst(items)
    ensures NewestFirst(InsertNewest(x, items))
  {
    if items != [] && x.since < items[0].since {
      InsertNewestSorted(x, items[1..]);
      InsertNewestSame(x, items[1..]);
      var rest := InsertNewest(x, items[1..]);
      forall k | 0 <= k < |rest| ensures items[0].since >= rest[k].since {
        assert rest[k] in multiset(rest);
        if rest[k] != x {
          assert rest[k] in items[1..];
        }
      }
    }
  }

  /** The items from one time, in their order. */
  function FromTime(items: seq<Item>, since: int): seq<Item> {
    if items == [] then [] else (if items[0].since == since then [items[0]] else []) + FromTime(items[1..], since)
  }

  lemma FromTimeFirst(x: Item, items: seq<Item>, since: int)
    ensures FromTime([x] + items, since) == (if x.since == since then [x] else []) + FromTime(items, since)
  {
    assert ([x] + items)[1..] == items;
  }

  lemma {:induction false} InsertNewestStable(x: Item, items: seq<Item>, since: int)
    ensures FromTime(InsertNewest(x, items), since) == (if x.since == since then [x] else []) + FromTime(items, since)
  {
    if items == [] || x.since >= items[0].since {
      FromTimeFirst(x, items, since);
    } else {
      var rest := InsertNewest(x, items[1..]);
      assert InsertNewest(x, items) == [items[0]] + rest && items == [items[0]] + items[1..];
      InsertNewestStable(x, items[1..], since);
      FromTimeFirst(items[0], rest, since);
      FromTimeFirst(items[0], items[1..], since);
      hide *;
      assert items[0].since == since ==> x.since != since;
    }
  }

  /** The sort sorts: newest first, and items of the same time in the order they had. */
  lemma {:induction false} SortNewestSorted(items: seq<Item>, since: int)
    ensures NewestFirst(SortNewest(items)) && multiset(SortNewest(items)) == multiset(items)
    ensures FromTime(SortNewest(items), since) == FromTime(items, since)
  {
    SortNewestSame(items);
    if items != [] {
      SortNewestSorted(items[1..], since);
      InsertNewestSorted(items[0], SortNewest(items[1..]));
      InsertNewestStable(items[0], SortNewest(items[1..]), since);
    }
  }

  /** Needs the user at the snapshot's time: no `Later` window of it is open then. */
  predicate OpenAt(i: Item, now: int) {
    match i.snoozedUntil case None => true case Some(until) => until <= now
  }

  lemma {:induction false} OpenSplit(items: seq<Item>, now: int, x: Item)
    ensures multiset(Unsnoozed(items, now))[x] == if OpenAt(x, now) then multiset(items)[x] else 0
    ensures multiset(Snoozed(items, now))[x] == if OpenAt(x, now) then 0 else multiset(items)[x]
  {
    if items != [] {
      OpenSplit(items[1..], now, x);
      assert items == [items[0]] + items[1..];
    }
  }

  /** The waiting items are those that need the user now, each as often as it is listed; the running ones
      are the others, of both lists. */
  lemma {:induction false} WhoWaits(s: Snapshot, x: Item)
    ensures multiset(WaitingItems(s))[x] == if OpenAt(x, s.asOf) then multiset(s.needsYou)[x] else 0
    ensures multiset(RunningItems(s))[x] ==
            multiset(s.running)[x] + if OpenAt(x, s.asOf) then 0 else multiset(s.needsYou)[x]
  {
    OpenSplit(s.needsYou, s.asOf, x);
    SortPendingSame(Unsnoozed(s.needsYou, s.asOf));
    SortNewestSame(s.running + Snoozed(s.needsYou, s.asOf));
  }

  /** Some item needs the user now. */
  ghost predicate SomeoneWaits(s: Snapshot) { exists x :: x in s.needsYou && OpenAt(x, s.asOf) }

  lemma {:induction false} WaitsIff(s: Snapshot)
    ensures WaitingItems(s) != [] <==> SomeoneWaits(s)
  {
    if WaitingItems(s) != [] {
      var x := WaitingItems(s)[0];
      WhoWaits(s, x);
      assert x in multiset(WaitingItems(s)) && x in multiset(s.needsYou);
    }
    if SomeoneWaits(s) {
      var x :| x in s.needsYou && OpenAt(x, s.asOf);
      WhoWaits(s, x);
      assert x in multiset(s.needsYou) && multiset(WaitingItems(s))[x] > 0;
    }
  }

  /** The phase of a recomputed frame, and what goes with each. */
  lemma {:induction false} PhaseIs(s: Snapshot)
    ensures var f := WatchState(s);
            && f.phase == (if s.hostsTotal > 0 && s.hostsOnline == 0 then Offline
                           else if SomeoneWaits(s) then Waiting else Working)
            && (f.phase.Offline? ==> f.offlineSince == Some(s.asOf) && f.others == [] && f.tiles == None)
            && (!f.phase.Offline? ==> f.offlineSince == None && f.tiles == s.counts)
            && f.asOf == s.asOf
  {
    WaitsIff(s);
  }

  /** `a` is no question where `b` is none, and of the same kind it is no older. */
  ghost predicate NotBefore(a: Item, b: Item) {
    && (a.attentionReason == Some("question") ==> b.attentionReason == Some("question"))
    && ((a.attentionReason == Some("question") <==> b.attentionReason == Some("question")) ==>
          b.since <= a.since && (a.since == b.since ==> b.id <= a.id))
  }

  lemma PendingNotBefore(a: Item, b: Item)
    requires a == b || PendingOrder(b, a)
    ensures NotBefore(a, b)
  {
  }

  lemma {:induction false} WaitingSorted(s: Snapshot)
    requires DistinctIds(s.needsYou)
    ensures SortedPending(WaitingItems(s))
  {
    UnsnoozedIds(s.needsYou, s.asOf);
    SortPendingSorted(Unsnoozed(s.needsYou, s.asOf));
  }

  /** The head of a frame that is waiting, or offline: an item that needs the user now, a question if any of
      these is, and none of its kind is older. */
  lemma {:induction false} WaitingHead(s: Snapshot, x: Item)
    requires DistinctIds(s.needsYou) && x in s.needsYou && OpenAt(x, s.asOf)
    ensures var h := WatchState(s).head; h.Some? && h.value in s.needsYou && OpenAt(h.value, s.asOf)
    ensures NotBefore(x, WatchState(s).head.value)
  {
    var w := WaitingItems(s);
    WaitsIff(s);
    HeadIsFirst(s);
    WaitingSorted(s);
    WhoWaits(s, x);
    WhoWaits(s, w[0]);
    hide WaitingItems, RunningItems, DistinctIds, WatchState, NotBefore, PendingOrder, OpenAt;
    assert x in multiset(s.needsYou) && x in multiset(w) && w[0] in multiset(w);
    assert w[0] in multiset(s.needsYou);
    var k :| 0 <= k < |w| && w[k] == x;
    PendingNotBefore(x, w[0]);
  }

  lemma HeadIsFirst(s: Snapshot)
    requires WaitingItems(s) != []
    ensures WatchState(s).head == Some(WaitingItems(s)[0])
  {
    hide WaitingItems, RunningItems;
  }

  function AtMostThree(items: seq<Item>): seq<Item> {
    if |items| < 3 then items else items[..3]
  }

  /** A head and the next two are the first three. */
  lemma FirstThree(items: seq<Item>)
    ensures (if First(items).Some? then [First(items).value] else []) + NextTwo(items) == AtMostThree(items)
  {
  }

  lemma RowsAre(s: Snapshot)
    ensures var f := WatchState(s);
            && (f.phase.Working? ==> Rows(f) == AtMostThree(RunningItems(s)))
            && (f.phase.Waiting? ==> Rows(f) == AtMostThree(WaitingItems(s)))
  {
    FirstThree(RunningItems(s));
    FirstThree(WaitingItems(s));
    hide WaitingItems, RunningItems, First, NextTwo;
  }

  lemma {:induction false} PrefixCut(items: seq<Item>, n: nat)
    requires n <= |items|
    ensures multiset(items[..n]) <= multiset(items)
    ensures multiset(items) - multiset(items[..n]) == multiset(items[n..])
  {
    assert items == items[..n] + items[n..];
  }

  lemma RunningSorted(s: Snapshot)
    ensures NewestFirst(RunningItems(s))
  {
    SortNewestSorted(s.running + Snoozed(s.needsYou, s.asOf), 0);
  }

  lemma {:induction false} NewestCut(items: seq<Item>, n: nat, x: Item)
    requires NewestFirst(items) && n <= |items| && x in items[n..]
    ensures forall r :: r in items[..n] ==> r.since >= x.since
  {
    var k :| 0 <= k < |items| - n && items[n..][k] == x;
    assert items[n + k] == x;
    forall r | r in items[..n] ensures r.since >= x.since {
      var j :| 0 <= j < n && items[..n][j] == r;
      assert items[j] == r;
    }
  }

  /** The rows of a working frame: the three newest running items, or all there are, newest first. What is
      left out is no newer than any of them. */
  lemma {:induction false} WorkingRows(s: Snapshot, x: Item)
    requires WatchState(s).phase.Working?
    ensures var rows, all := Rows(WatchState(s)), multiset(RunningItems(s));
            && |rows| == (if |all| < 3 then |all| else 3) && NewestFirst(rows) && multiset(rows) <= all
            && (x in all - multiset(rows) ==> forall r :: r in rows ==> r.since >= x.since)
  {
    var running := RunningItems(s);
    RunningSorted(s);
    RowsAre(s);
    hide RunningItems, WaitingItems, WatchState, Rows, NewestFirst;
    var n := if |running| < 3 then |running| else 3;
    assert AtMostThree(running) == running[..n];
    PrefixCut(running, n);
    NewestPrefix(running, n);
    if x in multiset(running[n..]) { NewestCut(running, n, x); }
  }

  lemma NewestPrefix(items: seq<Item>, n: nat)
    requires NewestFirst(items) && n <= |items|
    ensures NewestFirst(items[..n])
  {
  }

  /** None comes behind one that it comes before. */
  ghost predicate InOrder(items: seq<Item>) {
    forall i, j :: 0 <= i < j < |items| ==> NotBefore(items[j], items[i])
  }

  lemma {:induction false} PendingCut(items: seq<Item>, n: nat)
    requires SortedPending(items) && n <= |items|
    ensures InOrder(items[..n])
    ensures forall x, r :: x in items[n..] && r in items[..n] ==> NotBefore(x, r)
  {
    hide PendingOrder, NotBefore;
    forall i, j | 0 <= i < j < n ensures NotBefore(items[j], items[i]) {
      PendingNotBefore(items[j], items[i]);
    }
    forall x, r | x in items[n..] && r in items[..n] ensures NotBefore(x, r) {
      var k :| 0 <= k < |items| - n && items[n..][k] == x;
      var j :| 0 <= j < n && items[..n][j] == r;
      assert items[n + k] == x && items[j] == r;
      PendingNotBefore(x, r);
    }
  }

  /** The rows of a waiting frame: the first three of those that wait, or all, with none behind one that it
      comes before; nor does any that is left out come before one of them. */
  lemma {:induction false} WaitingRows(s: Snapshot, x: Item)
    requires WatchState(s).phase.Waiting? && DistinctIds(s.needsYou)
    ensures var rows, all := Rows(WatchState(s)), multiset(WaitingItems(s));
            && |rows| == (if |all| < 3 then |all| else 3) && multiset(rows) <= all && InOrder(rows)
            && (x in all - multiset(rows) ==> forall r :: r in rows ==> NotBefore(x, r))
  {
    var w := WaitingItems(s);
    WaitingSorted(s);
    RowsAre(s);
    hide RunningItems, WaitingItems, WatchState, Rows, SortedPending, InOrder, NotBefore;
    var n := if |w| < 3 then |w| else 3;
    assert AtMostThree(w) == w[..n];
    PrefixCut(w, n);
    PendingCut(w, n);
    assert x in multiset(w[n..]) ==> x in w[n..];
  }

  // ---- Conservation ----

  lemma {:induction false} SnoozedSplit(items: seq<Item>, now: int)
    ensures |Snoozed(items, now)| + |Unsnoozed(items, now)| == |items|
    ensures multiset(Unsnoozed(items, now)) <= multiset(items)
  {
    if items != [] {
      SnoozedSplit(items[1..], now);
      assert items == [items[0]] + items[1..];
    }
  }

  /** A recomputed frame counts every item of the snapshot once. */
  lemma {:induction false} FrameCountsAll(s: Snapshot)
    ensures var f := WatchState(s);
            f.needsYouCount + f.runningCount == |s.needsYou| + |s.running|
  {
    SnoozedSplit(s.needsYou, s.asOf);
    SortPendingSame(Unsnoozed(s.needsYou, s.asOf));
    SortNewestSame(s.running + Snoozed(s.needsYou, s.asOf));
  }

  // ---- Incremental against recomputed ----

  function SnoozeItem(i: Item, until: int): Item { i.(snoozedUntil := Some(until)) }

  /** The snapshot in which item `id`, which needed the user, is put off until `until`. */
  function Snooze(s: Snapshot, id: nat, until: int): Snapshot {
    s.(needsYou := SnoozeIn(s.needsYou, id, until))
  }

  function SnoozeIn(items: seq<Item>, id: nat, until: int): seq<Item> {
    if items == [] then []
    else [if items[0].id == id then SnoozeItem(items[0], until) else items[0]] + SnoozeIn(items[1..], id, until)
  }

  /** A frame that carries the first `m` of the items waiting in `s`, and counts like a recomputed one. */
  ghost predicate Tracks(f: Frame, s: Snapshot, m: nat) {
    && f.phase.Waiting? && f.offlineSince.None? && f.tiles == s.counts && f.asOf == s.asOf
    && 1 <= m <= |WaitingItems(s)| && m <= 3
    && Queue(f) == WaitingItems(s)[..m]
    && f.head.Some?
    && f.needsYouCount == |WaitingItems(s)|
    && f.runningCount == |RunningItems(s)|
  }

  /** Phase and counts of the recomputed frame; in the waiting phase its head too, and a prefix of its rows. */
  ghost predicate Agrees(f: Frame, s: Snapshot) {
    var g := WatchState(s);
    && f.phase == g.phase && f.needsYouCount == g.needsYouCount && f.runningCount == g.runningCount
    && (f.phase.Waiting? ==> f.head == g.head && f.others <= g.others)
  }

  lemma {:induction false} RecomputedTracks(s: Snapshot)
    requires !HostsOffline(s) && WaitingItems(s) != []
    ensures Tracks(WatchState(s), s, if |WaitingItems(s)| <= 3 then |WaitingItems(s)| else 3)
  {
    var w := WaitingItems(s);
    if |w| <= 3 {
      assert [w[0]] + w[1..] == w && w[..|w|] == w;
    } else {
      assert [w[0]] + w[1..3] == w[..3];
    }
  }

  /** A frame that tracks shows the head a recomputed one would, and a prefix of its other rows. */
  lemma {:induction false} TrackedRows(f: Frame, s: Snapshot, m: nat)
    requires Tracks(f, s, m) && !HostsOffline(s)
    ensures Agrees(f, s)
    ensures m == |WaitingItems(s)| ==> f == WatchState(s)
  {
    var w := WaitingItems(s);
    assert f.head.value == Queue(f)[0] == w[0];
    assert f.others == Queue(f)[1..] == w[..m][1..] == w[1..m];
    assert m == |w| ==> w[1..m] == w[1..];
  }

  lemma {:induction false} UnsnoozedIds(items: seq<Item>, now: int)
    requires DistinctIds(items)
    ensures DistinctIds(Unsnoozed(items, now))
    ensures forall x :: x in Unsnoozed(items, now) ==> x in items && !IsSnoozed(x, now)
  {
    if items != [] {
      UnsnoozedIds(items[1..], now);
      var rest := Unsnoozed(items[1..], now);
      forall k | 0 <= k < |rest| ensures rest[k].id != items[0].id {
        assert rest[k] in items[1..];
      }
    }
  }

  lemma {:induction false} SnoozeInOthers(items: seq<Item>, id: nat, until: int)
    requires forall i :: 0 <= i < |items| ==> items[i].id != id
    ensures SnoozeIn(items, id, until) == items
  {
    if items != [] {
      SnoozeInOthers(items[1..], id, until);
      assert items == [items[0]] + items[1..];
    }
  }

  lemma {:induction false} SnoozeInIds(items: seq<Item>, id: nat, until: int)
    ensures |SnoozeIn(items, id, until)| == |items|
    ensures forall i :: 0 <= i < |items| ==> SnoozeIn(items, id, until)[i].id == items[i].id
  {
    if items != [] {
      SnoozeInIds(items[1..], id, until);
    }
  }

  lemma SnoozeKeepsIds(items: seq<Item>, id: nat, until: int)
    requires DistinctIds(items)
    ensures DistinctIds(SnoozeIn(items, id, until))
  {
    SnoozeInIds(items, id, until);
  }

  /** The first item, and the rest, when item `x` of them is put off. */
  lemma {:induction false} SnoozeFirst(items: seq<Item>, x: Item, until: int)
    requires DistinctIds(items) && x in items
    ensures var y, rest := items[0], items[1..];
            && items == [y] + rest && DistinctIds(rest)
            && SnoozeIn(items, x.id, until) ==
               (if y == x then [SnoozeItem(x, until)] + rest else [y] + SnoozeIn(rest, x.id, until))
            && (y != x ==> x in rest)
  {
    var y, rest := items[0], items[1..];
    assert items == [y] + rest;
    var k :| 0 <= k < |items| && items[k] == x;
    if k == 0 {
      forall i | 0 <= i < |rest| ensures rest[i].id != x.id {
        assert rest[i] == items[i + 1];
      }
      SnoozeInOthers(rest, x.id, until);
    } else {
      assert rest[k - 1] == x && y.id != x.id;
    }
  }

  lemma OneOnTop(y: Item, rest: seq<Item>, now: int)
    ensures multiset(Unsnoozed([y] + rest, now)) ==
            (if IsSnoozed(y, now) then multiset{} else multiset{y}) + multiset(Unsnoozed(rest, now))
    ensures |Snoozed([y] + rest, now)| == (if IsSnoozed(y, now) then 1 else 0) + |Snoozed(rest, now)|
  {
    assert ([y] + rest)[1..] == rest;
  }

  /** Putting one waiting item off takes exactly it out of the waiting ones, and adds one to the others. */
  lemma {:induction false} SnoozeMovesOne(items: seq<Item>, x: Item, until: int, now: int)
    requires DistinctIds(items) && x in items && !IsSnoozed(x, now) && until > now
    ensures multiset(Unsnoozed(SnoozeIn(items, x.id, until), now)) + multiset{x} == multiset(Unsnoozed(items, now))
    ensures |Snoozed(SnoozeIn(items, x.id, until), now)| == |Snoozed(items, now)| + 1
  {
    var y, rest := items[0], items[1..];
    SnoozeFirst(items, x, until);
    OneOnTop(y, rest, now);
    hide Snoozed, Unsnoozed, SnoozeIn, DistinctIds;
    if y == x {
      OneOnTop(SnoozeItem(x, until), rest, now);
    } else {
      OneOnTop(y, SnoozeIn(rest, x.id, until), now);
      SnoozeMovesOne(rest, x, until, now);
    }
  }

  /** The waiting list after item `i` of it was put off: the list without it. */
  lemma {:induction false} WaitingAfter(s: Snapshot, i: nat, until: int)
    requires DistinctIds(s.needsYou) && until > s.asOf && i < |WaitingItems(s)|
    ensures var w := WaitingItems(s);
            var s' := Snooze(s, w[i].id, until);
            && WaitingItems(s') == w[..i] + w[i + 1..]
            && |RunningItems(s')| == |RunningItems(s)| + 1
            && DistinctIds(s'.needsYou)
  {
    hide Snoozed, Unsnoozed, SnoozeIn, SortPending, SortNewest, DistinctIds;
    var open, w := Unsnoozed(s.needsYou, s.asOf), WaitingItems(s);
    var x := w[i];
    UnsnoozedIds(s.needsYou, s.asOf);
    SortPendingSame(open);
    assert x in multiset(w) && x in open;
    SnoozeMovesOne(s.needsYou, x, until, s.asOf);
    SnoozeKeepsIds(s.needsYou, x.id, until);
    var s' := Snooze(s, x.id, until);
    UnsnoozedIds(s'.needsYou, s.asOf);
    SortedWithout(open, Unsnoozed(s'.needsYou, s.asOf), i);
    SortNewestSame(s.running + Snoozed(s.needsYou, s.asOf));
    SortNewestSame(s'.running + Snoozed(s'.needsYou, s.asOf));
  }

  /** Leaving an item out before sorting is leaving it out of the sorted list. */
  lemma {:induction false} SortedWithout(items: seq<Item>, fewer: seq<Item>, i: nat)
    requires DistinctIds(items) && DistinctIds(fewer) && i < |SortPending(items)|
    requires multiset(fewer) + multiset{SortPending(items)[i]} == multiset(items)
    ensures SortPending(fewer) == SortPending(items)[..i] + SortPending(items)[i + 1..]
  {
    var w := SortPending(items);
    SortPendingSame(items);
    SortPendingSorted(items);
    SortPendingSame(fewer);
    SortPendingSorted(fewer);
    RemoveAt(w, i);
    SortedRemoveAt(w, i);
    SortIsUnique(SortPending(fewer), w[..i] + w[i + 1..]);
  }

  lemma PrefixWithout(w: seq<Item>, m: nat, i: nat)
    requires i < m <= |w|
    ensures w[..m][..i] + w[..m][i + 1..] == (w[..i] + w[i + 1..])[..m - 1]
  {
  }

  /** One of the user's taps: the item, and until when it is put off. */
  datatype Tap = Tap(id: nat, until: int)

  function Handle(f: Frame, tap: Tap, now: int): Option<Frame> {
    Handling(f, tap.id, now, (i: Item) => SnoozeItem(i, tap.until))
  }

  lemma HandleIs(f: Frame, tap: Tap, now: int)
    requires Handle(f, tap, now).Some?
    ensures var i := IndexOfId(Queue(f), tap.id);
            i < |Queue(f)| && f.phase.Waiting? &&
            var rest, g := Queue(f)[..i] + Queue(f)[i + 1..], Handle(f, tap, now).value;
            && g.asOf == now && g.runningCount == f.runningCount + 1
            && g.tiles == f.tiles && g.offlineSince == f.offlineSince
            && (if f.needsYouCount > 1 && rest != []
                then && g.phase.Waiting? && g.needsYouCount == f.needsYouCount - 1
                     && g.head == Some(rest[0]) && g.others == rest[1..]
                else g.phase.Working? && g.needsYouCount == 0)
  {
  }

  /** The item a tap handles, in the waiting list, and that list without it. */
  lemma {:induction false} HandledPlace(f: Frame, s: Snapshot, m: nat, tap: Tap) returns (i: nat)
    requires Tracks(f, s, m) && DistinctIds(s.needsYou) && tap.until > s.asOf
    requires Handle(f, tap, s.asOf).Some?
    ensures i == IndexOfId(Queue(f), tap.id) && i < m && DistinctIds(Snooze(s, tap.id, tap.until).needsYou)
    ensures var w, s' := WaitingItems(s), Snooze(s, tap.id, tap.until);
            && WaitingItems(s') == w[..i] + w[i + 1..] && |RunningItems(s')| == |RunningItems(s)| + 1
            && Queue(f)[..i] + Queue(f)[i + 1..] == WaitingItems(s')[..m - 1]
  {
    i := IndexOfId(Queue(f), tap.id);
    var w := WaitingItems(s);
    assert i < m && Queue(f)[i] == w[i];
    PrefixWithout(w, m, i);
    WaitingAfter(s, i, tap.until);
  }

  lemma QueueIs(g: Frame, w: seq<Item>)
    requires g.phase.Waiting? && w != [] && g.head == Some(w[0]) && g.others == w[1..]
    ensures Queue(g) == w
  {
  }

  /** The incremental step against the recomputed frame, from any frame that tracks the snapshot. With
      another item carried it goes on tracking; when the only waiting item is handled the counts agree; and
      when more are waiting than the frame carries, its last carried one leaves it wrong. */
  lemma {:induction false} HandleTracks(f: Frame, s: Snapshot, m: nat, tap: Tap)
    requires Tracks(f, s, m) && !HostsOffline(s) && DistinctIds(s.needsYou) && tap.until > s.asOf
    requires Handle(f, tap, s.asOf).Some?
    ensures var g, s', n := Handle(f, tap, s.asOf).value, Snooze(s, tap.id, tap.until), |WaitingItems(s)|;
            && DistinctIds(s'.needsYou) && !HostsOffline(s') && s'.asOf == s.asOf && |WaitingItems(s')| == n - 1
            && (m >= 2 ==> Tracks(g, s', m - 1))
            && (m == 1 ==> g.phase.Working? && g.needsYouCount == 0 && g.runningCount == f.runningCount + 1)
            && (m == 1 ==> (Agrees(g, s') <==> n == 1))
  {
    hide WaitingItems, RunningItems, DistinctIds, Queue, Handle, SnoozeIn;
    var g, s' := Handle(f, tap, s.asOf).value, Snooze(s, tap.id, tap.until);
    var i := HandledPlace(f, s, m, tap);
    HandleIs(f, tap, s.asOf);
    if m >= 2 { QueueIs(g, WaitingItems(s')[..m - 1]); } else { CountsAgree(g, s'); }
  }

  lemma CountsAgree(g: Frame, s: Snapshot)
    requires g.phase.Working? && !HostsOffline(s)
    ensures Agrees(g, s) <==>
            WaitingItems(s) == [] && g.needsYouCount == 0 && g.runningCount == |RunningItems(s)|
  {
    hide WaitingItems, RunningItems;
  }

  /** While two or more are waiting and carried, handling one gives the recomputed frame's phase, counts and
      head, and a prefix of its other rows; handling the only one gives its phase and counts. */
  lemma {:induction false} IncrementalRefines(s: Snapshot, tap: Tap)
    requires DistinctIds(s.needsYou) && !HostsOffline(s) && tap.until > s.asOf
    requires Handle(WatchState(s), tap, s.asOf).Some?
    ensures var g, r := Handle(WatchState(s), tap, s.asOf).value, WatchState(Snooze(s, tap.id, tap.until));
            && g.phase == r.phase && g.needsYouCount == r.needsYouCount && g.runningCount == r.runningCount
            && (|WaitingItems(s)| >= 2 ==> g.head == r.head && g.others <= r.others)
            && (2 <= |WaitingItems(s)| <= 3 ==> g == r)
  {
    RecomputedTracks(s);
    var n := |WaitingItems(s)|;
    var m := if n <= 3 then n else 3;
    HandleTracks(WatchState(s), s, m, tap);
    if m >= 2 {
      TrackedRows(Handle(WatchState(s), tap, s.asOf).value, Snooze(s, tap.id, tap.until), m - 1);
    }
  }

  function HandleAll(f: Frame, taps: seq<Tap>, now: int): Option<Frame>
    decreases |taps|
  {
    if taps == [] then Some(f)
    else
      match Handle(f, taps[0], now)
      case None => None
      case Some(g) => HandleAll(g, taps[1..], now)
  }

  function SnoozeAll(s: Snapshot, taps: seq<Tap>): Snapshot
    decreases |taps|
  {
    if taps == [] then s else SnoozeAll(Snooze(s, taps[0].id, taps[0].until), taps[1..])
  }

  lemma {:induction false} WorkingHandlesNone(f: Frame, taps: seq<Tap>, now: int)
    requires f.phase.Working? && HandleAll(f, taps, now).Some?
    ensures taps == []
  {
  }

  lemma {:induction false} HandleAllTracks(f: Frame, s: Snapshot, m: nat, taps: seq<Tap>)
    requires Tracks(f, s, m) && !HostsOffline(s) && DistinctIds(s.needsYou)
    requires forall i :: 0 <= i < |taps| ==> taps[i].until > s.asOf
    requires HandleAll(f, taps, s.asOf).Some?
    ensures |taps| <= m
    ensures Agrees(HandleAll(f, taps, s.asOf).value, SnoozeAll(s, taps)) <==> |taps| < m || m == |WaitingItems(s)|
    decreases |taps|
  {
    if taps == [] {
      TrackedRows(f, s, m);
    } else {
      HandleTracks(f, s, m, taps[0]);
      var g, s' := Handle(f, taps[0], s.asOf).value, Snooze(s, taps[0].id, taps[0].until);
      if m >= 2 {
        HandleAllTracks(g, s', m - 1, taps[1..]);
      } else {
        WorkingHandlesNone(g, taps[1..], s.asOf);
      }
    }
  }

  /** Exactly how long a frame stays right by itself: after any taps it accepts, it agrees with the
      recomputed one, in phase and counts and, while items wait, in its head and the rows it has, iff no more
      than three items were waiting or fewer than three taps were made. */
  lemma {:induction false} SuccessiveHandlings(s: Snapshot, taps: seq<Tap>)
    requires DistinctIds(s.needsYou) && !HostsOffline(s) && WaitingItems(s) != []
    requires forall i :: 0 <= i < |taps| ==> taps[i].until > s.asOf
    requires HandleAll(WatchState(s), taps, s.asOf).Some?
    ensures Agrees(HandleAll(WatchState(s), taps, s.asOf).value, SnoozeAll(s, taps)) <==>
            |WaitingItems(s)| <= 3 || |taps| <= 2
  {
    RecomputedTracks(s);
    var n := |WaitingItems(s)|;
    HandleAllTracks(WatchState(s), s, if n <= 3 then n else 3, taps);
  }

  /** And so long it counts every item of the snapshot once, no longer. */
  lemma {:induction false} HandlingsConserveIff(s: Snapshot, taps: seq<Tap>)
    requires DistinctIds(s.needsYou) && !HostsOffline(s) && WaitingItems(s) != []
    requires forall i :: 0 <= i < |taps| ==> taps[i].until > s.asOf
    requires HandleAll(WatchState(s), taps, s.asOf).Some?
    ensures var g := HandleAll(WatchState(s), taps, s.asOf).value;
            g.needsYouCount + g.runningCount == |s.needsYou| + |s.running| <==>
            |WaitingItems(s)| <= 3 || |taps| <= 2
  {
    RecomputedTracks(s);
    FrameCountsAll(s);
    var n := |WaitingItems(s)|;
    HandleAllSum(WatchState(s), s, if n <= 3 then n else 3, taps);
  }

  /** The counts after taps on a frame that carries `m` of the waiting items. */
  lemma {:induction false} HandleAllSum(f: Frame, s: Snapshot, m: nat, taps: seq<Tap>)
    requires Tracks(f, s, m) && !HostsOffline(s) && DistinctIds(s.needsYou)
    requires forall i :: 0 <= i < |taps| ==> taps[i].until > s.asOf
    requires HandleAll(f, taps, s.asOf).Some?
    ensures |taps| <= m
    ensures var g := HandleAll(f, taps, s.asOf).value;
            g.needsYouCount + g.runningCount ==
            f.needsYouCount + f.runningCount - (if |taps| == m then |WaitingItems(s)| - m else 0)
    decreases |taps|
  {
    if taps != [] {
      HandleTracks(f, s, m, taps[0]);
      var g, s' := Handle(f, taps[0], s.asOf).value, Snooze(s, taps[0].id, taps[0].until);
      if m >= 2 {
        HandleAllSum(g, s', m - 1, taps[1..]);
      } else {
        WorkingHandlesNone(g, taps[1..], s.asOf);
      }
    }
  }

  /** A frame takes as many taps in a row as it carries items, each on its head. */
  lemma {:induction false} HeadTapsAccepted(f: Frame, s: Snapshot, m: nat, k: nat, until: int)
      returns (taps: seq<Tap>)
    requires Tracks(f, s, m) && !HostsOffline(s) && DistinctIds(s.needsYou) && until > s.asOf && k <= m
    ensures |taps| == k && (forall i :: 0 <= i < k ==> taps[i].until == until)
    ensures HandleAll(f, taps, s.asOf).Some?
    decreases k
  {
    if k == 0 {
      taps := [];
    } else {
      var tap := Tap(f.head.value.id, until);
      HandleTracks(f, s, m, tap);
      var rest := [];
      if k > 1 {
        rest := HeadTapsAccepted(Handle(f, tap, s.asOf).value, Snooze(s, tap.id, until), m - 1, k - 1, until);
      }
      taps := [tap] + rest;
      assert taps[1..] == rest;
      forall i | 0 <= i < k ensures taps[i].until == until {
        if i > 0 { assert taps[i] == rest[i - 1]; }
      }
    }
  }

  /** And it does get there: with more than three waiting, three taps on what the frame shows first are all
      accepted, and then it says that nothing waits, and counts fewer items than the snapshot has. */
  lemma {:induction false} ThirdTapIsWrong(s: Snapshot, until: int) returns (taps: seq<Tap>)
    requires DistinctIds(s.needsYou) && !HostsOffline(s) && |WaitingItems(s)| > 3 && until > s.asOf
    ensures |taps| == 3 && forall i :: 0 <= i < 3 ==> taps[i].until == until
    ensures HandleAll(WatchState(s), taps, s.asOf).Some?
    ensures var g := HandleAll(WatchState(s), taps, s.asOf).value;
            && !Agrees(g, SnoozeAll(s, taps))
            && g.needsYouCount + g.runningCount < |s.needsYou| + |s.running|
            && g.phase.Working? && g.needsYouCount == 0
  {
    RecomputedTracks(s);
    taps := HeadTapsAccepted(WatchState(s), s, 3, 3, until);
    SuccessiveHandlings(s, taps);
    FrameCountsAll(s);
    HandleAllSum(WatchState(s), s, 3, taps);
    HandleAllEnds(WatchState(s), s, 3, taps);
  }

  /** As many taps as it carries items leave it without a queue. */
  lemma {:induction false} HandleAllEnds(f: Frame, s: Snapshot, m: nat, taps: seq<Tap>)
    requires Tracks(f, s, m) && !HostsOffline(s) && DistinctIds(s.needsYou) && |taps| == m
    requires forall i :: 0 <= i < |taps| ==> taps[i].until > s.asOf
    requires HandleAll(f, taps, s.asOf).Some?
    ensures var g := HandleAll(f, taps, s.asOf).value; g.phase.Working? && g.needsYouCount == 0
    decreases |taps|
  {
    HandleTracks(f, s, m, taps[0]);
    var g, s' := Handle(f, taps[0], s.asOf).value, Snooze(s, taps[0].id, taps[0].until);
    if m >= 2 {
      HandleAllEnds(g, s', m - 1, taps[1..]);
    } else {
      WorkingHandlesNone(g, taps[1..], s.asOf);
    }
  }

  /** When nothing else runs, handling the only waiting item gives the recomputed frame itself. */
  lemma {:induction false} LastHandledAlone(s: Snapshot, tap: Tap)
    requires DistinctIds(s.needsYou) && !HostsOffline(s) && tap.until > s.asOf
    requires |s.needsYou| == 1 && s.running == [] && WaitingItems(s) != []
    requires Handle(WatchState(s), tap, s.asOf).Some?
    ensures Handle(WatchState(s), tap, s.asOf) == Some(WatchState(Snooze(s, tap.id, tap.until)))
  {
    var x := s.needsYou[0];
    assert s.needsYou == [x] && [x][1..] == [];
    assert Unsnoozed([x], s.asOf) == if IsSnoozed(x, s.asOf) then [] else [x];
    var y := SnoozeItem(x, tap.until);
    assert SortPending([x]) == InsertPending(x, SortPending([])) == [x];
    assert WaitingItems(s) == [x];
    assert Queue(WatchState(s)) == [x];
    assert tap.id == x.id;
    assert SnoozeIn([x], x.id, tap.until) == [y] && [y][1..] == [];
    assert IsSnoozed(y, s.asOf) && Unsnoozed([y], s.asOf) == [] + Unsnoozed([y][1..], s.asOf) == [];
    assert Snoozed([y], s.asOf) == [y];
    assert [] + [y] == [y] && SortNewest([y]) == [y];
  }

  /** A tap is accepted iff the frame is waiting and shows the item. */
  lemma HandlesIff(f: Frame, tap: Tap, now: int)
    ensures Handle(f, tap, now).Some? <==> f.phase.Waiting? && exists x :: x in Rows(f) && x.id == tap.id
  {
    var i := IndexOfId(Queue(f), tap.id);
    if i < |Queue(f)| { assert Queue(f)[i] in Rows(f); }
  }

  /** A recomputed frame lists all that its phase is about, up to three; of more it lists the first two, and
      says how many it leaves out. */
  lemma {:induction false} AllListed(s: Snapshot)
    ensures var f := WatchState(s);
            var n := match f.phase
                     case Waiting => |WaitingItems(s)|
                     case Working => |RunningItems(s)|
                     case _ => 0;
            |Listed(f)| == (if n <= 3 then n else 2) && Unlisted(f) == n - |Listed(f)| && Listed(f) <= Rows(f)
  {
    RowsAre(s);
    hide WaitingItems, RunningItems;
  }

  /** Every waiting frame reached by handling lists a prefix of the waiting items, and says how many it
      leaves out. */
  lemma {:induction false} ListedCovers(s: Snapshot, taps: seq<Tap>)
    requires DistinctIds(s.needsYou) && !HostsOffline(s) && WaitingItems(s) != []
    requires forall i :: 0 <= i < |taps| ==> taps[i].until > s.asOf
    requires HandleAll(WatchState(s), taps, s.asOf).Some? && HandleAll(WatchState(s), taps, s.asOf).value.phase.Waiting?
    ensures var g := HandleAll(WatchState(s), taps, s.asOf).value;
            && |Listed(g)| + Unlisted(g) == RowCount(g)
            && Listed(g) <= WaitingItems(SnoozeAll(s, taps))
            && Listed(g) != []
            && |Listed(g)| == (if RowCount(g) <= 3 || |Rows(g)| < 2 then |Rows(g)| else 2)
  {
    RecomputedTracks(s);
    var n := |WaitingItems(s)|;
    var m := HandleAllStays(WatchState(s), s, if n <= 3 then n else 3, taps);
  }

  lemma {:induction false} HandleAllStays(f: Frame, s: Snapshot, m: nat, taps: seq<Tap>) returns (k: nat)
    requires Tracks(f, s, m) && !HostsOffline(s) && DistinctIds(s.needsYou)
    requires forall i :: 0 <= i < |taps| ==> taps[i].until > s.asOf
    requires HandleAll(f, taps, s.asOf).Some? && HandleAll(f, taps, s.asOf).value.phase.Waiting?
    ensures Tracks(HandleAll(f, taps, s.asOf).value, SnoozeAll(s, taps), k)
    decreases |taps|
  {
    if taps == [] {
      k := m;
    } else {
      HandleTracks(f, s, m, taps[0]);
      var g, s' := Handle(f, taps[0], s.asOf).value, Snooze(s, taps[0].id, taps[0].until);
      if m == 1 {
        WorkingHandlesNone(g, taps[1..], s.asOf);
      }
      k := HandleAllStays(g, s', m - 1, taps[1..]);
    }
  }
}
