/** Names and aliases of the Kotlin emitter (packages/shared/scripts/gen-kotlin.ts:254-264, 332-379). */
module KotlinNames {
  import opened Decimal
  import opened RunSpec

  const UNKNOWN: string := "UNKNOWN"

  // ---- Unique entry names ----

  function Suffixed(base: string, n: nat): string {
    base + "_" + Numeral(n)
  }

  lemma SuffixedInjective(base: string, m: nat, n: nat)
    requires Suffixed(base, m) == Suffixed(base, n)
    ensures m == n
  {
    assert Suffixed(base, m)[|base| + 1..] == Numeral(m);
    assert Suffixed(base, n)[|base| + 1..] == Numeral(n);
    NumeralInjective(m, n);
  }

  /** Free, with every smaller suffix taken. */
  ghost predicate LeastSuffix(used: set<string>, base: string, name: string, n: nat) {
    n >= 2 && name == Suffixed(base, n) && forall k: nat :: 2 <= k < n ==> Suffixed(base, k) in used
  }

  /** The name a case gets: its first choice when that is free, else the base under the least free suffix. */
  ghost predicate IsPick(used: set<string>, first: string, base: string, name: string) {
    && name !in used
    && (name == first || (first in used && exists n: nat :: LeastSuffix(used, base, name, n)))
  }

  lemma {:induction false} PickUnique(used: set<string>, first: string, base: string, a: string, b: string)
    requires IsPick(used, first, base, a) && IsPick(used, first, base, b)
    ensures a == b
  {
    if a != first && b != first {
      var m: nat :| LeastSuffix(used, base, a, m);
      var n: nat :| LeastSuffix(used, base, b, n);
      assert m <= n && n <= m;
    }
  }

  /** The suffix loop. It ends: each turn meets another name of the finite `used`. */
  method PickName(used: set<string>, first: string, base: string) returns (name: string)
    ensures IsPick(used, first, base, name)
  {
    name := first;
    var n: nat := 2;
    ghost var tried: set<string> := {};
    while name in used
      invariant n >= 2 && tried <= used
      invariant n == 2 ==> name == first
      invariant n > 2 ==> first in used && name == Suffixed(base, n - 1)
      invariant forall k: nat :: 2 <= k < n - 1 ==> Suffixed(base, k) in used
      invariant forall x :: x in tried ==> exists k: nat :: 2 <= k < n - 1 && x == Suffixed(base, k)
      decreases if n == 2 then 1 else 0, used - tried
    {
      if n > 2 {
        if name in tried {
          var k: nat :| 2 <= k < n - 1 && name == Suffixed(base, k);
          SuffixedInjective(base, k, n - 1);
        }
        tried := tried + {name};
      }
      name := Suffixed(base, n);
      n := n + 1;
    }
    if n > 2 {
      assert LeastSuffix(used, base, name, n - 1);
    }
  }

  /** A string enum keeps `UNKNOWN` for its fallback entry, and says so in a case's first choice. */
  function FirstChoice(base: string, fallback: bool): string {
    if fallback && base == UNKNOWN then "UNKNOWN_VALUE" else base
  }

  /** Each name is the pick for its base, after the names before it. */
  ghost predicate Picks(used: set<string>, bases: seq<string>, names: seq<string>, fallback: bool)
    decreases |bases|
  {
    && |names| == |bases|
    && (bases != [] ==>
          && IsPick(used, FirstChoice(bases[0], fallback), bases[0], names[0])
          && Picks(used + {names[0]}, bases[1..], names[1..], fallback))
  }

  function NameSet(names: seq<string>): set<string> {
    set name | name in names
  }

  ghost predicate Distinct(names: seq<string>) {
    forall i, j :: 0 <= i < j < |names| ==> names[i] != names[j]
  }

  lemma {:induction false} PicksDistinct(used: set<string>, bases: seq<string>, names: seq<string>, fallback: bool)
    requires Picks(used, bases, names, fallback)
    ensures Distinct(names) && forall i :: 0 <= i < |names| ==> names[i] !in used
    decreases |bases|
  {
    if bases != [] {
      PicksDistinct(used + {names[0]}, bases[1..], names[1..], fallback);
      forall i | 1 <= i < |names| ensures names[i] !in used && names[i] != names[0] {
        assert names[i] == names[1..][i - 1];
      }
      forall i, j | 1 <= i < j < |names| ensures names[i] != names[j] {
        assert names[i] == names[1..][i - 1] && names[j] == names[1..][j - 1];
      }
    }
  }

  /** The names are a function of the bases. */
  lemma {:induction false} PicksUnique(used: set<string>, bases: seq<string>, a: seq<string>, b: seq<string>,
        fallback: bool)
    requires Picks(used, bases, a, fallback) && Picks(used, bases, b, fallback)
    ensures a == b
    decreases |bases|
  {
    if bases != [] {
      PickUnique(used, FirstChoice(bases[0], fallback), bases[0], a[0], b[0]);
      PicksUnique(used + {a[0]}, bases[1..], a[1..], b[1..], fallback);
      assert a == [a[0]] + a[1..] && b == [b[0]] + b[1..];
    }
  }

  /** A base keeps its name when no case before it got that name; only `UNKNOWN` cannot, where there is a
      fallback, and is `UNKNOWN_VALUE` when that is free. */
  lemma {:induction false} PicksKeep(used: set<string>, bases: seq<string>, names: seq<string>, fallback: bool,
        i: nat)
    requires Picks(used, bases, names, fallback) && i < |bases|
    ensures bases[i] !in used && bases[i] !in names[..i] && (fallback ==> bases[i] != "UNKNOWN") ==>
              names[i] == bases[i]
    ensures fallback && bases[i] == "UNKNOWN" && "UNKNOWN_VALUE" !in used && "UNKNOWN_VALUE" !in names[..i] ==>
              names[i] == "UNKNOWN_VALUE"
    decreases |bases|
  {
    if i > 0 {
      PicksKeep(used + {names[0]}, bases[1..], names[1..], fallback, i - 1);
      assert names[1..][..i - 1] == names[1..i] && names[..i] == [names[0]] + names[1..i];
    }
  }

  /** So distinct bases keep their names, all of them, when none is `UNKNOWN`. */
  lemma {:induction false} DistinctKeep(used: set<string>, bases: seq<string>, names: seq<string>, fallback: bool)
    requires Picks(used, bases, names, fallback) && Distinct(bases)
    requires forall i :: 0 <= i < |bases| ==> bases[i] !in used && (fallback ==> bases[i] != "UNKNOWN")
    ensures names == bases
    decreases |bases|
  {
    if bases != [] {
      PicksKeep(used, bases, names, fallback, 0);
      assert names == [names[0]] + names[1..] && bases == [bases[0]] + bases[1..];
      forall i, j | 0 <= i < j < |bases[1..]| ensures bases[1..][i] != bases[1..][j] {
        assert bases[1..][i] == bases[i + 1] && bases[1..][j] == bases[j + 1];
      }
      DistinctKeep(used + {names[0]}, bases[1..], names[1..], fallback);
    }
  }

  lemma {:induction false} PicksOneMore(used: set<string>, bases: seq<string>, names: seq<string>, base: string,
        name: string, fallback: bool)
    requires Picks(used, bases, names, fallback)
    requires IsPick(used + NameSet(names), FirstChoice(base, fallback), base, name)
    ensures Picks(used, bases + [base], names + [name], fallback)
    decreases |bases|
  {
    if bases == [] {
      assert used + NameSet(names) == used;
      assert (bases + [base])[1..] == [] && (names + [name])[1..] == [];
    } else {
      assert names == [names[0]] + names[1..];
      assert used + NameSet(names) == used + {names[0]} + NameSet(names[1..]);
      PicksOneMore(used + {names[0]}, bases[1..], names[1..], base, name, fallback);
      assert (bases + [base])[1..] == bases[1..] + [base] && (names + [name])[1..] == names[1..] + [name];
    }
  }

  /** Entry names of a string enum, for its cases' bases: pairwise distinct, with `UNKNOWN` left for the
      fallback entry; each is the least free name after those before it. */
  method StringEnumNames(bases: seq<string>) returns (names: seq<string>)
    ensures Picks({UNKNOWN}, bases, names, true)
    ensures Distinct([UNKNOWN] + names)
    ensures Distinct([UNKNOWN] + bases) ==> names == bases
  {
    var used := {UNKNOWN};
    names := [];
    assert bases[..0] == [];
    for i := 0 to |bases|
      invariant used == {UNKNOWN} + NameSet(names)
      invariant Picks({UNKNOWN}, bases[..i], names, true)
    {
      var name := PickName(used, FirstChoice(bases[i], true), bases[i]);
      PicksOneMore({UNKNOWN}, bases[..i], names, bases[i], name, true);
      assert bases[..i + 1] == bases[..i] + [bases[i]];
      used := used + {name};
      names := names + [name];
    }
    assert bases[..|bases|] == bases;
    PicksDistinct({UNKNOWN}, bases, names, true);
    if Distinct([UNKNOWN] + bases) {
      forall i, j | 0 <= i < j < |bases| ensures bases[i] != bases[j] {
        assert ([UNKNOWN] + bases)[i + 1] == bases[i] && ([UNKNOWN] + bases)[j + 1] == bases[j];
      }
      forall i | 0 <= i < |bases| ensures bases[i] != UNKNOWN {
        assert ([UNKNOWN] + bases)[0] == UNKNOWN && ([UNKNOWN] + bases)[i + 1] == bases[i];
      }
      DistinctKeep({UNKNOWN}, bases, names, true);
    }
  }

  /** Entry names of an int enum: the same, with no name kept. */
  method IntEnumNames(bases: seq<string>) returns (names: seq<string>)
    ensures Picks({}, bases, names, false)
    ensures Distinct(names)
    ensures Distinct(bases) ==> names == bases
  {
    var used: set<string> := {};
    names := [];
    assert bases[..0] == [];
    for i := 0 to |bases|
      invariant used == NameSet(names)
      invariant Picks({}, bases[..i], names, false)
    {
      var name := PickName(used, bases[i], bases[i]);
      assert {} + NameSet(names) == used;
      PicksOneMore({}, bases[..i], names, bases[i], name, false);
      assert bases[..i + 1] == bases[..i] + [bases[i]];
      used := used + {name};
      names := names + [name];
    }
    assert bases[..|bases|] == bases;
    PicksDistinct({}, bases, names, false);
    if Distinct(bases) { DistinctKeep({}, bases, names, false); }
  }

  // ---- Nullable aliases ----

  /** A use of a type: of a declared entry, or of anything else. */
  datatype TypeRef = EntryRef(entry: nat) | Plain

  datatype Alias = Alias(target: TypeRef, optional: bool)

  type Aliases = map<nat, Alias>

  /** The recursion, with the entries it has been through: it ends although aliases may form a cycle. */
  function IsNullable(aliases: Aliases, t: TypeRef, seen: set<nat>): bool
    decreases aliases.Keys - seen
  {
    if !t.EntryRef? || t.entry in seen then false
    else if t.entry !in aliases then false
    else aliases[t.entry].optional || IsNullable(aliases, aliases[t.entry].target, seen + {t.entry})
  }

  /** The type `n` aliases further on. */
  function Hop(aliases: Aliases, t: TypeRef, n: nat): Option<TypeRef>
    decreases n
  {
    if n == 0 then Some(t)
    else if t.EntryRef? && t.entry in aliases then Hop(aliases, aliases[t.entry].target, n - 1)
    else None
  }

  ghost predicate OptionalAt(aliases: Aliases, t: TypeRef, n: nat) {
    var r := Hop(aliases, t, n);
    r.Some? && r.value.EntryRef? && r.value.entry in aliases && aliases[r.value.entry].optional
  }

  lemma {:induction false} HopAdd(aliases: Aliases, t: TypeRef, m: nat, n: nat)
    ensures Hop(aliases, t, m + n) == (match Hop(aliases, t, m) case None => None case Some(u) => Hop(aliases, u, n))
    decreases m
  {
    if m > 0 && t.EntryRef? && t.entry in aliases {
      HopAdd(aliases, aliases[t.entry].target, m - 1, n);
    }
  }

  lemma {:induction false} NullableReaches(aliases: Aliases, t: TypeRef, seen: set<nat>) returns (n: nat)
    requires IsNullable(aliases, t, seen)
    ensures OptionalAt(aliases, t, n)
    decreases aliases.Keys - seen
  {
    if aliases[t.entry].optional {
      n := 0;
    } else {
      var k := NullableReaches(aliases, aliases[t.entry].target, seen + {t.entry});
      n := k + 1;
    }
  }

  /** Entries of the chain before the first optional alias do not come twice: behind the second time the
      chain would go on as behind the first, and reach the optional one sooner. */
  lemma {:induction false} NoRepeat(aliases: Aliases, t: TypeRef, n: nat, i: nat, j: nat)
    requires OptionalAt(aliases, t, n) && forall m: nat :: m < n ==> !OptionalAt(aliases, t, m)
    requires i < j <= n
    ensures Hop(aliases, t, i) != Hop(aliases, t, j)
  {
    HopAdd(aliases, t, i, n - j);
    HopAdd(aliases, t, j, n - j);
    if Hop(aliases, t, i) == Hop(aliases, t, j) {
      assert OptionalAt(aliases, t, i + (n - j));
    }
  }

  /** Entry `e` stands among the first `i` types of the chain. */
  ghost predicate Passed(aliases: Aliases, t: TypeRef, i: nat, e: nat) {
    exists k: nat :: k < i && Hop(aliases, t, k) == Some(EntryRef(e))
  }

  /** From the `i`-th type on, having seen those before it. */
  lemma {:induction false} ReachesNullable(aliases: Aliases, t: TypeRef, n: nat, i: nat, u: TypeRef, seen: set<nat>)
    requires OptionalAt(aliases, t, n) && forall m: nat :: m < n ==> !OptionalAt(aliases, t, m)
    requires i <= n && Hop(aliases, t, i) == Some(u)
    requires forall e :: e in seen ==> Passed(aliases, t, i, e)
    ensures IsNullable(aliases, u, seen)
    decreases n - i
  {
    HopAdd(aliases, t, i, n - i);
    assert u.EntryRef? && u.entry in aliases;
    if u.entry in seen {
      var k: nat :| k < i && Hop(aliases, t, k) == Some(EntryRef(u.entry));
      NoRepeat(aliases, t, n, k, i);
    }
    if i < n {
      HopAdd(aliases, t, i, 1);
      assert Hop(aliases, u, 1) == Hop(aliases, aliases[u.entry].target, 0);
      assert u == EntryRef(u.entry) && Hop(aliases, t, i) == Some(EntryRef(u.entry));
      forall e | e in seen + {u.entry} ensures Passed(aliases, t, i + 1, e) {
        if e in seen {
          assert Passed(aliases, t, i, e);
        }
      }
      ReachesNullable(aliases, t, n, i + 1, aliases[u.entry].target, seen + {u.entry});
    }
  }

  /** A type is nullable iff its chain of aliases reaches an optional one, cycles or not. */
  lemma {:induction false} NullableIff(aliases: Aliases, t: TypeRef)
    ensures IsNullable(aliases, t, {}) <==> exists n: nat :: OptionalAt(aliases, t, n)
  {
    if IsNullable(aliases, t, {}) {
      var n := NullableReaches(aliases, t, {});
    } else if exists n: nat :: OptionalAt(aliases, t, n) {
      var n: nat :| OptionalAt(aliases, t, n);
      var least := LeastOptional(aliases, t, n);
      ReachesNullable(aliases, t, least, 0, t, {});
    }
  }

  lemma {:induction false} LeastOptional(aliases: Aliases, t: TypeRef, n: nat) returns (least: nat)
    requires OptionalAt(aliases, t, n)
    ensures least <= n && OptionalAt(aliases, t, least) && forall m: nat :: m < least ==> !OptionalAt(aliases, t, m)
  {
    if m: nat :| m < n && OptionalAt(aliases, t, m) {
      least := LeastOptional(aliases, t, m);
    } else {
      least := n;
    }
  }
}
