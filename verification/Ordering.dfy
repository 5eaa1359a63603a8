/** Ascending lists of reals, and sorting by insertion. */
module Ordering {
  import opened Common

  ghost predicate Ascending(a: seq<real>) {
    forall i, j :: 0 <= i < j < |a| ==> a[i] <= a[j]
  }

  function Insert(a: seq<real>, v: real): (r: seq<real>)
    ensures |r| == |a| + 1
  {
    if a == [] || v <= a[0] then [v] + a else [a[0]] + Insert(a[1..], v)
  }

  function Sorted(a: seq<real>): (r: seq<real>)
    ensures |r| == |a|
  {
    if a == [] then [] else Insert(Sorted(a[..|a| - 1]), a[|a| - 1])
  }

  ghost predicate Within(a: seq<real>, lo: real, hi: real) {
    forall i :: 0 <= i < |a| ==> lo <= a[i] <= hi
  }

  lemma {:induction false} InsertWithin(a: seq<real>, v: real, lo: real, hi: real)
    requires Within(a, lo, hi) && lo <= v <= hi
    ensures Within(Insert(a, v), lo, hi)
  {
    if a != [] && v > a[0] {
      InsertWithin(a[1..], v, lo, hi);
    }
  }

  lemma {:induction false} InsertAscending(a: seq<real>, v: real)
    requires Ascending(a)
    ensures Ascending(Insert(a, v))
  {
    if a != [] && v > a[0] {
      var rest := a[1..];
      InsertAscending(rest, v);
      var hi := MaxR(v, a[|a| - 1]);
      assert Within(rest, a[0], hi);
      InsertWithin(rest, v, a[0], hi);
    }
  }

  lemma {:induction false} InsertMultiset(a: seq<real>, v: real)
    ensures multiset(Insert(a, v)) == multiset(a) + multiset{v}
  {
    if a != [] && v > a[0] {
      InsertMultiset(a[1..], v);
      assert a == [a[0]] + a[1..];
    }
  }

  lemma {:induction false} SortedAscending(a: seq<real>)
    ensures Ascending(Sorted(a))
  {
    if a != [] {
      SortedAscending(a[..|a| - 1]);
      InsertAscending(Sorted(a[..|a| - 1]), a[|a| - 1]);
    }
  }

  lemma {:induction false} SortedWithin(a: seq<real>, lo: real, hi: real)
    requires Within(a, lo, hi)
    ensures Within(Sorted(a), lo, hi)
  {
    if a != [] {
      SortedWithin(a[..|a| - 1], lo, hi);
      InsertWithin(Sorted(a[..|a| - 1]), a[|a| - 1], lo, hi);
    }
  }

  lemma {:induction false} SortedMultiset(a: seq<real>)
    ensures multiset(Sorted(a)) == multiset(a)
  {
    if a != [] {
      SortedMultiset(a[..|a| - 1]);
      InsertMultiset(Sorted(a[..|a| - 1]), a[|a| - 1]);
      assert a == a[..|a| - 1] + [a[|a| - 1]];
    }
  }

  lemma {:induction false} SortedMax(a: seq<real>, i: nat)
    requires i < |a|
    ensures a[i] <= Sorted(a)[|a| - 1]
  {
    SortedAscending(a);
    SortedMultiset(a);
    assert a[i] in multiset(Sorted(a));
    var k :| 0 <= k < |a| && Sorted(a)[k] == a[i];
  }

  /** How many values are at most `x`, and how many are less. */
  ghost function AtMost(a: seq<real>, x: real): nat {
    if a == [] then 0 else AtMost(a[..|a| - 1], x) + (if a[|a| - 1] <= x then 1 else 0)
  }

  ghost function Below(a: seq<real>, x: real): nat {
    if a == [] then 0 else Below(a[..|a| - 1], x) + (if a[|a| - 1] < x then 1 else 0)
  }

  lemma {:induction false} InsertCounts(a: seq<real>, v: real, x: real)
    ensures AtMost(Insert(a, v), x) == AtMost(a, x) + (if v <= x then 1 else 0)
    ensures Below(Insert(a, v), x) == Below(a, x) + (if v < x then 1 else 0)
  {
    if a == [] || v <= a[0] {
      ConsCounts(v, a, x);
    } else {
      InsertCounts(a[1..], v, x);
      ConsCounts(a[0], Insert(a[1..], v), x);
      ConsCounts(a[0], a[1..], x);
      assert a == [a[0]] + a[1..];
    }
  }

  lemma {:induction false} ConsCounts(v: real, a: seq<real>, x: real)
    ensures AtMost([v] + a, x) == AtMost(a, x) + (if v <= x then 1 else 0)
    ensures Below([v] + a, x) == Below(a, x) + (if v < x then 1 else 0)
  {
    var b := [v] + a;
    if a == [] {
      assert b[..0] == [];
    } else {
      ConsCounts(v, a[..|a| - 1], x);
      assert b[..|b| - 1] == [v] + a[..|a| - 1];
    }
  }

  lemma {:induction false} SortedCounts(a: seq<real>, x: real)
    ensures AtMost(Sorted(a), x) == AtMost(a, x) && Below(Sorted(a), x) == Below(a, x)
  {
    if a != [] {
      SortedCounts(a[..|a| - 1], x);
      InsertCounts(Sorted(a[..|a| - 1]), a[|a| - 1], x);
    }
  }

  lemma {:induction false} AtMostMonotone(a: seq<real>, x: real, y: real)
    requires x <= y
    ensures AtMost(a, x) <= AtMost(a, y)
  {
    if a != [] {
      AtMostMonotone(a[..|a| - 1], x, y);
    }
  }

  lemma {:induction false} AtMostPrefix(a: seq<real>, i: nat, x: real)
    requires i <= |a| && forall k :: 0 <= k < i ==> a[k] <= x
    ensures AtMost(a, x) >= i
  {
    if a != [] {
      AtMostPrefix(a[..|a| - 1], if i < |a| then i else i - 1, x);
    }
  }

  lemma {:induction false} BelowPrefix(a: seq<real>, i: nat, x: real)
    requires i <= |a| && forall k :: i <= k < |a| ==> x <= a[k]
    ensures Below(a, x) <= i
  {
    if a != [] {
      BelowPrefix(a[..|a| - 1], if i < |a| then i else i - 1, x);
    }
  }

  /** More than `i` values are at most the one ranked `i`, and no more than `i` are less. */
  lemma RankCounts(a: seq<real>, i: nat, v: real)
    requires i < |a| && v == Sorted(a)[i]
    ensures v in a && AtMost(a, v) >= i + 1 && Below(a, v) <= i
  {
    SortedAscending(a);
    SortedCounts(a, v);
    AtMostPrefix(Sorted(a), i + 1, v);
    BelowPrefix(Sorted(a), i, v);
    SortedMultiset(a);
    assert v in multiset(Sorted(a));
  }
}
