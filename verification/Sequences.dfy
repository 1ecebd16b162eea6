/**
  Filtering, summing and stable sorting of sequences, and the three facts the
  other modules need of them: sorting permutes, a strictly ascending arrangement
  is unique, and a sum does not depend on the order.
 */
module Sequences {

  // ------------------------------------------------------------------ sorting

  /** A stable insertion: behind everything it does not come before. */
  function Insert<T>(x: T, s: seq<T>, before: (T, T) -> bool): seq<T>
    decreases |s|
  {
    if s == [] || !before(x, s[|s| - 1]) then s + [x]
    else Insert(x, s[..|s| - 1], before) + [s[|s| - 1]]
  }

  function Sort<T>(s: seq<T>, before: (T, T) -> bool): seq<T>
    decreases |s|
  {
    if s == [] then [] else Insert(s[|s| - 1], Sort(s[..|s| - 1], before), before)
  }

  lemma {:induction false} InsertKeeps<T>(x: T, s: seq<T>, before: (T, T) -> bool)
    ensures multiset(Insert(x, s, before)) == multiset(s) + multiset{x}
    decreases |s|
  {
    if s != [] {
      assert s == s[..|s| - 1] + [s[|s| - 1]];
      InsertKeeps(x, s[..|s| - 1], before);
    }
  }

  /** An insertion leaves what stands before and behind it as it was. */
  lemma {:induction false} InsertPlace<T>(x: T, s: seq<T>, before: (T, T) -> bool) returns (k: nat)
    ensures k <= |s| && Insert(x, s, before) == s[..k] + [x] + s[k..]
    decreases |s|
  {
    if s == [] || !before(x, s[|s| - 1]) {
      k := |s|;
    } else {
      k := InsertPlace(x, s[..|s| - 1], before);
    }
  }

  lemma {:induction false} SortKeeps<T>(s: seq<T>, before: (T, T) -> bool)
    ensures multiset(Sort(s, before)) == multiset(s)
    decreases |s|
  {
    if s != [] {
      assert s == s[..|s| - 1] + [s[|s| - 1]];
      SortKeeps(s[..|s| - 1], before);
      InsertKeeps(s[|s| - 1], Sort(s[..|s| - 1], before), before);
    }
  }

  lemma SameElements<T>(a: seq<T>, b: seq<T>)
    requires multiset(a) == multiset(b)
    ensures forall x :: x in a <==> x in b
    ensures |a| == |b|
  {
    assert |multiset(a)| == |a| && |multiset(b)| == |b|;
    forall x ensures x in a <==> x in b {
      assert x in multiset(a) <==> x in multiset(b);
    }
  }

  lemma SortMembers<T>(s: seq<T>, before: (T, T) -> bool)
    ensures forall x :: x in Sort(s, before) <==> x in s
    ensures |Sort(s, before)| == |s|
  {
    SortKeeps(s, before);
    SameElements(Sort(s, before), s);
  }

  /** A strict total order on the elements of `s`. */
  ghost predicate TotalOn<T(!new)>(before: (T, T) -> bool, s: seq<T>) {
    && (forall a, b :: a in s && b in s ==> a == b || before(a, b) || before(b, a))
    && (forall a, b :: a in s && b in s ==> !(before(a, b) && before(b, a)))
    && (forall a, b, c :: a in s && b in s && c in s && before(a, b) && before(b, c) ==> before(a, c))
  }

  ghost predicate Distinct<T>(s: seq<T>) {
    forall i, j :: 0 <= i < j < |s| ==> s[i] != s[j]
  }

  ghost predicate Ascending<T>(s: seq<T>, before: (T, T) -> bool) {
    forall i, j :: 0 <= i < j < |s| ==> before(s[i], s[j])
  }

  lemma {:induction false} InsertAscends<T(!new)>(x: T, s: seq<T>, before: (T, T) -> bool)
    requires TotalOn(before, s + [x]) && Ascending(s, before) && x !in s
    ensures Ascending(Insert(x, s, before), before)
    decreases |s|
  {
    var r := Insert(x, s, before);
    assert forall a :: a in s ==> a in s + [x];
    assert x in s + [x];
    if s == [] {
    } else if !before(x, s[|s| - 1]) {
      var last := s[|s| - 1];
      assert last in s && before(last, x);
      forall i, j | 0 <= i < j < |r| ensures before(r[i], r[j]) {
        if j == |s| && i < |s| - 1 {
          assert s[i] in s && before(s[i], last);
        }
      }
    } else {
      var front, last := s[..|s| - 1], s[|s| - 1];
      assert forall a :: a in front + [x] ==> a in s + [x];
      InsertAscends(x, front, before);
      InsertKeeps(x, front, before);
      var t := Insert(x, front, before);
      forall i | 0 <= i < |t| ensures before(t[i], last) {
        assert t[i] in multiset(t) && t[i] in multiset(front) + multiset{x};
        if t[i] != x {
          assert t[i] in front;
        }
      }
    }
  }

  lemma {:induction false} SortAscends<T(!new)>(s: seq<T>, before: (T, T) -> bool)
    requires TotalOn(before, s) && Distinct(s)
    ensures Ascending(Sort(s, before), before)
    decreases |s|
  {
    if s != [] {
      var front, x := s[..|s| - 1], s[|s| - 1];
      var sorted := Sort(front, before);
      SortMembers(front, before);
      assert forall a :: a in front ==> a in s;
      SortAscends(front, before);
      assert x !in sorted;
      assert forall a :: a in sorted + [x] ==> a in s;
      InsertAscends(x, sorted, before);
    }
  }

  lemma SameHead<T(!new)>(a: seq<T>, b: seq<T>, before: (T, T) -> bool)
    requires a != [] && b != [] && (forall x :: x in a <==> x in b)
    requires TotalOn(before, a) && Ascending(a, before) && Ascending(b, before)
    ensures a[0] == b[0]
  {
    assert a[0] in a && b[0] in b;
    var i :| 0 <= i < |b| && b[i] == a[0];
    var j :| 0 <= j < |a| && a[j] == b[0];
  }

  lemma TailCounts<T>(s: seq<T>)
    requires s != []
    ensures multiset(s) == multiset(s[1..]) + multiset{s[0]}
  {
    assert s == [s[0]] + s[1..];
  }

  lemma CancelOne<T>(a: multiset<T>, b: multiset<T>, x: T)
    requires a + multiset{x} == b + multiset{x}
    ensures a == b
  {
    assert a == (a + multiset{x}) - multiset{x} && b == (b + multiset{x}) - multiset{x};
  }

  /** There is only one strictly ascending arrangement. */
  lemma {:induction false} AscendingIsUnique<T(!new)>(a: seq<T>, b: seq<T>, before: (T, T) -> bool)
    requires multiset(a) == multiset(b) && TotalOn(before, a)
    requires Ascending(a, before) && Ascending(b, before)
    ensures a == b
    decreases |a|
  {
    SameElements(a, b);
    if a != [] {
      SameHead(a, b, before);
      TailCounts(a);
      TailCounts(b);
      CancelOne(multiset(a[1..]), multiset(b[1..]), a[0]);
      AscendingIsUnique(a[1..], b[1..], before);
    }
  }

  lemma DistinctCounts<T>(s: seq<T>, x: T)
    requires Distinct(s)
    ensures multiset(s)[x] == if x in s then 1 else 0
    decreases |s|
  {
    if s != [] {
      var front, last := s[..|s| - 1], s[|s| - 1];
      assert s == front + [last];
      DistinctCounts(front, x);
      assert last !in front;
    }
  }

  /** A permutation of distinct elements has distinct elements. */
  lemma DistinctPermutes<T>(a: seq<T>, b: seq<T>)
    requires Distinct(a) && multiset(a) == multiset(b)
    ensures Distinct(b)
  {
    SameElements(a, b);
    forall i, j | 0 <= i < j < |b| ensures b[i] != b[j] {
      DistinctCounts(a, b[i]);
      TwoPlaces(b, i, j);
    }
  }

  lemma TwoPlaces<T>(s: seq<T>, i: nat, j: nat)
    requires i < j < |s|
    ensures s[i] == s[j] ==> multiset(s)[s[i]] >= 2
  {
    assert s == s[..j] + ([s[j]] + s[j + 1..]);
    assert s[..j][i] == s[i] && s[i] in s[..j];
  }

  // ---------------------------------------------------------------- filtering

  function Filter<T>(s: seq<T>, keep: T -> bool): seq<T>
    decreases |s|
  {
    if s == [] then []
    else Filter(s[..|s| - 1], keep) + (if keep(s[|s| - 1]) then [s[|s| - 1]] else [])
  }

  lemma {:induction false} FilterCounts<T>(s: seq<T>, keep: T -> bool, x: T)
    ensures multiset(Filter(s, keep))[x] == if keep(x) then multiset(s)[x] else 0
    decreases |s|
  {
    if s != [] {
      var front, last := s[..|s| - 1], s[|s| - 1];
      assert s == front + [last];
      FilterCounts(front, keep, x);
    }
  }

  lemma FilterMembers<T>(s: seq<T>, keep: T -> bool, x: T)
    ensures x in Filter(s, keep) <==> x in s && keep(x)
  {
    FilterCounts(s, keep, x);
    assert x in Filter(s, keep) <==> x in multiset(Filter(s, keep));
    assert x in s <==> x in multiset(s);
  }

  lemma CountsDecide<T(!new)>(a: multiset<T>, b: multiset<T>)
    requires forall x :: a[x] == b[x]
    ensures a == b
  {}

  lemma FilterPermutes<T(!new)>(a: seq<T>, b: seq<T>, keep: T -> bool)
    requires multiset(a) == multiset(b)
    ensures multiset(Filter(a, keep)) == multiset(Filter(b, keep))
  {
    forall x ensures multiset(Filter(a, keep))[x] == multiset(Filter(b, keep))[x] {
      FilterCounts(a, keep, x);
      FilterCounts(b, keep, x);
    }
    CountsDecide(multiset(Filter(a, keep)), multiset(Filter(b, keep)));
  }

  lemma {:induction false} FilterJoin<T>(a: seq<T>, b: seq<T>, keep: T -> bool)
    ensures Filter(a + b, keep) == Filter(a, keep) + Filter(b, keep)
    decreases |b|
  {
    if b == [] {
      assert a + b == a;
    } else {
      assert (a + b)[..|a + b| - 1] == a + b[..|b| - 1];
      FilterJoin(a, b[..|b| - 1], keep);
    }
  }

  lemma {:induction false} FilterAll<T>(s: seq<T>, keep: T -> bool)
    requires forall x :: x in s ==> keep(x)
    ensures Filter(s, keep) == s
    decreases |s|
  {
    if s != [] {
      var front, last := s[..|s| - 1], s[|s| - 1];
      assert s == front + [last];
      FilterAll(front, keep);
    }
  }

  lemma {:induction false} FilterNone<T>(s: seq<T>, keep: T -> bool)
    requires forall x :: x in s ==> !keep(x)
    ensures Filter(s, keep) == []
    decreases |s|
  {
    if s != [] {
      FilterNone(s[..|s| - 1], keep);
    }
  }

  lemma FilterDistinct<T>(s: seq<T>, keep: T -> bool)
    requires Distinct(s)
    ensures Distinct(Filter(s, keep))
    decreases |s|
  {
    if s != [] {
      var front, last := s[..|s| - 1], s[|s| - 1];
      FilterDistinct(front, keep);
      FilterMembers(front, keep, last);
    }
  }

  /** Filtering keeps the order, so it keeps every ascending arrangement. */
  lemma {:induction false} FilterAscends<T>(s: seq<T>, keep: T -> bool, before: (T, T) -> bool)
    requires Ascending(s, before)
    ensures Ascending(Filter(s, keep), before)
    decreases |s|
  {
    if s != [] {
      var front, last := s[..|s| - 1], s[|s| - 1];
      FilterAscends(front, keep, before);
      var f := Filter(front, keep);
      forall i | 0 <= i < |f| ensures before(f[i], last) {
        FilterMembers(front, keep, f[i]);
        var k :| 0 <= k < |front| && front[k] == f[i];
        assert s[k] == front[k];
      }
    }
  }

  // ------------------------------------------------------------------ summing

  function Sum<T>(s: seq<T>, weight: T -> nat): nat
    decreases |s|
  {
    if s == [] then 0 else Sum(s[..|s| - 1], weight) + weight(s[|s| - 1])
  }

  lemma {:induction false} SumOfJoin<T>(a: seq<T>, b: seq<T>, weight: T -> nat)
    ensures Sum(a + b, weight) == Sum(a, weight) + Sum(b, weight)
    decreases |b|
  {
    if b == [] {
      assert a + b == a;
    } else {
      assert (a + b)[..|a + b| - 1] == a + b[..|b| - 1];
      SumOfJoin(a, b[..|b| - 1], weight);
    }
  }

  lemma SumOfOne<T>(x: T, weight: T -> nat)
    ensures Sum([x], weight) == weight(x)
  {
    assert [x][..0] == [];
  }

  /** The sequence without its element at `k`. */
  function Without<T>(s: seq<T>, k: nat): seq<T>
    requires k < |s|
  {
    s[..k] + s[k + 1..]
  }

  lemma WithoutCounts<T>(s: seq<T>, k: nat)
    requires k < |s|
    ensures multiset(s) == multiset(Without(s, k)) + multiset{s[k]}
  {
    assert s == s[..k] + ([s[k]] + s[k + 1..]);
  }

  lemma SumWithout<T>(s: seq<T>, k: nat, weight: T -> nat)
    requires k < |s|
    ensures Sum(s, weight) == Sum(Without(s, k), weight) + weight(s[k])
  {
    hide Sum;
    var a, x, b := s[..k], [s[k]], s[k + 1..];
    assert s == a + (x + b);
    SumOfJoin(a, x + b, weight);
    SumOfJoin(x, b, weight);
    SumOfJoin(a, b, weight);
    SumOfOne(s[k], weight);
  }

  /** A sum does not depend on the order. */
  lemma {:induction false} SumPermutes<T>(a: seq<T>, b: seq<T>, weight: T -> nat)
    requires multiset(a) == multiset(b)
    ensures Sum(a, weight) == Sum(b, weight)
    decreases |a|
  {
    SameElements(a, b);
    if a != [] {
      var front, x := a[..|a| - 1], a[|a| - 1];
      assert x in a;
      var k :| 0 <= k < |b| && b[k] == x;
      SumWithout(b, k, weight);
      WithoutCounts(b, k);
      assert a == front + [x];
      hide Without;
      CancelOne(multiset(front), multiset(Without(b, k)), x);
      SumPermutes(front, Without(b, k), weight);
    }
  }
}
