/** Stable sorting by a comparator, as `Array.prototype.sort` does it. */
module Ordering {
  function Insert<T>(xs: seq<T>, x: T, less: (T, T) -> bool): (r: seq<T>)
    ensures |r| == |xs| + 1
  {
    var n := |xs|;
    if n == 0 || !less(x, xs[n - 1]) then xs + [x] else Insert(xs[..n - 1], x, less) + [xs[n - 1]]
  }

  function Sort<T>(xs: seq<T>, less: (T, T) -> bool): (r: seq<T>)
    ensures |r| == |xs|
  {
    if xs == [] then [] else Insert(Sort(xs[..|xs| - 1], less), xs[|xs| - 1], less)
  }

  lemma {:induction false} InsertKeeps<T>(xs: seq<T>, x: T, less: (T, T) -> bool)
    ensures multiset(Insert(xs, x, less)) == multiset(xs) + multiset{x}
  {
    var n := |xs|;
    if n > 0 && less(x, xs[n - 1]) {
      InsertKeeps(xs[..n - 1], x, less);
      assert xs == xs[..n - 1] + [xs[n - 1]];
    }
  }

  lemma {:induction false} SortKeeps<T>(xs: seq<T>, less: (T, T) -> bool)
    ensures multiset(Sort(xs, less)) == multiset(xs)
  {
    if xs != [] {
      SortKeeps(xs[..|xs| - 1], less);
      InsertKeeps(Sort(xs[..|xs| - 1], less), xs[|xs| - 1], less);
      assert xs == xs[..|xs| - 1] + [xs[|xs| - 1]];
    }
  }

  lemma {:induction false} SortHas<T(!new)>(xs: seq<T>, less: (T, T) -> bool)
    ensures forall x :: x in Sort(xs, less) <==> x in xs
  {
    SortKeeps(xs, less);
    forall x ensures x in Sort(xs, less) <==> x in xs {
      assert x in xs <==> x in multiset(xs);
      assert x in Sort(xs, less) <==> x in multiset(Sort(xs, less));
    }
  }

  ghost predicate Transitive<T(!new)>(less: (T, T) -> bool) {
    forall a, b, c :: less(a, b) && less(b, c) ==> less(a, c)
  }

  ghost predicate Increasing<T>(xs: seq<T>, less: (T, T) -> bool) {
    forall i, j :: 0 <= i < j < |xs| ==> less(xs[i], xs[j])
  }

  ghost predicate Comparable<T>(xs: seq<T>, less: (T, T) -> bool) {
    forall i, j :: 0 <= i < j < |xs| ==> less(xs[i], xs[j]) || less(xs[j], xs[i])
  }

  lemma {:induction false} InsertSorts<T(!new)>(xs: seq<T>, x: T, less: (T, T) -> bool)
    requires Transitive(less) && Increasing(xs, less)
    requires forall i :: 0 <= i < |xs| ==> less(x, xs[i]) || less(xs[i], x)
    ensures Increasing(Insert(xs, x, less), less)
  {
    var n := |xs|;
    var r := Insert(xs, x, less);
    if n > 0 && less(x, xs[n - 1]) {
      var front := xs[..n - 1];
      InsertSorts(front, x, less);
      InsertKeeps(front, x, less);
      var s := Insert(front, x, less);
      forall i | 0 <= i < |s| ensures less(s[i], xs[n - 1]) {
        assert s[i] in multiset(s);
        if s[i] != x {
          assert s[i] in front;
        }
      }
    } else if n > 0 {
      forall i | 0 <= i < n ensures less(xs[i], x) {
        assert less(xs[n - 1], x);
      }
    }
  }

  /** Distinct things are put in strict order. */
  lemma {:induction false} SortSorts<T(!new)>(xs: seq<T>, less: (T, T) -> bool)
    requires Transitive(less) && Comparable(xs, less)
    ensures Increasing(Sort(xs, less), less)
  {
    if xs != [] {
      var n := |xs|;
      var front := xs[..n - 1];
      SortSorts(front, less);
      SortHas(front, less);
      forall i | 0 <= i < n - 1 ensures less(xs[n - 1], Sort(front, less)[i]) || less(Sort(front, less)[i], xs[n - 1]) {
        assert Sort(front, less)[i] in front;
        var k :| 0 <= k < |front| && front[k] == Sort(front, less)[i];
      }
      InsertSorts(Sort(front, less), xs[n - 1], less);
    }
  }

  /** What is in order stays as it is. */
  lemma {:induction false} SortOfSorted<T>(xs: seq<T>, less: (T, T) -> bool)
    requires forall i :: 0 < i < |xs| ==> !less(xs[i], xs[i - 1])
    ensures Sort(xs, less) == xs
  {
    if xs != [] {
      SortOfSorted(xs[..|xs| - 1], less);
      assert xs == xs[..|xs| - 1] + [xs[|xs| - 1]];
    }
  }

  ghost predicate DistinctBy<T, K>(xs: seq<T>, key: T -> K) {
    forall i, j :: 0 <= i < j < |xs| ==> key(xs[i]) != key(xs[j])
  }

  lemma {:induction false} InsertKeepsDistinct<T, K>(xs: seq<T>, x: T, less: (T, T) -> bool, key: T -> K)
    requires DistinctBy(xs, key) && forall i :: 0 <= i < |xs| ==> key(xs[i]) != key(x)
    ensures DistinctBy(Insert(xs, x, less), key)
  {
    var n := |xs|;
    if n > 0 && less(x, xs[n - 1]) {
      var front := xs[..n - 1];
      InsertKeepsDistinct(front, x, less, key);
      InsertKeeps(front, x, less);
      var s := Insert(front, x, less);
      forall i | 0 <= i < |s| ensures key(s[i]) != key(xs[n - 1]) {
        assert s[i] in multiset(s);
        if s[i] != x {
          assert s[i] in front;
        }
      }
    }
  }

  lemma {:induction false} SortKeepsDistinct<T(!new), K>(xs: seq<T>, less: (T, T) -> bool, key: T -> K)
    requires DistinctBy(xs, key)
    ensures DistinctBy(Sort(xs, less), key)
  {
    if xs != [] {
      var n := |xs|;
      var front := xs[..n - 1];
      SortKeepsDistinct(front, less, key);
      SortHas(front, less);
      var sorted := Sort(front, less);
      forall i | 0 <= i < |sorted| ensures key(sorted[i]) != key(xs[n - 1]) {
        assert sorted[i] in sorted;
        var k :| 0 <= k < |front| && front[k] == sorted[i];
      }
      InsertKeepsDistinct(sorted, xs[n - 1], less, key);
    }
  }
}
