/**
 * The array operations the views use, on immutable sequences:
 * `filter`, `find`, `map` with a per-element condition, and `reduce`
 * to a sum.
 */
module Seqs {
  import opened Wrappers

  /** `s.filter(p)`. */
  function Filter<T>(s: seq<T>, p: T -> bool): (r: seq<T>)
    ensures |r| <= |s|
    ensures forall k :: 0 <= k < |r| ==> r[k] in s && p(r[k])
    ensures forall k :: 0 <= k < |s| ==> (s[k] in r <==> p(s[k]))
  {
    if s == [] then [] else (if p(s[0]) then [s[0]] else []) + Filter(s[1..], p)
  }

  /** `r` is `s` with some elements dropped and the rest in their original order. */
  predicate IsSubsequence<T(==)>(r: seq<T>, s: seq<T>)
    decreases |s|
  {
    r == [] || (s != [] && if r[0] == s[0] then IsSubsequence(r[1..], s[1..]) else IsSubsequence(r, s[1..]))
  }

  /** A filter keeps the relative order of what it keeps. */
  lemma {:induction false} FilterSubsequence<T>(s: seq<T>, p: T -> bool)
    ensures IsSubsequence(Filter(s, p), s)
  {
    if s != [] {
      FilterSubsequence(s[1..], p);
      var r := Filter(s, p);
      if p(s[0]) {
        assert r[0] == s[0] && r[1..] == Filter(s[1..], p);
      } else {
        assert r == Filter(s[1..], p);
        assert r != [] ==> p(r[0]) && r[0] != s[0];
      }
    }
  }

  /** Filtering distributes over concatenation, so it keeps relative order. */
  lemma {:induction false} FilterAppend<T>(s: seq<T>, t: seq<T>, p: T -> bool)
    ensures Filter(s + t, p) == Filter(s, p) + Filter(t, p)
  {
    if s == [] {
      assert s + t == t;
    } else {
      assert (s + t)[1..] == s[1..] + t;
      FilterAppend(s[1..], t, p);
    }
  }

  lemma {:induction false} FilterKeepsAll<T>(s: seq<T>, p: T -> bool)
    requires forall k :: 0 <= k < |s| ==> p(s[k])
    ensures Filter(s, p) == s
  {
    if s != [] {
      FilterKeepsAll(s[1..], p);
    }
  }

  /** A filter keeps its whole input exactly when every element passes. */
  lemma {:induction false} FilterLengthAll<T>(s: seq<T>, p: T -> bool)
    ensures |Filter(s, p)| == |s| <==> forall k :: 0 <= k < |s| ==> p(s[k])
  {
    if s != [] {
      FilterLengthAll(s[1..], p);
      assert forall k :: 1 <= k < |s| ==> s[k] == s[1..][k - 1];
    }
  }

  /** Splitting a filter by a second condition partitions its result. */
  lemma {:induction false} FilterSplit<T>(s: seq<T>, p: T -> bool, q: T -> bool)
    ensures multiset(Filter(s, x => p(x) && q(x))) + multiset(Filter(s, x => p(x) && !q(x)))
         == multiset(Filter(s, p))
  {
    if s != [] {
      FilterSplit(s[1..], p, q);
    }
  }

  lemma {:induction false} FilterNone<T>(s: seq<T>, p: T -> bool)
    ensures (forall k :: 0 <= k < |s| ==> !p(s[k])) ==> Filter(s, p) == []
  {
    if s != [] {
      FilterNone(s[1..], p);
    }
  }

  /** The same partition, for conditions given as separate functions. */
  lemma {:induction false} FilterPartition<T>(s: seq<T>, p: T -> bool, c: T -> bool, yes: T -> bool, no: T -> bool)
    requires forall x :: yes(x) == (p(x) && c(x))
    requires forall x :: no(x) == (p(x) && !c(x))
    ensures multiset(Filter(s, yes)) + multiset(Filter(s, no)) == multiset(Filter(s, p))
  {
    if s != [] {
      FilterPartition(s[1..], p, c, yes, no);
    }
  }

  /** `s.filter(p).length`. */
  function CountWhere<T>(s: seq<T>, p: T -> bool): (n: nat)
    ensures n <= |s|
  {
    |Filter(s, p)|
  }

  /** `s.reduce((acc, x) => acc + f(x), 0)`. */
  function Sum<T>(s: seq<T>, f: T -> int): int {
    if s == [] then 0 else f(s[0]) + Sum(s[1..], f)
  }

  lemma {:induction false} SumNonNegative<T>(s: seq<T>, f: T -> int)
    requires forall k :: 0 <= k < |s| ==> f(s[k]) >= 0
    ensures Sum(s, f) >= 0
  {
    if s != [] {
      SumNonNegative(s[1..], f);
    }
  }

  /** The sums over a filter and over its complement add up to the whole sum. */
  lemma {:induction false} SumFilterSplit<T>(s: seq<T>, p: T -> bool, f: T -> int)
    ensures Sum(Filter(s, p), f) + Sum(Filter(s, x => !p(x)), f) == Sum(s, f)
  {
    if s != [] {
      SumFilterSplit(s[1..], p, f);
      var a := if p(s[0]) then [s[0]] else [];
      var b := if !p(s[0]) then [s[0]] else [];
      SumAppend(a, Filter(s[1..], p), f);
      SumAppend(b, Filter(s[1..], x => !p(x)), f);
    }
  }

  lemma {:induction false} SumAppend<T>(s: seq<T>, t: seq<T>, f: T -> int)
    ensures Sum(s + t, f) == Sum(s, f) + Sum(t, f)
  {
    if s == [] {
      assert s + t == t;
    } else {
      assert (s + t)[1..] == s[1..] + t;
      SumAppend(s[1..], t, f);
    }
  }

  /** Over non-negative terms, the sum of a sub-filter is bounded by the sum of the filter. */
  lemma {:induction false} SumFilterMono<T>(s: seq<T>, p: T -> bool, q: T -> bool, f: T -> int)
    requires forall k :: 0 <= k < |s| ==> f(s[k]) >= 0
    requires forall k :: 0 <= k < |s| ==> q(s[k]) ==> p(s[k])
    ensures Sum(Filter(s, q), f) <= Sum(Filter(s, p), f)
  {
    if s != [] {
      SumFilterMono(s[1..], p, q, f);
      var a := if q(s[0]) then [s[0]] else [];
      var b := if p(s[0]) then [s[0]] else [];
      SumAppend(a, Filter(s[1..], q), f);
      SumAppend(b, Filter(s[1..], p), f);
    }
  }

  /** Filters by conditions that agree on every element are equal. */
  lemma {:induction false} FilterExt<T>(s: seq<T>, p: T -> bool, q: T -> bool)
    requires forall k :: 0 <= k < |s| ==> p(s[k]) == q(s[k])
    ensures Filter(s, p) == Filter(s, q)
  {
    if s != [] {
      assert forall k :: 0 <= k < |s[1..]| ==> s[1..][k] == s[k + 1];
      FilterExt(s[1..], p, q);
    }
  }

  lemma SumFilterNonNegative<T>(s: seq<T>, p: T -> bool, f: T -> int)
    requires forall k :: 0 <= k < |s| ==> f(s[k]) >= 0
    ensures Sum(Filter(s, p), f) >= 0
  {
    var r := Filter(s, p);
    forall k | 0 <= k < |r|
      ensures f(r[k]) >= 0
    {
      assert r[k] in s;
    }
    SumNonNegative(r, f);
  }

  /** Over non-negative terms, a filter sums to at most the whole. */
  lemma SumFilterLe<T>(s: seq<T>, p: T -> bool, f: T -> int)
    requires forall k :: 0 <= k < |s| ==> f(s[k]) >= 0
    ensures Sum(Filter(s, p), f) <= Sum(s, f)
  {
    SumFilterSplit(s, p, f);
    SumFilterNonNegative(s, x => !p(x), f);
  }

  // ------------------------------------------------------------ sorting

  predicate SortedDesc<T>(s: seq<T>, key: T -> int) {
    forall i, j :: 0 <= i < j < |s| ==> key(s[i]) >= key(s[j])
  }

  /** Puts `x` before the first element whose key does not exceed its own. */
  function InsertDesc<T(==)>(x: T, s: seq<T>, key: T -> int): (r: seq<T>)
    ensures multiset(r) == multiset(s) + multiset{x}
    ensures forall k :: 0 <= k < |r| ==> r[k] == x || r[k] in s
  {
    if s == [] || key(s[0]) <= key(x) then [x] + s
    else
      var t := InsertDesc(x, s[1..], key);
      assert s == [s[0]] + s[1..];
      assert forall k :: 1 <= k < |[s[0]] + t| ==> ([s[0]] + t)[k] == t[k - 1];
      [s[0]] + t
  }

  lemma {:induction false} InsertDescSorted<T>(x: T, s: seq<T>, key: T -> int)
    requires SortedDesc(s, key)
    ensures SortedDesc(InsertDesc(x, s, key), key)
  {
    if s == [] || key(s[0]) <= key(x) {
    } else {
      var t := InsertDesc(x, s[1..], key);
      InsertDescSorted(x, s[1..], key);
      forall k | 0 <= k < |t|
        ensures key(s[0]) >= key(t[k])
      {
        if t[k] != x {
          var j :| 0 <= j < |s[1..]| && s[1..][j] == t[k];
          assert s[j + 1] == t[k];
        }
      }
      var r := [s[0]] + t;
      assert r == InsertDesc(x, s, key);
      forall i, j | 0 <= i < j < |r|
        ensures key(r[i]) >= key(r[j])
      {
        if i > 0 {
          assert r[i] == t[i - 1] && r[j] == t[j - 1];
        } else {
          assert r[j] == t[j - 1];
        }
      }
    }
  }

  /**
   * `s.sort((a, b) => key(b) - key(a))`: a stable insertion sort by
   * non-increasing key.
   */
  function SortDesc<T(==)>(s: seq<T>, key: T -> int): (r: seq<T>)
    ensures multiset(r) == multiset(s)
    ensures |r| == |s|
    ensures forall k :: 0 <= k < |r| ==> r[k] in s
  {
    if s == [] then []
    else
      var t := SortDesc(s[1..], key);
      assert s == [s[0]] + s[1..];
      var r := InsertDesc(s[0], t, key);
      assert |r| == |multiset(r)|;
      assert forall k :: 0 <= k < |r| ==> r[k] in multiset(r);
      r
  }

  lemma {:induction false} SortDescSorted<T>(s: seq<T>, key: T -> int)
    ensures SortedDesc(SortDesc(s, key), key)
  {
    if s != [] {
      SortDescSorted(s[1..], key);
      InsertDescSorted(s[0], SortDesc(s[1..], key), key);
    }
  }

  /** Index of the first element satisfying `p` (`s.findIndex(p)`, with `None` for -1). */
  function FindIndex<T>(s: seq<T>, p: T -> bool): (r: Option<nat>)
    ensures r.Some? ==> r.value < |s| && p(s[r.value])
    ensures r.Some? ==> forall j :: 0 <= j < r.value ==> !p(s[j])
    ensures r.None? ==> forall j :: 0 <= j < |s| ==> !p(s[j])
  {
    if s == [] then None
    else if p(s[0]) then Some(0)
    else match FindIndex(s[1..], p)
         case None => None
         case Some(i) => Some(i + 1)
  }

  /** `s.find(p)`. */
  function Find<T>(s: seq<T>, p: T -> bool): (r: Option<T>)
    ensures r.Some? <==> exists k :: 0 <= k < |s| && p(s[k])
    ensures r.Some? ==> exists k :: 0 <= k < |s| && s[k] == r.value && p(s[k]) &&
                                    forall j :: 0 <= j < k ==> !p(s[j])
  {
    match FindIndex(s, p)
    case None => None
    case Some(i) => Some(s[i])
  }

  /** `s.map(x => p(x) ? f(x) : x)`. */
  function MapWhere<T>(s: seq<T>, p: T -> bool, f: T -> T): (r: seq<T>)
    ensures |r| == |s|
    ensures forall k :: 0 <= k < |s| ==> r[k] == if p(s[k]) then f(s[k]) else s[k]
  {
    if s == [] then [] else [if p(s[0]) then f(s[0]) else s[0]] + MapWhere(s[1..], p, f)
  }

  /** `s.map(y => key(y) === key(x) ? x : y)`: every element with the key of `x` becomes `x`. */
  function ReplaceByKey<T>(s: seq<T>, key: T -> string, x: T): (r: seq<T>)
    ensures |r| == |s|
    ensures forall k :: 0 <= k < |s| && key(s[k]) == key(x) ==> r[k] == x
    ensures forall k :: 0 <= k < |s| && key(s[k]) != key(x) ==> r[k] == s[k]
  {
    MapWhere(s, y => key(y) == key(x), _ => x)
  }

  /** Replacing by a key that no element carries changes nothing. */
  lemma {:induction false} ReplaceByKeyAbsent<T>(s: seq<T>, key: T -> string, x: T)
    requires forall k :: 0 <= k < |s| ==> key(s[k]) != key(x)
    ensures ReplaceByKey(s, key, x) == s
  {
    var r := ReplaceByKey(s, key, x);
    assert forall k :: 0 <= k < |s| ==> r[k] == s[k];
  }
}
