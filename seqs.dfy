/**
 * The array operations the store is written with: `Array.from(map.values())`,
 * `filter`, `find` and a stable `sort` by a numeric key.
 */
module Seqs {
  import opened Wrappers

  /** The values of a map whose keys are exactly `lo .. hi - 1`, in ascending key order. */
  function Column<V>(m: map<int, V>, lo: int, hi: int): (r: seq<V>)
    requires forall k :: lo <= k < hi ==> k in m
    ensures |r| == if lo <= hi then hi - lo else 0
    ensures forall i :: 0 <= i < |r| ==> r[i] == m[lo + i]
    decreases hi - lo
  {
    if lo >= hi then [] else [m[lo]] + Column(m, lo + 1, hi)
  }

  /** `Array.prototype.filter`: the elements satisfying `p`, in their original order. */
  function Filter<T(!new)>(s: seq<T>, p: T -> bool): (r: seq<T>)
    ensures |r| <= |s|
    ensures forall x :: x in r <==> x in s && p(x)
    ensures multiset(r) <= multiset(s)
  {
    if s == [] then []
    else
      assert s == [s[0]] + s[1..];
      if p(s[0]) then [s[0]] + Filter(s[1..], p) else Filter(s[1..], p)
  }

  /** Filtering with `p` and with its negation splits a sequence in two. */
  lemma {:induction false} FilterPartition<T(!new)>(s: seq<T>, p: T -> bool, q: T -> bool)
    requires forall x :: q(x) == !p(x)
    ensures multiset(Filter(s, p)) + multiset(Filter(s, q)) == multiset(s)
  {
    if s != [] {
      var h, tail := s[0], s[1..];
      var a, b := Filter(tail, p), Filter(tail, q);
      FilterPartition(tail, p, q);
      assert s == [h] + tail;
      if p(h) {
        assert Filter(s, p) == [h] + a;
        assert Filter(s, q) == b by { assert !q(h); }
        calc {
          multiset([h] + a) + multiset(b);
          multiset{h} + (multiset(a) + multiset(b));
          multiset{h} + multiset(tail);
          multiset(s);
        }
      } else {
        assert Filter(s, p) == a;
        assert Filter(s, q) == [h] + b by { assert q(h); }
        calc {
          multiset(a) + multiset([h] + b);
          multiset{h} + (multiset(a) + multiset(b));
          multiset{h} + multiset(tail);
          multiset(s);
        }
      }
    }
  }

  /** Filtering with two predicates that agree everywhere gives the same sequence. */
  lemma {:induction false} FilterExtensional<T(!new)>(s: seq<T>, p: T -> bool, q: T -> bool)
    requires forall x :: p(x) == q(x)
    ensures Filter(s, p) == Filter(s, q)
  {
    if s != [] {
      FilterExtensional(s[1..], p, q);
    }
  }

  /** Filtering distributes over appending one element. */
  lemma {:induction false} FilterAppend<T(!new)>(s: seq<T>, x: T, p: T -> bool)
    ensures Filter(s + [x], p) == Filter(s, p) + (if p(x) then [x] else [])
  {
    if s == [] {
      assert [x][1..] == [];
    } else {
      assert (s + [x])[1..] == s[1..] + [x];
      FilterAppend(s[1..], x, p);
    }
  }

  /** A filter that every element passes keeps the whole sequence. */
  lemma {:induction false} FilterKeepsAll<T(!new)>(s: seq<T>, p: T -> bool)
    requires forall i :: 0 <= i < |s| ==> p(s[i])
    ensures Filter(s, p) == s
  {
    if s != [] {
      FilterKeepsAll(s[1..], p);
      assert s == [s[0]] + s[1..];
    }
  }

  /** `Array.prototype.findIndex`: the first index whose element satisfies `p`. */
  function FindIndex<T>(s: seq<T>, p: T -> bool): (r: Option<nat>)
    ensures r.Some? ==> r.value < |s| && p(s[r.value])
    ensures r.Some? ==> forall j :: 0 <= j < r.value ==> !p(s[j])
    ensures r.None? <==> forall j :: 0 <= j < |s| ==> !p(s[j])
  {
    if s == [] then None
    else if p(s[0]) then Some(0)
    else match FindIndex(s[1..], p)
      case None => None
      case Some(i) => Some(i + 1)
  }

  /** `Array.prototype.find`: the first element satisfying `p`, if any. */
  function Find<T(!new)>(s: seq<T>, p: T -> bool): (r: Option<T>)
    ensures r.Some? ==> r.value in s && p(r.value)
    ensures r.Some? ==> exists i :: 0 <= i < |s| && s[i] == r.value && forall j :: 0 <= j < i ==> !p(s[j])
    ensures r.None? <==> forall x :: x in s ==> !p(x)
  {
    match FindIndex(s, p)
    case None => None
    case Some(i) => Some(s[i])
  }

  ghost predicate SortedBy<T>(s: seq<T>, key: T -> int) {
    forall i, j :: 0 <= i < j < |s| ==> key(s[i]) <= key(s[j])
  }

  ghost predicate Distinct<T>(s: seq<T>) {
    forall i, j :: 0 <= i < j < |s| ==> s[i] != s[j]
  }

  /** A sorted sequence stays sorted under a new first element no larger than any of its keys. */
  lemma SortedCons<T>(a: T, s: seq<T>, key: T -> int)
    requires SortedBy(s, key)
    requires forall k :: 0 <= k < |s| ==> key(a) <= key(s[k])
    ensures SortedBy([a] + s, key)
  {
  }

  /** A lower bound of `x` and of every element of `s` bounds every element of a permutation of `s + [x]`. */
  lemma LowerBound<T>(a: T, x: T, s: seq<T>, r: seq<T>, key: T -> int)
    requires key(a) <= key(x)
    requires forall k :: 0 <= k < |s| ==> key(a) <= key(s[k])
    requires multiset(r) == multiset(s) + multiset{x}
    ensures forall k :: 0 <= k < |r| ==> key(a) <= key(r[k])
  {
    forall k | 0 <= k < |r| ensures key(a) <= key(r[k]) {
      assert r[k] in multiset(r);
      if r[k] != x {
        assert r[k] in multiset(s);
        var m :| 0 <= m < |s| && s[m] == r[k];
      }
    }
  }

  /** Inserts `x` before the first element whose key is not smaller. */
  function Insert<T(!new)>(x: T, s: seq<T>, key: T -> int): (r: seq<T>)
    requires SortedBy(s, key)
    ensures |r| == |s| + 1
    ensures SortedBy(r, key)
    ensures multiset(r) == multiset(s) + multiset{x}
  {
    if s == [] then [x]
    else if key(x) <= key(s[0]) then
      SortedCons(x, s, key);
      [x] + s
    else
      var tail := s[1..];
      var rest := Insert(x, tail, key);
      assert forall k :: 0 <= k < |tail| ==> key(s[0]) <= key(tail[k]) by {
        forall k | 0 <= k < |tail| ensures key(s[0]) <= key(tail[k]) {
          assert tail[k] == s[k + 1];
        }
      }
      LowerBound(s[0], x, tail, rest, key);
      SortedCons(s[0], rest, key);
      assert s == [s[0]] + tail;
      [s[0]] + rest
  }

  /** A sequence with no repeated element keeps none after inserting a new element. */
  lemma {:induction false} InsertDistinct<T(!new)>(x: T, s: seq<T>, key: T -> int)
    requires SortedBy(s, key) && Distinct(s) && x !in s
    ensures Distinct(Insert(x, s, key))
  {
    if s != [] && key(x) > key(s[0]) {
      var rest := Insert(x, s[1..], key);
      InsertDistinct(x, s[1..], key);
      DistinctNotIn(s, 0);
      assert s[0] !in multiset(s[1..]) && s[0] != x;
      assert s[0] !in multiset(rest);
      assert Insert(x, s, key) == [s[0]] + rest;
    }
  }

  /** In a sequence without repeats, an element does not occur around its own position. */
  lemma DistinctNotIn<T>(s: seq<T>, k: nat)
    requires Distinct(s) && k < |s|
    ensures s[k] !in s[..k] && s[k] !in s[k + 1..]
  {
  }

  /**
   * `Array.prototype.sort` with the comparator `(a, b) => key(a) - key(b)`:
   * an insertion sort, stable like the engine's.
   */
  function SortBy<T(!new)>(s: seq<T>, key: T -> int): (r: seq<T>)
    ensures SortedBy(r, key)
    ensures multiset(r) == multiset(s)
    ensures |r| == |s|
    ensures forall y :: y in r <==> y in s
  {
    if s == [] then []
    else
      assert s == [s[0]] + s[1..];
      var r := Insert(s[0], SortBy(s[1..], key), key);
      assert multiset(r) == multiset(s);
      assert forall y :: y in r <==> y in s by {
        forall y ensures y in r <==> y in s {
          calc {
            y in r;
            y in multiset(r);
            y in multiset(s);
            y in s;
          }
        }
      }
      r
  }

  /** Sorting a sequence without repeats yields one without repeats. */
  lemma {:induction false} SortByDistinct<T(!new)>(s: seq<T>, key: T -> int)
    requires Distinct(s)
    ensures Distinct(SortBy(s, key))
  {
    if s != [] {
      SortByDistinct(s[1..], key);
      assert s[0] !in s[1..] by { DistinctNotIn(s, 0); }
      InsertDistinct(s[0], SortBy(s[1..], key), key);
    }
  }
}
