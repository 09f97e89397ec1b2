/**
  The stable sort the engine gets from Python's `sorted(..., key=..., reverse=True)`:
  an insertion sort by a real-valued key, largest key first, that keeps equal keys
  in their original order. An ascending stable sort is the same sort on the negated key.
*/
module Sorting {

  /** Keys never increase along `s`. */
  ghost predicate Descending<T>(s: seq<T>, key: T -> real)
  {
    forall i, j :: 0 <= i < j < |s| ==> key(s[i]) >= key(s[j])
  }

  /** The elements of `s` whose key is `k`, in their order in `s`. */
  function Filter<T>(s: seq<T>, key: T -> real, k: real): (r: seq<T>)
    ensures |r| <= |s|
  {
    if s == [] then [] else (if key(s[0]) == k then [s[0]] else []) + Filter(s[1..], key, k)
  }

  /** Places `x` in front of the first element whose key is not larger than its own. */
  function Insert<T>(x: T, s: seq<T>, key: T -> real): (r: seq<T>)
    ensures |r| == |s| + 1
    ensures multiset(r) == multiset(s) + multiset{x}
  {
    if s == [] || key(x) >= key(s[0]) then
      [x] + s
    else
      assert s == [s[0]] + s[1..];
      [s[0]] + Insert(x, s[1..], key)
  }

  /** Every key in `s` is at most `v`. */
  ghost predicate AllAtMost<T>(s: seq<T>, key: T -> real, v: real)
  {
    forall i :: 0 <= i < |s| ==> key(s[i]) <= v
  }

  lemma {:induction false} InsertAtMost<T>(x: T, s: seq<T>, key: T -> real, v: real)
    requires AllAtMost(s, key, v) && key(x) <= v
    ensures AllAtMost(Insert(x, s, key), key, v)
  {
    if s != [] && key(x) < key(s[0]) {
      InsertAtMost(x, s[1..], key, v);
      var rest := Insert(x, s[1..], key);
      assert forall i :: 1 <= i < |rest| + 1 ==> ([s[0]] + rest)[i] == rest[i - 1];
    }
  }

  lemma DescendingCons<T>(y: T, s: seq<T>, key: T -> real)
    requires Descending(s, key) && AllAtMost(s, key, key(y))
    ensures Descending([y] + s, key)
  {
    var r := [y] + s;
    forall i, j | 0 <= i < j < |r| ensures key(r[i]) >= key(r[j]) {
      assert r[j] == s[j - 1];
      if i > 0 {
        assert r[i] == s[i - 1];
      }
    }
  }

  lemma {:induction false} InsertDescending<T>(x: T, s: seq<T>, key: T -> real)
    requires Descending(s, key)
    ensures Descending(Insert(x, s, key), key)
  {
    if s == [] || key(x) >= key(s[0]) {
      DescendingCons(x, s, key);
    } else {
      InsertDescending(x, s[1..], key);
      InsertAtMost(x, s[1..], key, key(s[0]));
      DescendingCons(s[0], Insert(x, s[1..], key), key);
    }
  }

  /** The stable sort, largest key first. */
  function SortDesc<T>(s: seq<T>, key: T -> real): (r: seq<T>)
    ensures |r| == |s|
    ensures multiset(r) == multiset(s)
    ensures Descending(r, key)
  {
    if s == [] then []
    else
      assert s == [s[0]] + s[1..];
      InsertDescending(s[0], SortDesc(s[1..], key), key);
      Insert(s[0], SortDesc(s[1..], key), key)
  }

  lemma FilterCons<T>(y: T, s: seq<T>, key: T -> real, k: real)
    ensures Filter([y] + s, key, k) == (if key(y) == k then [y] else []) + Filter(s, key, k)
  {
    assert ([y] + s)[1..] == s;
  }

  lemma {:induction false} FilterInsert<T>(x: T, s: seq<T>, key: T -> real, k: real)
    ensures Filter(Insert(x, s, key), key, k) == Filter([x] + s, key, k)
  {
    if s != [] && key(x) < key(s[0]) {
      var rest := Insert(x, s[1..], key);
      var t := Filter(s[1..], key, k);
      var fx := if key(x) == k then [x] else [];
      var f0 := if key(s[0]) == k then [s[0]] else [];
      assert Filter(Insert(x, s, key), key, k) == f0 + (fx + t) by {
        assert Insert(x, s, key) == [s[0]] + rest;
        FilterInsert(x, s[1..], key, k);
        FilterCons(x, s[1..], key, k);
        FilterCons(s[0], rest, key, k);
      }
      assert Filter([x] + s, key, k) == fx + (f0 + t) by {
        assert [s[0]] + s[1..] == s;
        FilterCons(s[0], s[1..], key, k);
        FilterCons(x, s, key, k);
      }
      // s[0] and x have different keys, so at most one of them is kept
      assert f0 + (fx + t) == fx + (f0 + t) by {
        assert f0 == [] || fx == [];
      }
    } else {
      assert Insert(x, s, key) == [x] + s;
    }
  }

  /** Stability: for every key value, the elements carrying it keep their relative order. */
  lemma {:induction false} SortDescStable<T>(s: seq<T>, key: T -> real, k: real)
    ensures Filter(SortDesc(s, key), key, k) == Filter(s, key, k)
  {
    if s != [] {
      SortDescStable(s[1..], key, k);
      FilterInsert(s[0], SortDesc(s[1..], key), key, k);
      FilterCons(s[0], SortDesc(s[1..], key), key, k);
      FilterCons(s[0], s[1..], key, k);
      assert [s[0]] + s[1..] == s;
    }
  }

  /** In a descending sequence an element with a strictly larger key comes strictly earlier. */
  lemma LargerKeyComesFirst<T>(s: seq<T>, key: T -> real, i: int, j: int)
    requires Descending(s, key)
    requires 0 <= i < |s| && 0 <= j < |s|
    requires key(s[i]) > key(s[j])
    ensures i < j
  {
  }
}
