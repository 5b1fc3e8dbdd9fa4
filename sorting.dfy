/**
 * `Array.prototype.sort` with a numeric comparator. The engine's sort is
 * stable (required since ECMAScript 2019), which an insertion sort models:
 * `sort((a, b) => key(b) - key(a))` is `SortDesc(s, key)`, and the ascending
 * `sort((a, b) => key(a) - key(b))` is `SortDesc(s, x => -key(x))`.
 */
module Sorting {

  /** Non-increasing by `key`. */
  ghost predicate SortedDesc<T>(s: seq<T>, key: T -> int) {
    forall i, j :: 0 <= i < j < |s| ==> key(s[i]) >= key(s[j])
  }

  /** Puts `x` in front of the first element whose key is not larger than its own. */
  function Insert<T>(x: T, r: seq<T>, key: T -> int): (o: seq<T>)
    ensures |o| == |r| + 1
    ensures multiset(o) == multiset(r) + multiset{x}
    decreases |r|
  {
    if r == [] || key(x) >= key(r[0]) then [x] + r
    else
      assert r == [r[0]] + r[1..];
      [r[0]] + Insert(x, r[1..], key)
  }

  function SortDesc<T>(s: seq<T>, key: T -> int): (o: seq<T>)
    ensures |o| == |s|
    ensures multiset(o) == multiset(s)
    decreases |s|
  {
    if s == [] then []
    else
      assert s == [s[0]] + s[1..];
      Insert(s[0], SortDesc(s[1..], key), key)
  }

  lemma {:induction false} InsertSorted<T>(x: T, r: seq<T>, key: T -> int)
    requires SortedDesc(r, key)
    ensures SortedDesc(Insert(x, r, key), key)
    ensures Insert(x, r, key)[0] == x || (r != [] && Insert(x, r, key)[0] == r[0])
    decreases |r|
  {
    if r == [] || key(x) >= key(r[0]) {
    } else {
      var tail := Insert(x, r[1..], key);
      InsertSorted(x, r[1..], key);
      var o := [r[0]] + tail;
      assert key(r[0]) >= key(tail[0]);
      forall i, j | 0 <= i < j < |o| ensures key(o[i]) >= key(o[j]) {
        assert o[j] == tail[j - 1];
        if i > 0 {
          assert o[i] == tail[i - 1];
        }
      }
    }
  }

  /** The sort yields the elements in non-increasing key order. */
  lemma {:induction false} SortDescSorted<T>(s: seq<T>, key: T -> int)
    ensures SortedDesc(SortDesc(s, key), key)
    decreases |s|
  {
    if s != [] {
      SortDescSorted(s[1..], key);
      InsertSorted(s[0], SortDesc(s[1..], key), key);
    }
  }

  /** The earliest element of highest key. */
  function Best<T>(s: seq<T>, key: T -> int): (b: T)
    requires s != []
    ensures b in s
    ensures forall k :: 0 <= k < |s| ==> key(s[k]) <= key(b)
    decreases |s|
  {
    if |s| == 1 then s[0]
    else
      var rest := Best(s[1..], key);
      if key(s[0]) >= key(rest) then s[0] else rest
  }

  /** Best picks the first position that holds the highest key. */
  lemma {:induction false} BestIsFirst<T>(s: seq<T>, key: T -> int) returns (j: nat)
    requires s != []
    ensures j < |s| && s[j] == Best(s, key)
    ensures forall k :: 0 <= k < j ==> key(s[k]) < key(s[j])
    decreases |s|
  {
    if |s| == 1 || key(s[0]) >= key(Best(s[1..], key)) {
      j := 0;
    } else {
      var i := BestIsFirst(s[1..], key);
      j := i + 1;
      forall k | 0 <= k < j ensures key(s[k]) < key(s[j]) {
        if k > 0 { assert s[k] == s[1..][k - 1]; }
      }
    }
  }

  /** Stability at the head: the first element after sorting is the earliest one of highest key. */
  lemma {:induction false} SortDescHead<T>(s: seq<T>, key: T -> int)
    requires s != []
    ensures SortDesc(s, key)[0] == Best(s, key)
    decreases |s|
  {
    if |s| > 1 {
      SortDescHead(s[1..], key);
    }
  }
}
