/**
 * Shapes of loop shared by several modules: walking a sequence in order and
 * pushing, for each element, the records it gives rise to; and looking for
 * the first element that matches.
 */
module Collections {
  import opened Wrappers

  /** `f(ts[0]) + f(ts[1]) + ...`, defined on the last element so that a left-to-right loop extends it. */
  function FlatMap<T, U>(ts: seq<T>, f: T -> seq<U>): seq<U>
    decreases |ts|
  {
    if ts == [] then [] else FlatMap(ts[..|ts| - 1], f) + f(ts[|ts| - 1])
  }

  lemma FlatMapSnoc<T, U>(ts: seq<T>, t: T, f: T -> seq<U>)
    ensures FlatMap(ts + [t], f) == FlatMap(ts, f) + f(t)
  {
    assert (ts + [t])[..|ts|] == ts;
  }

  /** Nothing is pushed exactly when no element gives rise to a record. */
  lemma {:induction false} FlatMapEmpty<T, U>(ts: seq<T>, f: T -> seq<U>)
    ensures FlatMap(ts, f) == [] <==> forall k :: 0 <= k < |ts| ==> f(ts[k]) == []
    decreases |ts|
  {
    if ts != [] {
      var init := ts[..|ts| - 1];
      FlatMapEmpty(init, f);
      assert forall k :: 0 <= k < |init| ==> init[k] == ts[k];
    }
  }

  /** Every record of every element is pushed. */
  lemma {:induction false} FlatMapMember<T, U>(ts: seq<T>, f: T -> seq<U>, k: nat, x: U)
    requires k < |ts| && x in f(ts[k])
    ensures x in FlatMap(ts, f)
    decreases |ts|
  {
    if k < |ts| - 1 {
      var init := ts[..|ts| - 1];
      assert init[k] == ts[k];
      FlatMapMember(init, f, k, x);
    }
  }

  /** Every pushed record comes from some element. */
  lemma {:induction false} FlatMapOrigin<T, U>(ts: seq<T>, f: T -> seq<U>, x: U) returns (k: nat)
    requires x in FlatMap(ts, f)
    ensures k < |ts| && x in f(ts[k])
    decreases |ts|
  {
    var init := ts[..|ts| - 1];
    if x in f(ts[|ts| - 1]) {
      k := |ts| - 1;
    } else {
      k := FlatMapOrigin(init, f, x);
      assert init[k] == ts[k];
    }
  }

  /** The index of the first element satisfying `p`, as `for … of` with an early `return` finds it. */
  function FirstIndex<T>(xs: seq<T>, p: T -> bool): (r: Option<nat>)
    ensures r.None? <==> forall i :: 0 <= i < |xs| ==> !p(xs[i])
    ensures r.Some? ==> r.value < |xs| && p(xs[r.value]) && forall j :: 0 <= j < r.value ==> !p(xs[j])
    decreases |xs|
  {
    if xs == [] then None
    else if p(xs[0]) then Some(0)
    else match FirstIndex(xs[1..], p)
      case None => None
      case Some(i) => Some(i + 1)
  }

  /** Two sequences whose elements satisfy `p` at the same positions have the same first match. */
  lemma FirstIndexAgree<T>(xs: seq<T>, ys: seq<T>, p: T -> bool)
    requires |xs| <= |ys|
    requires forall k :: 0 <= k < |ys| ==> (p(ys[k]) <==> k < |xs| && p(xs[k]))
    ensures FirstIndex(ys, p) == FirstIndex(xs, p)
  {
    var f, g := FirstIndex(xs, p), FirstIndex(ys, p);
    if f.Some? {
      assert p(ys[f.value]);
      assert g.Some? && g.value == f.value;
    }
  }

  /** `Array.prototype.filter`: the elements satisfying `p`, in their order. */
  function Filter<T>(s: seq<T>, p: T -> bool): (r: seq<T>)
    ensures |r| <= |s|
    ensures forall i :: 0 <= i < |r| ==> r[i] in s && p(r[i])
    ensures forall i :: 0 <= i < |s| && p(s[i]) ==> s[i] in r
    decreases |s|
  {
    if s == [] then [] else (if p(s[0]) then [s[0]] else []) + Filter(s[1..], p)
  }

  /** Filtering a concatenation filters each part: the kept elements keep their relative order. */
  lemma {:induction false} FilterConcat<T>(a: seq<T>, b: seq<T>, p: T -> bool)
    ensures Filter(a + b, p) == Filter(a, p) + Filter(b, p)
    decreases |a|
  {
    if a == [] {
      assert a + b == b;
    } else {
      assert (a + b)[0] == a[0];
      assert (a + b)[1..] == a[1..] + b;
      FilterConcat(a[1..], b, p);
    }
  }

  /** Filtering keeps every element that satisfies `p`, as often as it occurs. */
  lemma {:induction false} FilterMultiset<T>(s: seq<T>, p: T -> bool, x: T)
    ensures multiset(Filter(s, p))[x] == if p(x) then multiset(s)[x] else 0
    decreases |s|
  {
    if s != [] {
      FilterMultiset(s[1..], p, x);
      assert s == [s[0]] + s[1..];
    }
  }

  /** Two tests that agree on every element keep the same elements. */
  lemma {:induction false} FilterSame<T>(s: seq<T>, p: T -> bool, q: T -> bool)
    requires forall i :: 0 <= i < |s| ==> p(s[i]) == q(s[i])
    ensures Filter(s, p) == Filter(s, q)
    decreases |s|
  {
    if s != [] {
      FilterSame(s[1..], p, q);
    }
  }

  /** `if (b) xs.push(x)` on a sequence. */
  method PushIf<T>(xs: seq<T>, b: bool, x: T) returns (r: seq<T>)
    ensures r == xs + (if b then [x] else [])
  {
    r := xs;
    if b {
      r := r + [x];
    }
  }
}
