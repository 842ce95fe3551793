/** Sequence operations the listings code uses through JavaScript's array methods:
    `find`-style first-match search, order-preserving `filter`, and the permutations
    a `sort` can produce. */
module Sequences {
  import opened Common

  /** Index of the first element satisfying `p`, as a `for … of` loop with `break` finds it. */
  function FindFirst<T>(xs: seq<T>, p: T -> bool): (r: Option<nat>)
    ensures r.Some? ==> r.value < |xs| && p(xs[r.value])
    ensures r.Some? ==> forall j :: 0 <= j < r.value ==> !p(xs[j])
    ensures r.None? <==> forall j :: 0 <= j < |xs| ==> !p(xs[j])
  {
    if xs == [] then None
    else if p(xs[0]) then Some(0)
    else match FindFirst(xs[1..], p)
      case None => None
      case Some(i) => Some(i + 1)
  }

  /** `a` is an order-preserving subsequence of `b`. */
  ghost predicate IsSubseq<T>(a: seq<T>, b: seq<T>)
    decreases |b|
  {
    if a == [] then true
    else if b == [] then false
    else (a[0] == b[0] && IsSubseq(a[1..], b[1..])) || IsSubseq(a, b[1..])
  }

  /** `Array.prototype.filter`: the elements satisfying `p`, in their original order. */
  function Filter<T(!new)>(xs: seq<T>, p: T -> bool): (r: seq<T>)
    ensures |r| <= |xs|
    ensures IsSubseq(r, xs)
    ensures forall i :: 0 <= i < |r| ==> p(r[i])
    ensures forall i :: 0 <= i < |xs| && p(xs[i]) ==> xs[i] in r
    ensures forall x :: x in r ==> x in xs
    ensures forall x :: multiset(r)[x] == if p(x) then multiset(xs)[x] else 0
  {
    if xs == [] then []
    else
      var rest := Filter(xs[1..], p);
      var r := if p(xs[0]) then [xs[0]] + rest else rest;
      FilterStep(xs, rest, r, p);
      r
  }

  /** One filter step keeps the properties the recursive call established for the tail. */
  lemma FilterStep<T(!new)>(xs: seq<T>, rest: seq<T>, r: seq<T>, p: T -> bool)
    requires xs != [] && r == if p(xs[0]) then [xs[0]] + rest else rest
    requires |rest| <= |xs[1..]| && IsSubseq(rest, xs[1..])
    requires forall i :: 0 <= i < |rest| ==> p(rest[i])
    requires forall i :: 0 <= i < |xs[1..]| && p(xs[1..][i]) ==> xs[1..][i] in rest
    requires forall x :: x in rest ==> x in xs[1..]
    requires forall x :: multiset(rest)[x] == if p(x) then multiset(xs[1..])[x] else 0
    ensures |r| <= |xs| && IsSubseq(r, xs)
    ensures forall i :: 0 <= i < |r| ==> p(r[i])
    ensures forall i :: 0 <= i < |xs| && p(xs[i]) ==> xs[i] in r
    ensures forall x :: x in r ==> x in xs
    ensures forall x :: multiset(r)[x] == if p(x) then multiset(xs)[x] else 0
  {
    FilterStepOrder(xs, rest, r, p);
    FilterStepMembers(xs, rest, r, p);
    FilterStepCounts(xs, rest, r, p);
  }

  /** The kept sequence stays an ordered part of the input. */
  lemma FilterStepOrder<T>(xs: seq<T>, rest: seq<T>, r: seq<T>, p: T -> bool)
    requires xs != [] && r == if p(xs[0]) then [xs[0]] + rest else rest
    requires |rest| <= |xs[1..]| && IsSubseq(rest, xs[1..])
    ensures |r| <= |xs| && IsSubseq(r, xs)
  {
    if p(xs[0]) {
      assert r[0] == xs[0] && r[1..] == rest;
    }
  }

  /** Kept elements pass, passing elements are kept, and nothing new appears. */
  lemma FilterStepMembers<T>(xs: seq<T>, rest: seq<T>, r: seq<T>, p: T -> bool)
    requires xs != [] && r == if p(xs[0]) then [xs[0]] + rest else rest
    requires forall i :: 0 <= i < |rest| ==> p(rest[i])
    requires forall i :: 0 <= i < |xs[1..]| && p(xs[1..][i]) ==> xs[1..][i] in rest
    requires forall x :: x in rest ==> x in xs[1..]
    ensures forall i :: 0 <= i < |r| ==> p(r[i])
    ensures forall i :: 0 <= i < |xs| && p(xs[i]) ==> xs[i] in r
    ensures forall x :: x in r ==> x in xs
  {
    forall i | 0 < i < |xs| && p(xs[i])
      ensures xs[i] in r
    {
      assert xs[i] == xs[1..][i - 1];
    }
    forall x | x in r
      ensures x in xs
    {
      if x != xs[0] {
        assert x in rest;
      }
    }
    if p(xs[0]) {
      forall i | 0 < i < |r|
        ensures p(r[i])
      {
        assert r[i] == rest[i - 1];
      }
    }
  }

  /** Each passing element is kept as often as it occurs. */
  lemma FilterStepCounts<T(!new)>(xs: seq<T>, rest: seq<T>, r: seq<T>, p: T -> bool)
    requires xs != [] && r == if p(xs[0]) then [xs[0]] + rest else rest
    requires forall x :: multiset(rest)[x] == if p(x) then multiset(xs[1..])[x] else 0
    ensures forall x :: multiset(r)[x] == if p(x) then multiset(xs)[x] else 0
  {
    assert xs == [xs[0]] + xs[1..];
    assert multiset(xs) == multiset{xs[0]} + multiset(xs[1..]);
    if p(xs[0]) {
      assert multiset(r) == multiset{xs[0]} + multiset(rest);
    }
  }

  /** Filtering a sequence whose elements all pass gives it back unchanged. */
  lemma {:induction false} FilterAllPass<T(!new)>(xs: seq<T>, p: T -> bool)
    requires forall i :: 0 <= i < |xs| ==> p(xs[i])
    ensures Filter(xs, p) == xs
  {
    if xs != [] {
      FilterAllPass(xs[1..], p);
    }
  }

  /** Filtering distributes over concatenation. */
  lemma {:induction false} FilterAppend<T(!new)>(xs: seq<T>, ys: seq<T>, p: T -> bool)
    ensures Filter(xs + ys, p) == Filter(xs, p) + Filter(ys, p)
  {
    if xs == [] {
      assert xs + ys == ys;
    } else {
      assert (xs + ys)[1..] == xs[1..] + ys;
      FilterAppend(xs[1..], ys, p);
    }
  }

  /** All elements of `xs` other than `x`, in order (`xs.filter(t => t !== x)`). */
  function RemoveAll<T(==,!new)>(xs: seq<T>, x: T): (r: seq<T>)
    ensures x !in r
    ensures IsSubseq(r, xs)
    ensures forall y :: y in r <==> y in xs && y != x
    ensures forall y :: multiset(r)[y] == if y == x then 0 else multiset(xs)[y]
  {
    if xs == [] then []
    else
      var rest := RemoveAll(xs[1..], x);
      assert xs == [xs[0]] + xs[1..];
      if xs[0] == x then rest else [xs[0]] + rest
  }

  /** Appending an absent element and removing it again gives the sequence back. */
  lemma {:induction false} RemoveAllAppendAbsent<T(!new)>(xs: seq<T>, x: T)
    requires x !in xs
    ensures RemoveAll(xs + [x], x) == xs
  {
    if xs == [] {
      assert [x][1..] == [];
    } else {
      assert (xs + [x])[1..] == xs[1..] + [x];
      RemoveAllAppendAbsent(xs[1..], x);
    }
  }

  /** Exchanging two positions. */
  function Swap<T>(xs: seq<T>, i: nat, j: nat): (r: seq<T>)
    requires i < |xs| && j < |xs|
    ensures |r| == |xs|
    ensures multiset(r) == multiset(xs)
  {
    xs[i := xs[j]][j := xs[i]]
  }

  /** Every swap of the list names two positions of a list of length `n`. */
  predicate SwapsInRange(swaps: seq<(nat, nat)>, n: nat) {
    forall k :: 0 <= k < |swaps| ==> swaps[k].0 < n && swaps[k].1 < n
  }

  /** The list after the swaps, applied first to last: any permutation a sort produces is such a product. */
  function ApplySwaps<T>(xs: seq<T>, swaps: seq<(nat, nat)>): (r: seq<T>)
    requires SwapsInRange(swaps, |xs|)
    ensures |r| == |xs|
    ensures multiset(r) == multiset(xs)
    decreases |swaps|
  {
    if swaps == [] then xs
    else ApplySwaps(Swap(xs, swaps[0].0, swaps[0].1), swaps[1..])
  }
}
