/**
 * The order-preserving filter the pages apply to booking lists, and the
 * subsequence relation that describes its result.
 */
module Sequences {

  /**
   * `sub` can be obtained from `xs` by deleting elements, keeping the
   * relative order of the rest.
   */
  predicate IsSubsequence<T(==)>(sub: seq<T>, xs: seq<T>)
    decreases |xs|
  {
    || sub == []
    || (&& xs != []
        && (|| (sub[0] == xs[0] && IsSubsequence(sub[1..], xs[1..]))
            || IsSubsequence(sub, xs[1..])))
  }

  lemma {:induction false} SubsequenceNoLonger<T>(sub: seq<T>, xs: seq<T>)
    requires IsSubsequence(sub, xs)
    ensures |sub| <= |xs|
    decreases |xs|
  {
    if sub != [] {
      if sub[0] == xs[0] && IsSubsequence(sub[1..], xs[1..]) {
        SubsequenceNoLonger(sub[1..], xs[1..]);
      } else {
        SubsequenceNoLonger(sub, xs[1..]);
      }
    }
  }

  /** Array.prototype.filter: the elements of `xs` satisfying `p`, in order. */
  function Filter<T(==)>(xs: seq<T>, p: T -> bool): (r: seq<T>)
    ensures forall i :: 0 <= i < |r| ==> r[i] in xs && p(r[i])
    ensures forall i :: 0 <= i < |xs| && p(xs[i]) ==> xs[i] in r
    ensures forall i :: 0 <= i < |xs| ==>
      multiset(r)[xs[i]] == if p(xs[i]) then multiset(xs)[xs[i]] else 0
    ensures IsSubsequence(r, xs)
    ensures |r| <= |xs|
  {
    if xs == [] then []
    else
      var rest := Filter(xs[1..], p);
      var r := if p(xs[0]) then [xs[0]] + rest else rest;
      FilterStepOrder(xs, p, rest, r);
      FilterStepCount(xs, p, rest, r);
      r
  }

  /** One step of the filter keeps membership and order. */
  lemma FilterStepOrder<T>(xs: seq<T>, p: T -> bool, rest: seq<T>, r: seq<T>)
    requires xs != []
    requires r == if p(xs[0]) then [xs[0]] + rest else rest
    requires forall k :: 0 <= k < |rest| ==> rest[k] in xs[1..] && p(rest[k])
    requires forall k :: 0 <= k < |xs[1..]| && p(xs[1..][k]) ==> xs[1..][k] in rest
    requires IsSubsequence(rest, xs[1..])
    ensures forall i :: 0 <= i < |r| ==> r[i] in xs && p(r[i])
    ensures forall i :: 0 <= i < |xs| && p(xs[i]) ==> xs[i] in r
    ensures IsSubsequence(r, xs)
  {
    assert xs == [xs[0]] + xs[1..];
    if p(xs[0]) {
      assert r[1..] == rest;
    }
  }

  /** One step of the filter keeps the count of each kept element and drops the rest. */
  lemma FilterStepCount<T>(xs: seq<T>, p: T -> bool, rest: seq<T>, r: seq<T>)
    requires xs != []
    requires r == if p(xs[0]) then [xs[0]] + rest else rest
    requires forall k :: 0 <= k < |rest| ==> rest[k] in xs[1..]
    requires forall k :: 0 <= k < |xs[1..]| ==>
      multiset(rest)[xs[1..][k]] == if p(xs[1..][k]) then multiset(xs[1..])[xs[1..][k]] else 0
    ensures forall i :: 0 <= i < |xs| ==>
      multiset(r)[xs[i]] == if p(xs[i]) then multiset(xs)[xs[i]] else 0
  {
    var tail := xs[1..];
    assert multiset(xs) == multiset{xs[0]} + multiset(tail) by {
      assert xs == [xs[0]] + tail;
    }
    assert multiset(r) == (if p(xs[0]) then multiset{xs[0]} else multiset{}) + multiset(rest);
    forall i | 0 <= i < |xs|
      ensures multiset(r)[xs[i]] == if p(xs[i]) then multiset(xs)[xs[i]] else 0
    {
      var y := xs[i];
      if y in tail {
        var j :| 0 <= j < |tail| && tail[j] == y;
        assert multiset(rest)[y] == if p(y) then multiset(tail)[y] else 0;
      } else {
        assert y !in rest;
        assert multiset(rest)[y] == 0 && multiset(tail)[y] == 0;
        assert y == xs[0];
      }
    }
  }

  /** Filtering keeps exactly the positions whose element satisfies `p`. */
  lemma {:induction false} FilterEmptyIffNoneSatisfy<T>(xs: seq<T>, p: T -> bool)
    ensures Filter(xs, p) == [] <==> forall i :: 0 <= i < |xs| ==> !p(xs[i])
  {
    if Filter(xs, p) != [] {
      assert Filter(xs, p)[0] in xs;
    }
  }
}
