/** Option, and the generic sequence operations several folds share: flattening and filtering. */
module Wrappers {

  datatype Option<+T> = None | Some(value: T) {

    /** Returns the value held in Some, or `default` for None. */
    function GetOr(default: T): T {
      match this
      case Some(v) => v
      case None => default
    }
  }

  /** Concatenation of a sequence of sequences, in order. */
  function Flatten<T>(xss: seq<seq<T>>): seq<T>
    decreases |xss|
  {
    if |xss| == 0 then [] else Flatten(xss[..|xss| - 1]) + xss[|xss| - 1]
  }

  lemma {:induction false} FlattenAppend<T>(xss: seq<seq<T>>, yss: seq<seq<T>>)
    ensures Flatten(xss + yss) == Flatten(xss) + Flatten(yss)
    decreases |yss|
  {
    if |yss| == 0 {
      assert xss + yss == xss;
    } else {
      var last := yss[|yss| - 1];
      assert (xss + yss)[..|xss + yss| - 1] == xss + yss[..|yss| - 1];
      FlattenAppend(xss, yss[..|yss| - 1]);
    }
  }

  /** Flattening a sequence of empty sequences gives the empty sequence. */
  lemma {:induction false} FlattenEmpties<T>(xss: seq<seq<T>>)
    requires forall i :: 0 <= i < |xss| ==> xss[i] == []
    ensures Flatten(xss) == []
    decreases |xss|
  {
    if |xss| > 0 {
      FlattenEmpties(xss[..|xss| - 1]);
    }
  }

  /** Every member of a part is a member of the flattening. */
  lemma {:induction false} FlattenContains<T>(xss: seq<seq<T>>, i: nat, x: T)
    requires i < |xss| && x in xss[i]
    ensures x in Flatten(xss)
    decreases |xss|
  {
    if i < |xss| - 1 {
      FlattenContains(xss[..|xss| - 1], i, x);
    }
  }

  /** `xs.filter(p)`: the elements that satisfy `p`, in their order. */
  function Filter<T>(xs: seq<T>, p: T -> bool): (r: seq<T>)
    ensures |r| <= |xs|
    ensures forall k :: 0 <= k < |r| ==> r[k] in xs && p(r[k])
    ensures forall i :: 0 <= i < |xs| && p(xs[i]) ==> xs[i] in r
    decreases |xs|
  {
    if |xs| == 0 then []
    else
      var rest := Filter(xs[..|xs| - 1], p);
      var last := xs[|xs| - 1];
      assert xs == xs[..|xs| - 1] + [last];
      if p(last) then rest + [last] else rest
  }

  /** `r` lists the elements of `xs` at the strictly increasing indices `idx`. */
  ghost predicate PicksAt<T>(xs: seq<T>, r: seq<T>, idx: seq<nat>) {
    && |idx| == |r|
    && (forall k :: 0 <= k < |idx| ==> idx[k] < |xs| && r[k] == xs[idx[k]])
    && (forall k, l :: 0 <= k < l < |idx| ==> idx[k] < idx[l])
  }

  /**
   * `r` is `xs` filtered by `p`: exactly the positions of `xs` whose element
   * satisfies `p` are picked, each once and in their order.
   */
  ghost predicate IsFilter<T>(xs: seq<T>, r: seq<T>, p: T -> bool) {
    exists idx: seq<nat> :: PicksAt(xs, r, idx) && forall i :: 0 <= i < |xs| ==> (p(xs[i]) <==> i in idx)
  }

  /** Picking from `xs` survives appending `x`, with or without also picking `x`. */
  lemma PicksExtend<T>(xs: seq<T>, r: seq<T>, idx: seq<nat>, x: T)
    requires PicksAt(xs, r, idx)
    ensures PicksAt(xs + [x], r, idx)
    ensures PicksAt(xs + [x], r + [x], idx + [|xs|])
  {
    var ys := xs + [x];
    assert forall k :: 0 <= k < |idx| ==> ys[idx[k]] == xs[idx[k]];
  }

  /** The indices `Filter` keeps. */
  lemma {:induction false} FilterIndices<T>(xs: seq<T>, p: T -> bool) returns (idx: seq<nat>)
    ensures PicksAt(xs, Filter(xs, p), idx)
    ensures forall i :: 0 <= i < |xs| ==> (p(xs[i]) <==> i in idx)
    decreases |xs|
  {
    if |xs| == 0 {
      idx := [];
    } else {
      var n := |xs| - 1;
      var init, last := xs[..n], xs[n];
      assert xs == init + [last];
      var before := FilterIndices(init, p);
      PicksExtend(init, Filter(init, p), before, last);
      idx := if p(last) then before + [n] else before;
      forall i | 0 <= i < |xs| ensures p(xs[i]) <==> i in idx {
        if i < n {
          assert init[i] == xs[i];
          assert i in idx <==> i in before;
        }
      }
    }
  }

  /** `Filter` keeps exactly the elements `p` accepts, in order and once each. */
  lemma FilterSelects<T>(xs: seq<T>, p: T -> bool)
    ensures IsFilter(xs, Filter(xs, p), p)
  {
    var idx := FilterIndices(xs, p);
  }
}
