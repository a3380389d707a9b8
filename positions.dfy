/**
 * Sub-lists read off at increasing positions: how the list comprehensions
 * and filtering loops keep the order of their input.
 */
module Positions {

  /** `r` is `xs` read at the strictly increasing positions `idx`: a sub-list in the order of `xs`. */
  predicate PicksAt(r: seq<string>, xs: seq<string>, idx: seq<nat>)
  {
    && |idx| == |r|
    && (forall k :: 0 <= k < |idx| ==> idx[k] < |xs| && xs[idx[k]] == r[k])
    && (forall k, l :: 0 <= k < l < |idx| ==> idx[k] < idx[l])
  }

  /** Every position moved one place on. */
  function Shift(idx: seq<nat>): (s: seq<nat>)
    ensures |s| == |idx| && forall k :: 0 <= k < |idx| ==> s[k] == idx[k] + 1
  {
    seq(|idx|, k requires 0 <= k < |idx| => idx[k] + 1)
  }

  lemma ShiftIn(idx: seq<nat>, j: int)
    ensures j in Shift(idx) <==> j > 0 && j - 1 in idx
  {
    var s := Shift(idx);
    if j > 0 && j - 1 in idx {
      var k :| 0 <= k < |idx| && idx[k] == j - 1;
      assert s[k] == j;
    }
  }

  /** Positions in the tail are positions in the whole list, one further on; the head can go in front. */
  lemma PicksAtTail(r: seq<string>, xs: seq<string>, idx: seq<nat>)
    requires |xs| > 0 && PicksAt(r, xs[1..], idx)
    ensures PicksAt(r, xs, Shift(idx))
    ensures PicksAt([xs[0]] + r, xs, [0] + Shift(idx))
  {
    var s := Shift(idx);
    forall k | 0 <= k < |s| ensures s[k] < |xs| && xs[s[k]] == r[k] {
      assert xs[1..][idx[k]] == xs[idx[k] + 1];
    }
    var r2, s2 := [xs[0]] + r, [0] + s;
    forall k | 0 <= k < |s2| ensures s2[k] < |xs| && xs[s2[k]] == r2[k] {
      if k > 0 { assert s2[k] == s[k - 1] && r2[k] == r[k - 1]; }
    }
  }

  /** The positions, in increasing order, whose flag is set. */
  function TruePositions(keep: seq<bool>): (idx: seq<nat>)
    ensures forall k :: 0 <= k < |idx| ==> idx[k] < |keep|
  {
    if |keep| == 0 then []
    else (if keep[0] then [0] else []) + Shift(TruePositions(keep[1..]))
  }

  /** A position is listed exactly when its flag is set. */
  lemma {:induction false} TruePositionsExact(keep: seq<bool>)
    ensures forall j :: 0 <= j < |keep| ==> (j in TruePositions(keep) <==> keep[j])
  {
    if |keep| > 0 {
      var tail := TruePositions(keep[1..]);
      TruePositionsExact(keep[1..]);
      forall j | 0 <= j < |keep| ensures (j in TruePositions(keep) <==> keep[j]) {
        ShiftIn(tail, j);
        if j > 0 { assert keep[1..][j - 1] == keep[j]; }
      }
    }
  }

  /** One element of a filter: the head is kept in front of the tail's picks exactly when its flag is set. */
  lemma PicksAtStep(r: seq<string>, rest: seq<string>, xs: seq<string>, flags: seq<bool>)
    requires |xs| > 0 && |flags| > 0
    requires PicksAt(rest, xs[1..], TruePositions(flags[1..]))
    requires r == (if flags[0] then [xs[0]] else []) + rest
    ensures PicksAt(r, xs, TruePositions(flags))
  {
    var tail := TruePositions(flags[1..]);
    PicksAtTail(rest, xs, tail);
    if flags[0] {
      assert TruePositions(flags) == [0] + Shift(tail);
    } else {
      assert TruePositions(flags) == Shift(tail) && r == rest;
    }
  }
}
