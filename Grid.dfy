/**
 * The interval grid: the list of fixed-length time slices that the walk fills in.
 * Each slice counts the note onsets stored at it and lists the pitches sounding in it.
 */
module Grid {
  import opened Base

  datatype Pitch = Pitch(pitchClass: int, octave: int)

  datatype Interval = Interval(attacks: nat, pitches: seq<Pitch>)

  const EmptyInterval: Interval := Interval(0, [])

  /** One step of the store loops: when index i is not yet in the grid, append ONE empty interval. */
  function Grow(s: seq<Interval>, i: int): seq<Interval>
  {
    if i + 1 > |s| then s + [EmptyInterval] else s
  }

  /** The loop of store_rest, run from index i up to (not including) end. */
  function RestFrom(s: seq<Interval>, i: int, end: int): seq<Interval>
    decreases end - i
  {
    if i >= end then s else RestFrom(Grow(s, i), i + 1, end)
  }

  /**
   * The loop of store_pitch, run from index i up to end: grow by one when needed,
   * then append p to the pitches at index i.
   */
  function PitchFrom(s: seq<Interval>, p: Pitch, i: int, end: int): (r: seq<Interval>)
    requires 0 <= i <= |s|
    ensures |r| == Max(|s|, end)
    decreases end - i
  {
    if i >= end then s
    else
      var g := Grow(s, i);
      PitchFrom(g[i := g[i].(pitches := g[i].pitches + [p])], p, i + 1, end)
  }

  /** The whole of store_pitch: the loop, then one more attack at index start. */
  function PitchStored(s: seq<Interval>, p: Pitch, start: int, length: nat): seq<Interval>
    requires 0 <= start <= |s|
    requires length > 0 || start < |s|
  {
    var g := PitchFrom(s, p, start, start + length);
    g[start := g[start].(attacks := g[start].attacks + 1)]
  }

  /** What store_rest leaves behind, for every start (negative, inside or past the end of the grid). */
  lemma {:induction false} RestFromShape(s: seq<Interval>, i: int, end: int)
    ensures var r := RestFrom(s, i, end);
      && |r| == (if i <= |s| then Max(|s|, end) else |s| + Max(0, end - i))
      && r[..|s|] == s
      && forall k :: |s| <= k < |r| ==> r[k] == EmptyInterval
    decreases end - i
  {
    if i < end {
      RestFromShape(Grow(s, i), i + 1, end);
    }
  }

  /**
   * When start lies within the grid or at its end, store_rest grows the grid to
   * max(old length, start + length) with empty intervals and changes nothing else.
   */
  lemma StoreRestWithinGrid(s: seq<Interval>, start: int, length: nat)
    requires 0 <= start <= |s|
    ensures var r := RestFrom(s, start, start + length);
      && |r| == Max(|s|, start + length)
      && r[..|s|] == s
      && forall k :: |s| <= k < |r| ==> r[k] == EmptyInterval
  {
    RestFromShape(s, start, start + length);
  }

  /**
   * Past the end of the grid store_rest appends one interval per step, so the grid ends up
   * `length` longer rather than reaching start + length.
   */
  lemma StoreRestPastGrid(s: seq<Interval>, start: int, length: nat)
    requires start > |s|
    ensures |RestFrom(s, start, start + length)| == |s| + length
  {
    RestFromShape(s, start, start + length);
  }

  /**
   * Past the end of the grid store_rest is not idempotent: a second call on the same range
   * appends more intervals, because each call grows by one per step from the old end.
   */
  lemma StoreRestPastGridRepeats(s: seq<Interval>, start: int, length: nat)
    requires start > |s| && length > 0
    ensures |RestFrom(RestFrom(s, start, start + length), start, start + length)|
          > |RestFrom(s, start, start + length)|
  {
    var r := RestFrom(s, start, start + length);
    RestFromShape(s, start, start + length);
    RestFromShape(r, start, start + length);
  }

  /**
   * When start does not lie past the end of the grid (negative starts included), growing twice to
   * the same bound is growing once: store_rest then does not duplicate intervals.
   */
  lemma StoreRestIdempotent(s: seq<Interval>, start: int, length: nat)
    requires start <= |s|
    ensures RestFrom(RestFrom(s, start, start + length), start, start + length)
         == RestFrom(s, start, start + length)
  {
    var r := RestFrom(s, start, start + length);
    RestFromShape(s, start, start + length);
    RestFromShape(r, start, start + length);
    var rr := RestFrom(r, start, start + length);
    assert |rr| == |r|;
    assert rr[..|r|] == r;
    assert rr == rr[..|r|];
  }

  /** The loop of store_pitch appends p once to every interval in [i, end) and nothing elsewhere. */
  lemma {:induction false} PitchFromShape(s: seq<Interval>, p: Pitch, i: int, end: int)
    requires 0 <= i <= |s|
    ensures var r := PitchFrom(s, p, i, end);
      forall k :: 0 <= k < |r| ==>
        && r[k].attacks == (if k < |s| then s[k].attacks else 0)
        && r[k].pitches == (if k < |s| then s[k].pitches else []) + (if i <= k < end then [p] else [])
    decreases end - i
  {
    if i < end {
      var g := Grow(s, i);
      var g' := g[i := g[i].(pitches := g[i].pitches + [p])];
      PitchFromShape(g', p, i + 1, end);
      var r := PitchFrom(s, p, i, end);
      forall k | 0 <= k < |r|
        ensures r[k].attacks == (if k < |s| then s[k].attacks else 0)
        ensures r[k].pitches == (if k < |s| then s[k].pitches else []) + (if i <= k < end then [p] else [])
      {
        if k == i {
          assert g'[k].pitches == (if k < |s| then s[k].pitches else []) + [p];
        } else if k < |g'| {
          assert g'[k] == (if k < |s| then s[k] else EmptyInterval);
        }
      }
    }
  }

  /**
   * store_pitch grows the grid like store_rest, appends p exactly once to every interval in
   * [start, start + length), leaves every other pitch list alone, and adds one attack at start only.
   */
  lemma StorePitchShape(s: seq<Interval>, p: Pitch, start: int, length: nat)
    requires 0 <= start <= |s|
    requires length > 0 || start < |s|
    ensures var r := PitchStored(s, p, start, length);
      && |r| == Max(|s|, start + length)
      && forall k :: 0 <= k < |r| ==>
        && r[k].pitches == (if k < |s| then s[k].pitches else []) + (if start <= k < start + length then [p] else [])
        && r[k].attacks == (if k < |s| then s[k].attacks else 0) + (if k == start then 1 else 0)
  {
    PitchFromShape(s, p, start, start + length);
  }

  /** The grid the walk writes into. */
  class IntervalGrid {
    var intervals: seq<Interval>

    constructor ()
      ensures intervals == []
    {
      intervals := [];
    }

    /** store_rest: make sure the indices of a rest exist; nothing sounds there. */
    method StoreRest(start: int, length: nat)
      modifies this
      ensures intervals == RestFrom(old(intervals), start, start + length)
    {
      for i := start to start + length
        invariant RestFrom(intervals, i, start + length) == RestFrom(old(intervals), start, start + length)
      {
        if i + 1 > |intervals| {
          intervals := intervals + [EmptyInterval];
        }
      }
    }

    /** store_pitch: p sounds in [start, start + length) and its onset is at start. */
    method StorePitch(p: Pitch, start: int, length: nat)
      requires 0 <= start <= |intervals|
      requires length > 0 || start < |intervals|
      modifies this
      ensures intervals == PitchStored(old(intervals), p, start, length)
    {
      for i := start to start + length
        invariant i <= |intervals|
        invariant PitchFrom(intervals, p, i, start + length) == PitchFrom(old(intervals), p, start, start + length)
      {
        ghost var before := intervals;
        if i + 1 > |intervals| {
          intervals := intervals + [EmptyInterval];
        }
        assert intervals == Grow(before, i);
        intervals := intervals[i := intervals[i].(pitches := intervals[i].pitches + [p])];
        assert PitchFrom(before, p, i, start + length) == PitchFrom(intervals, p, i + 1, start + length);
      }
      ghost var looped := intervals;
      assert looped == PitchFrom(old(intervals), p, start, start + length);
      intervals := intervals[start := intervals[start].(attacks := intervals[start].attacks + 1)];
      assert intervals == looped[start := looped[start].(attacks := looped[start].attacks + 1)];
    }
  }
}
