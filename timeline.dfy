/**
 * The scheduling side of the interpreter (Assets/Scripts/Interpreter.cs),
 * as functions over the timeline's timestamps: the comparator that Start
 * sorts with, the sort itself, and the cursor that Update's drain loop
 * reaches at a given time.
 */
module Timeline {
  import opened KeyFrames

  /** The comparison Start passes to List.Sort: -1 when the first timestamp is
      smaller, 1 otherwise. It never reports two keyframes as equal. */
  function Compare(t1: real, t2: real): (r: int)
    ensures r != 0
    ensures r < 0 <==> t1 < t2
  {
    if t1 < t2 then -1 else 1
  }

  /** On distinct timestamps the comparator is antisymmetric; on equal ones it
      calls each keyframe greater than the other (and greater than itself),
      so the order of equal timestamps is left to the sorting algorithm. */
  lemma CompareOnTies(t1: real, t2: real)
    ensures t1 != t2 ==> Compare(t1, t2) == -Compare(t2, t1)
    ensures t1 == t2 ==> Compare(t1, t2) == Compare(t2, t1) == 1
  {
  }

  /** The timestamps of a keyframe list, in list order. */
  function Stamps(frames: seq<KeyFrame>): (ts: seq<real>)
    ensures |ts| == |frames|
    ensures forall k :: 0 <= k < |frames| ==> ts[k] == frames[k].timestamp
  {
    seq(|frames|, k requires 0 <= k < |frames| => frames[k].timestamp)
  }

  ghost predicate Sorted(ts: seq<real>)
  {
    forall a, b :: 0 <= a < b < |ts| ==> ts[a] <= ts[b]
  }

  /**
   * List.Sort with the comparator above: the result is a permutation of the
   * input with non-decreasing timestamps. Nothing is promised about the order
   * of equal timestamps (this insertion sort moves a keyframe past any
   * neighbour that Compare calls greater, equal ones included).
   */
  method SortFrames(frames: seq<KeyFrame>) returns (r: seq<KeyFrame>)
    ensures multiset(r) == multiset(frames)
    ensures Sorted(Stamps(r))
  {
    r := frames;
    var n := 1;
    while n < |r|
      invariant |r| == |frames| && multiset(r) == multiset(frames)
      invariant |r| == 0 || 1 <= n <= |r|
      invariant forall a, b :: 0 <= a < b < n && b < |r| ==> r[a].timestamp <= r[b].timestamp
    {
      r := Insert(r, n);
      n := n + 1;
    }
  }

  /** The list with the neighbours at j - 1 and j exchanged. */
  function Swap(r: seq<KeyFrame>, j: nat): (t: seq<KeyFrame>)
    requires 0 < j < |r|
    ensures |t| == |r| && multiset(t) == multiset(r)
    ensures t[j - 1] == r[j] && t[j] == r[j - 1]
    ensures forall k :: 0 <= k < |r| && k != j - 1 && k != j ==> t[k] == r[k]
  {
    r[j - 1 := r[j]][j := r[j - 1]]
  }

  /** One pass of the insertion sort: moves r[n] down past every neighbour
      that Compare calls greater, so that the first n + 1 elements are in
      order. */
  method Insert(s: seq<KeyFrame>, n: nat) returns (r: seq<KeyFrame>)
    requires n < |s|
    requires forall a, b :: 0 <= a < b < n ==> s[a].timestamp <= s[b].timestamp
    ensures |r| == |s| && multiset(r) == multiset(s)
    ensures forall a, b :: 0 <= a < b <= n ==> r[a].timestamp <= r[b].timestamp
  {
    r := s;
    var j := n;
    while 0 < j && Compare(r[j - 1].timestamp, r[j].timestamp) > 0
      invariant 0 <= j <= n
      invariant |r| == |s| && multiset(r) == multiset(s)
      invariant forall a, b :: 0 <= a < b <= n && a != j && b != j ==> r[a].timestamp <= r[b].timestamp
      invariant forall b :: j < b <= n ==> r[j].timestamp <= r[b].timestamp
    {
      r := Swap(r, j);
      j := j - 1;
    }
  }

  // ---------------------------------------------------------------------
  // The drain loop.

  /**
   * The cursor Update's loop stops at when it starts at `from` at time `now`:
   * the first index at or after `from` whose timestamp is not strictly below
   * `now`, or the end of the list.
   */
  function Drain(ts: seq<real>, from: nat, now: real): (j: nat)
    requires from <= |ts|
    ensures from <= j <= |ts|
    ensures forall k :: from <= k < j ==> ts[k] < now
    ensures j == |ts| || now <= ts[j]
    decreases |ts| - from
  {
    if from == |ts| || now <= ts[from] then from else Drain(ts, from + 1, now)
  }

  /** A keyframe stamped exactly `now` is not due yet. */
  lemma StampAtNowWaits(ts: seq<real>, from: nat, now: real)
    requires from < |ts| && ts[from] == now
    ensures Drain(ts, from, now) == from
  {
  }

  /** A later clock never drains fewer keyframes. */
  lemma DrainMonotone(ts: seq<real>, from: nat, t1: real, t2: real)
    requires from <= |ts| && t1 <= t2
    ensures Drain(ts, from, t1) <= Drain(ts, from, t2)
  {
  }

  /** Two ticks at t1 <= t2 reach the cursor one tick at t2 reaches: nothing
      due is skipped when the frame rate varies. */
  lemma DrainCompose(ts: seq<real>, from: nat, t1: real, t2: real)
    requires from <= |ts| && t1 <= t2
    ensures Drain(ts, Drain(ts, from, t1), t2) == Drain(ts, from, t2)
  {
  }

  /** The loop stops at the first index not strictly below `now`: that is
      where Drain lands, whatever the order of the list. */
  lemma {:induction false} DrainStops(ts: seq<real>, from: nat, j: nat, now: real)
    requires from <= j <= |ts|
    requires forall k :: from <= k < j ==> ts[k] < now
    requires j == |ts| || now <= ts[j]
    ensures Drain(ts, from, now) == j
    decreases j - from
  {
    if from < j {
      DrainStops(ts, from + 1, j, now);
    }
  }

  /** On a sorted list everything from the cursor on is still in the future. */
  lemma DrainLeavesFuture(ts: seq<real>, from: nat, now: real)
    requires Sorted(ts) && from <= |ts|
    ensures forall k :: Drain(ts, from, now) <= k < |ts| ==> now <= ts[k]
  {
  }

  /** The number of timestamps strictly below `now`. */
  function CountBelow(ts: seq<real>, now: real): nat
  {
    if ts == [] then 0 else (if ts[0] < now then 1 else 0) + CountBelow(ts[1..], now)
  }

  lemma {:induction false} NoneBelow(ts: seq<real>, now: real)
    requires forall k :: 0 <= k < |ts| ==> now <= ts[k]
    ensures CountBelow(ts, now) == 0
  {
    if ts != [] {
      NoneBelow(ts[1..], now);
    }
  }

  /** On a sorted list a tick drains exactly the keyframes stamped before
      `now` that were not yet dispatched. */
  lemma {:induction false} DrainCountsDue(ts: seq<real>, from: nat, now: real)
    requires Sorted(ts) && from <= |ts|
    ensures Drain(ts, from, now) == from + CountBelow(ts[from..], now)
    decreases |ts| - from
  {
    if from == |ts| {
    } else if now <= ts[from] {
      NoneBelow(ts[from..], now);
    } else {
      DrainCountsDue(ts, from + 1, now);
      assert ts[from..][1..] == ts[from + 1..];
    }
  }

  // ---------------------------------------------------------------------
  // A run of ticks.

  /** The indices lo, lo + 1, ..., hi - 1. */
  function Range(lo: nat, hi: nat): seq<nat>
    decreases hi - lo
  {
    if hi <= lo then [] else [lo] + Range(lo + 1, hi)
  }

  lemma {:induction false} RangeIncreasing(lo: nat, hi: nat)
    ensures |Range(lo, hi)| == if lo <= hi then hi - lo else 0
    ensures forall k :: 0 <= k < |Range(lo, hi)| ==> Range(lo, hi)[k] == lo + k
    ensures forall a, b :: 0 <= a < b < |Range(lo, hi)| ==> Range(lo, hi)[a] < Range(lo, hi)[b]
    ensures forall x :: x in Range(lo, hi) <==> lo <= x < hi
    decreases hi - lo
  {
    if lo < hi {
      RangeIncreasing(lo + 1, hi);
    }
  }

  lemma {:induction false} RangeAppend(lo: nat, mid: nat, hi: nat)
    requires lo <= mid <= hi
    ensures Range(lo, mid) + Range(mid, hi) == Range(lo, hi)
    decreases mid - lo
  {
    if lo < mid {
      RangeAppend(lo + 1, mid, hi);
    }
  }

  /** The cursor after a run of ticks at the times in `nows`. */
  function CursorAfter(ts: seq<real>, from: nat, nows: seq<real>): (j: nat)
    requires from <= |ts|
    ensures from <= j <= |ts|
    decreases |nows|
  {
    if nows == [] then from else CursorAfter(ts, Drain(ts, from, nows[0]), nows[1..])
  }

  /** The indices dispatched by a run of ticks, tick after tick. */
  function Dispatched(ts: seq<real>, from: nat, nows: seq<real>): seq<nat>
    requires from <= |ts|
    decreases |nows|
  {
    if nows == [] then []
    else
      var j := Drain(ts, from, nows[0]);
      Range(from, j) + Dispatched(ts, j, nows[1..])
  }

  /** Over any run of ticks every keyframe is dispatched at most once, in index
      order, with no gap: the run dispatches exactly the indices from the
      starting cursor up to the final one. */
  lemma {:induction false} DispatchedOnce(ts: seq<real>, from: nat, nows: seq<real>)
    requires from <= |ts|
    ensures Dispatched(ts, from, nows) == Range(from, CursorAfter(ts, from, nows))
    ensures forall a, b :: 0 <= a < b < |Dispatched(ts, from, nows)| ==>
              Dispatched(ts, from, nows)[a] < Dispatched(ts, from, nows)[b]
    decreases |nows|
  {
    if nows != [] {
      var j := Drain(ts, from, nows[0]);
      DispatchedOnce(ts, j, nows[1..]);
      RangeAppend(from, j, CursorAfter(ts, j, nows[1..]));
    }
    RangeIncreasing(from, CursorAfter(ts, from, nows));
  }

  ghost predicate NonDecreasing(nows: seq<real>)
  {
    forall a, b :: 0 <= a < b < |nows| ==> nows[a] <= nows[b]
  }

  /** With a clock that never runs backwards, a run of ticks ends where a
      single tick at the last time would. */
  lemma {:induction false} TicksCatchUp(ts: seq<real>, from: nat, nows: seq<real>)
    requires from <= |ts| && |nows| > 0 && NonDecreasing(nows)
    ensures CursorAfter(ts, from, nows) == Drain(ts, from, nows[|nows| - 1])
    decreases |nows|
  {
    if |nows| > 1 {
      var j := Drain(ts, from, nows[0]);
      TicksCatchUp(ts, j, nows[1..]);
      DrainCompose(ts, from, nows[0], nows[|nows| - 1]);
    }
  }
}
