/** The road view's route autoplay: when autoplay is on and a route is given, the view starts at
    the first point and every interval tick jumps `step` points ahead, until the index runs
    past the end of the route. Timer ticks are explicit calls of `Tick`. */
module RoadView {
  import opened Wrappers

  datatype Point = Point(lat: real, lon: real)

  /** The divisor in the step computation. */
  const StepDivisor: nat := 50

  /** `Math.max(1, Math.floor(len / 50))`: one point at a time for routes shorter than 100
      points, otherwise the largest step that still leaves at least 50 jumps. */
  function Step(len: nat): (s: nat)
    ensures s >= 1
    ensures s == 1 <==> len < 2 * StepDivisor
    ensures s > 1 ==> StepDivisor * s <= len < StepDivisor * s + StepDivisor
  {
    var q := len / StepDivisor;
    if q > 1 then q else 1
  }

  /** The indices the player shows from index `i` on: `i`, `i + step`, `i + 2·step`, … as long
      as they are within a path of `len` points. The sequence lists every such index: the one
      after its last is past the end. */
  function VisitsFrom(i: nat, len: nat, step: nat): (r: seq<nat>)
    requires step >= 1
    ensures |r| > 0 <==> i < len
    ensures |r| > 0 ==> r[0] == i && r[|r| - 1] + step >= len
    ensures forall k :: 0 <= k < |r| ==> i <= r[k] < len
    decreases len - i
  {
    if i >= len then [] else [i] + VisitsFrom(i + step, len, step)
  }

  /** Every index one autoplay run shows, in order, for a path of `len` points. */
  function Visits(len: nat): (v: seq<nat>)
    ensures |v| > 0 <==> len > 0
    ensures len > 0 ==> v[0] == 0
  {
    VisitsFrom(0, len, Step(len))
  }

  /** The `k`-th index shown from `i` on is `i + k·step`. */
  lemma {:induction false} VisitsFromIndex(i: nat, len: nat, step: nat, k: nat)
    requires step >= 1 && k < |VisitsFrom(i, len, step)|
    ensures VisitsFrom(i, len, step)[k] == i + k * step
    decreases k
  {
    if k > 0 {
      VisitsFromIndex(i + step, len, step, k - 1);
      assert VisitsFrom(i, len, step)[k] == VisitsFrom(i + step, len, step)[k - 1];
      assert (k - 1) * step + step == k * step;
    }
  }

  /** The indices shown from `i` on strictly increase. */
  lemma {:induction false} VisitsFromIncreasing(i: nat, len: nat, step: nat, j: nat, k: nat)
    requires step >= 1 && j < k < |VisitsFrom(i, len, step)|
    ensures VisitsFrom(i, len, step)[j] < VisitsFrom(i, len, step)[k]
    decreases j
  {
    var v, rest := VisitsFrom(i, len, step), VisitsFrom(i + step, len, step);
    assert v == [i] + rest;
    if j > 0 {
      VisitsFromIncreasing(i + step, len, step, j - 1, k - 1);
    } else {
      assert v[k] == rest[k - 1] >= i + step;
    }
  }

  /** With step 1 every index from `i` up to the end is shown. */
  lemma {:induction false} VisitsFromUnitStep(i: nat, len: nat)
    requires i <= len
    ensures |VisitsFrom(i, len, 1)| == len - i
    decreases len - i
  {
    if i < len {
      VisitsFromUnitStep(i + 1, len);
    }
  }

  /** The shown indices start at 0, go up by exactly `step` each time (so the `k`-th is
      `k·step`), strictly increase, and all index into the path. */
  lemma VisitsShape(len: nat)
    ensures var v := Visits(len);
      && (len > 0 <==> |v| > 0)
      && (len > 0 ==> v[0] == 0)
      && (forall k :: 0 < k < |v| ==> v[k] == v[k - 1] + Step(len))
      && (forall k :: 0 <= k < |v| ==> v[k] == k * Step(len) && v[k] < len)
      && (forall j, k :: 0 <= j < k < |v| ==> v[j] < v[k])
  {
    var v, s := Visits(len), Step(len);
    forall k | 0 <= k < |v|
      ensures v[k] == k * s
    {
      VisitsFromIndex(0, len, s, k);
    }
    forall k | 0 < k < |v|
      ensures v[k] == v[k - 1] + s
    {
      assert v[k - 1] == (k - 1) * s;
      assert (k - 1) * s + s == k * s;
    }
    forall j, k | 0 <= j < k < |v|
      ensures v[j] < v[k]
    {
      VisitsFromIncreasing(0, len, s, j, k);
    }
  }

  /** A route of 99 points is played one point at a time, so the run shows all 99 of them:
      the number of points shown is not bounded by the divisor 50. */
  lemma NinetyNinePointRoute()
    ensures Step(99) == 1 && |Visits(99)| == 99
  {
    assert Step(99) == 1 by {
      assert 99 / StepDivisor == 1;
    }
    VisitsFromUnitStep(0, 99);
  }

  /** After the `n`-th shown index comes the one `step` further on, if it is inside the path;
      otherwise the `n`-th was the last. */
  lemma VisitsNext(len: nat, n: nat)
    requires 0 < n <= |Visits(len)|
    ensures n < |Visits(len)| <==> Visits(len)[n - 1] + Step(len) < len
    ensures n < |Visits(len)| ==> Visits(len)[n] == Visits(len)[n - 1] + Step(len)
  {
    VisitsShape(len);
  }

  datatype TickOutcome = Idle | Moved(index: nat) | Ended

  /** The road view's autoplay state: `timer` is the interval reference, `live` the intervals
      started and not yet cleared, `cursor` the closure's `currentIndex`, `reported` every
      position handed to the position callback, `endCalls` the calls of the end callback.
      `shown` counts the indices the current run has shown so far, and its reports start in
      `reported` at `runStart`. */
  class RoadViewPlayer {
    var path: seq<Point>
    var timer: Option<nat>
    var live: set<nat>
    var started: nat
    var cursor: nat
    var step: nat
    var currentPathIndex: nat
    var reported: seq<Point>
    var endCalls: nat
    ghost var shown: nat
    ghost var runStart: nat

    /** At most one interval runs, and it is the referenced one. While it runs, the shown index
        is the cursor, it is the last of the run's visits shown so far, and the run has
        reported exactly the points at those visits. */
    ghost predicate Valid()
      reads this
    {
      && live == (if timer.Some? then {timer.value} else {})
      && (timer.Some? ==> timer.value < started)
      && (timer.Some? ==>
            && |path| > 0 && step == Step(|path|) && cursor < |path| && currentPathIndex == cursor
            && 0 < shown <= |Visits(|path|)| && Visits(|path|)[shown - 1] == cursor
            && runStart + shown == |reported|
            && forall k :: 0 <= k < shown ==> reported[runStart + k] == path[Visits(|path|)[k]])
    }

    constructor ()
      ensures Valid()
      ensures timer.None? && live == {} && started == 0 && currentPathIndex == 0
      ensures reported == [] && endCalls == 0
    {
      path, timer, live, started := [], None, {}, 0;
      cursor, step, currentPathIndex := 0, 1, 0;
      reported, endCalls := [], 0;
      shown, runStart := 0, 0;
    }

    /** The effect's cleanup: clear the running interval. */
    method Teardown()
      requires Valid()
      modifies this`timer, this`live
      ensures Valid()
      ensures timer.None? && live == {}
    {
      if timer.Some? {
        live := live - {timer.value};
        timer := None;
      }
    }

    /** The autoplay effect: clear any running interval, then either reset the index (autoplay
        off, or no or an empty route) or start from the first point, report it, and start one
        new interval. */
    method RunEffect(autoPlay: bool, routePath: Option<seq<Point>>)
      requires Valid()
      modifies this
      ensures Valid()
      ensures currentPathIndex == 0 && endCalls == old(endCalls)
      ensures !autoPlay || routePath.None? || |routePath.value| == 0 ==>
        && timer.None? && live == {} && started == old(started) && reported == old(reported)
      ensures autoPlay && routePath.Some? && |routePath.value| > 0 ==>
        && path == routePath.value && step == Step(|path|) && cursor == 0
        && timer == Some(old(started)) && live == {old(started)} && started == old(started) + 1
        && reported == old(reported) + [path[0]] && shown == 1
    {
      Teardown();
      if !autoPlay || routePath.None? || |routePath.value| == 0 {
        currentPathIndex := 0;
        return;
      }
      path := routePath.value;
      currentPathIndex := 0;
      reported := reported + [path[0]];
      step := Step(|path|);
      cursor := 0;
      shown, runStart := 1, |reported| - 1;
      assert Visits(|path|)[0] == 0 && reported[runStart] == path[0];
      timer := Some(started);
      live := {started};
      started := started + 1;
    }

    /** One interval tick: advance the cursor by `step`; show and report that point while it is
        inside the path, otherwise stop the interval, call the end callback once and reset the
        index. A move shows the run's next visit; the run that ends has reported the points at all of
        its visits, in order. */
    method Tick() returns (outcome: TickOutcome)
      requires Valid()
      modifies this
      ensures Valid()
      ensures path == old(path) && step == old(step) && started == old(started)
      ensures old(timer).None? ==> outcome == Idle && unchanged(this)
      ensures old(timer).Some? && old(cursor) + old(step) < |path| ==>
        && outcome == Moved(old(cursor) + old(step)) && shown == old(shown) + 1
        && cursor == Visits(|path|)[old(shown)]
        && cursor == currentPathIndex == old(cursor) + old(step)
        && reported == old(reported) + [path[cursor]]
        && timer == old(timer) && live == old(live) && endCalls == old(endCalls)
      ensures old(timer).Some? && old(cursor) + old(step) >= |path| ==>
        && outcome == Ended && old(shown) == |Visits(|path|)|
        && old(runStart) + |Visits(|path|)| == |reported|
        && (forall k :: 0 <= k < |Visits(|path|)| ==> reported[old(runStart) + k] == path[Visits(|path|)[k]])
        && timer.None? && live == {} && currentPathIndex == 0
        && endCalls == old(endCalls) + 1 && reported == old(reported)
    {
      if timer.None? {
        return Idle;
      }
      var next := cursor + step;
      VisitsNext(|path|, shown);
      if next >= |path| {
        cursor, live, timer := next, {}, None;
        endCalls, currentPathIndex := endCalls + 1, 0;
        return Ended;
      }
      cursor, currentPathIndex := next, next;
      shown, reported := shown + 1, reported + [path[next]];
      outcome := Moved(next);
    }
  }
}
