/**
 * The two binary searches and the x filter of `_mutatePoints`, as
 * functions.  The searches follow the source step for step: the lower one
 * runs while `yAxis[start] < minY`, the upper one while `yAxis[end] > maxY`,
 * and a read past either end of the array (`undefined` in the source) stops
 * the loop.
 */
module Search {
  import opened Levels

  /** What the lower search keeps true: left of `start` is at most `minY`, right of `end` above it. */
  ghost predicate LowerInv(y: seq<real>, minY: real, start: int, end: int)
  {
    && 0 <= start <= end + 1 && end < |y|
    && (forall k :: 0 <= k < start ==> y[k] <= minY)
    && (forall k :: end < k < |y| ==> minY < y[k])
  }

  /** What the upper search keeps true: left of `start` is at most `maxY`, right of `end` above it. */
  ghost predicate UpperInv(y: seq<real>, maxY: real, start: int, end: int)
  {
    && 0 <= start <= end + 1 && end < |y|
    && (forall k :: 0 <= k < start ==> y[k] <= maxY)
    && (forall k :: end < k < |y| ==> maxY < y[k])
  }

  /** `[start, end]` is a non-empty range of indices of `y`. */
  predicate Open(y: seq<real>, start: int, end: int)
  {
    0 <= start <= end < |y|
  }

  /**
   * The first loop of `_mutatePoints`, from `(start, end)`; its result is
   * `first`.  The loop runs while `yAxis[start] < minY`; under LowerInv that
   * test only passes on an Open range, which is the test written here.  The
   * middle index `Math.floor((start + end) / 2)` is Dafny's `/`, which agrees
   * with it on the non-negative sums that occur.
   */
  function LowerSearch(y: seq<real>, minY: real, start: int, end: int): (first: int)
    decreases end - start
  {
    if Open(y, start, end) && y[start] < minY then
      var middle := (start + end) / 2;
      if minY < y[middle] then LowerSearch(y, minY, start, middle - 1)
      else LowerSearch(y, minY, middle + 1, end)
    else start
  }

  /**
   * The second loop of `_mutatePoints`, from `(start, end)`; its result is
   * `end` before `end++`.  The loop runs while `yAxis[end] > maxY`, index -1
   * reading `undefined`; under UpperInv that test only passes on an Open
   * range.
   */
  function UpperSearch(y: seq<real>, maxY: real, start: int, end: int): (last: int)
    decreases end - start
  {
    if Open(y, start, end) && y[end] > maxY then
      var middle := (start + end) / 2;
      if maxY < y[middle] then UpperSearch(y, maxY, start, middle - 1)
      else UpperSearch(y, maxY, middle + 1, end)
    else end
  }

  /** A halving step of the lower search that moves `end` keeps its invariant and its outcome. */
  lemma LowerStepLeft(y: seq<real>, minY: real, start: int, end: int, middle: int)
    requires Sorted(y) && LowerInv(y, minY, start, end) && start < |y| && y[start] < minY
    requires middle == (start + end) / 2 && minY < y[middle]
    ensures start <= middle <= end
    ensures LowerInv(y, minY, start, middle - 1)
    ensures LowerSearch(y, minY, start, middle - 1) == LowerSearch(y, minY, start, end)
  {
    forall k | middle <= k < |y| ensures minY < y[k] {
      if k <= end {
        assert y[middle] <= y[k];
      }
    }
  }

  /** A halving step of the lower search that moves `start` keeps its invariant and its outcome. */
  lemma LowerStepRight(y: seq<real>, minY: real, start: int, end: int, middle: int)
    requires Sorted(y) && LowerInv(y, minY, start, end) && start < |y| && y[start] < minY
    requires middle == (start + end) / 2 && y[middle] <= minY
    ensures start <= middle <= end
    ensures LowerInv(y, minY, middle + 1, end)
    ensures LowerSearch(y, minY, middle + 1, end) == LowerSearch(y, minY, start, end)
  {
    forall k | 0 <= k <= middle ensures y[k] <= minY {
      if start <= k {
        assert y[k] <= y[middle];
      }
    }
  }

  /** A halving step of the upper search that moves `end` keeps its invariant and its outcome. */
  lemma UpperStepLeft(y: seq<real>, maxY: real, start: int, end: int, middle: int)
    requires Sorted(y) && UpperInv(y, maxY, start, end) && 0 <= end && y[end] > maxY
    requires middle == (start + end) / 2 && maxY < y[middle]
    ensures start <= middle <= end
    ensures UpperInv(y, maxY, start, middle - 1)
    ensures UpperSearch(y, maxY, start, middle - 1) == UpperSearch(y, maxY, start, end)
  {
    forall k | middle <= k < |y| ensures maxY < y[k] {
      if k <= end {
        assert y[middle] <= y[k];
      }
    }
  }

  /** A halving step of the upper search that moves `start` keeps its invariant and its outcome. */
  lemma UpperStepRight(y: seq<real>, maxY: real, start: int, end: int, middle: int)
    requires Sorted(y) && UpperInv(y, maxY, start, end) && 0 <= end && y[end] > maxY
    requires middle == (start + end) / 2 && y[middle] <= maxY
    ensures start <= middle <= end
    ensures UpperInv(y, maxY, middle + 1, end)
    ensures UpperSearch(y, maxY, middle + 1, end) == UpperSearch(y, maxY, start, end)
  {
    forall k | 0 <= k <= middle ensures y[k] <= maxY {
      if start <= k {
        assert y[k] <= y[middle];
      }
    }
  }

  /** One halving step of the lower search, either way, keeps its invariant and its outcome. */
  lemma LowerStep(y: seq<real>, minY: real, start: int, end: int, middle: int, start': int, end': int)
    requires Sorted(y) && LowerInv(y, minY, start, end) && start < |y| && y[start] < minY
    requires middle == (start + end) / 2 && 0 <= middle < |y|
    requires if minY < y[middle] then start' == start && end' == middle - 1 else start' == middle + 1 && end' == end
    ensures LowerInv(y, minY, start', end') && end' - start' < end - start
    ensures LowerSearch(y, minY, start', end') == LowerSearch(y, minY, start, end)
  {
    if minY < y[middle] {
      LowerStepLeft(y, minY, start, end, middle);
    } else {
      LowerStepRight(y, minY, start, end, middle);
    }
  }

  /** One halving step of the upper search, either way, keeps its invariant and its outcome. */
  lemma UpperStep(y: seq<real>, maxY: real, start: int, end: int, middle: int, start': int, end': int)
    requires Sorted(y) && UpperInv(y, maxY, start, end) && 0 <= end && y[end] > maxY
    requires middle == (start + end) / 2 && 0 <= middle < |y|
    requires if maxY < y[middle] then start' == start && end' == middle - 1 else start' == middle + 1 && end' == end
    ensures UpperInv(y, maxY, start', end') && end' - start' < end - start
    ensures UpperSearch(y, maxY, start', end') == UpperSearch(y, maxY, start, end)
  {
    if maxY < y[middle] {
      UpperStepLeft(y, maxY, start, end, middle);
    } else {
      UpperStepRight(y, maxY, start, end, middle);
    }
  }

  /** Where the lower search may stop: everything before is at most `minY`, the entry there at least `minY`. */
  ghost predicate LowerResult(y: seq<real>, minY: real, first: int)
  {
    && 0 <= first <= |y|
    && (forall k :: 0 <= k < first ==> y[k] <= minY)
    && (first < |y| ==> minY <= y[first])
  }

  /** Where the upper search may stop: everything after is above `maxY`, the entry there at most `maxY`. */
  ghost predicate UpperResult(y: seq<real>, maxY: real, last: int)
  {
    && -1 <= last < |y|
    && (forall k :: last < k < |y| ==> maxY < y[k])
    && (0 <= last ==> y[last] <= maxY)
  }

  lemma {:induction false} LowerSearchBounds(y: seq<real>, minY: real, start: int, end: int)
    requires Sorted(y) && LowerInv(y, minY, start, end)
    ensures start <= LowerSearch(y, minY, start, end)
    ensures LowerResult(y, minY, LowerSearch(y, minY, start, end))
    decreases end - start
  {
    if start < |y| && y[start] < minY {
      var middle := (start + end) / 2;
      var start', end' := if minY < y[middle] then start else middle + 1, if minY < y[middle] then middle - 1 else end;
      LowerStep(y, minY, start, end, middle, start', end');
      LowerSearchBounds(y, minY, start', end');
    } else {
      assert LowerSearch(y, minY, start, end) == start;
    }
  }

  lemma {:induction false} UpperSearchBounds(y: seq<real>, maxY: real, start: int, end: int)
    requires Sorted(y) && UpperInv(y, maxY, start, end)
    ensures start - 1 <= UpperSearch(y, maxY, start, end)
    ensures UpperResult(y, maxY, UpperSearch(y, maxY, start, end))
    decreases end - start
  {
    if 0 <= end && y[end] > maxY {
      var middle := (start + end) / 2;
      var start', end' := if maxY < y[middle] then start else middle + 1, if maxY < y[middle] then middle - 1 else end;
      UpperStep(y, maxY, start, end, middle, start', end');
      UpperSearchBounds(y, maxY, start', end');
    } else {
      assert UpperSearch(y, maxY, start, end) == end;
    }
  }

  /** The x test of `_mutatePoints`: an index past the end of `xAxis` reads `undefined` and fails it. */
  predicate InX(xAxis: seq<real>, minX: real, maxX: real, i: int)
  {
    0 <= i < |xAxis| && minX <= xAxis[i] && xAxis[i] <= maxX
  }

  /** The indices in `[from, to)` that pass the x test, in increasing order. */
  function Filter(xAxis: seq<real>, minX: real, maxX: real, from: nat, to: int): (r: seq<nat>)
    decreases if to <= from then 0 else to - from
  {
    if to <= from then []
    else Filter(xAxis, minX, maxX, from, to - 1) + (if InX(xAxis, minX, maxX, to - 1) then [to - 1] else [])
  }

  /** Exactly the indices in `[from, to)` that pass the x test. */
  lemma {:induction false} FilterMembers(xAxis: seq<real>, minX: real, maxX: real, from: nat, to: int, i: int)
    ensures i in Filter(xAxis, minX, maxX, from, to) <==> from <= i < to && InX(xAxis, minX, maxX, i)
    decreases if to <= from then 0 else to - from
  {
    if to > from {
      FilterMembers(xAxis, minX, maxX, from, to - 1, i);
    }
  }

  /** Strictly increasing: no index twice, and in order. */
  predicate Increasing(r: seq<nat>)
  {
    forall a, b :: 0 <= a < b < |r| ==> r[a] < r[b]
  }

  /** The filtered indices come in strictly increasing order, all in `[from, to)`. */
  lemma {:induction false} FilterIncreasing(xAxis: seq<real>, minX: real, maxX: real, from: nat, to: int)
    ensures Increasing(Filter(xAxis, minX, maxX, from, to))
    ensures forall a :: 0 <= a < |Filter(xAxis, minX, maxX, from, to)| ==>
      from <= Filter(xAxis, minX, maxX, from, to)[a] < to
    decreases if to <= from then 0 else to - from
  {
    if to > from {
      FilterIncreasing(xAxis, minX, maxX, from, to - 1);
      var r0 := Filter(xAxis, minX, maxX, from, to - 1);
      if InX(xAxis, minX, maxX, to - 1) {
        var r := r0 + [to - 1];
        assert Filter(xAxis, minX, maxX, from, to) == r;
        forall a, b | 0 <= a < b < |r| ensures r[a] < r[b] {
          if b < |r0| {
            assert r[a] == r0[a] && r[b] == r0[b];
          } else {
            assert r[a] == r0[a] < to - 1 == r[b];
          }
        }
      } else {
        assert Filter(xAxis, minX, maxX, from, to) == r0;
      }
    }
  }

  /**
   * The band `[first, last]` the two searches leave: before it everything is
   * at most `minY`, after it everything is above `maxY`.
   */
  lemma BandBounds(yAxis: seq<real>, minY: real, maxY: real)
    requires Sorted(yAxis) && minY <= maxY
    ensures LowerResult(yAxis, minY, LowerSearch(yAxis, minY, 0, |yAxis| - 1))
    ensures UpperInv(yAxis, maxY, LowerSearch(yAxis, minY, 0, |yAxis| - 1), |yAxis| - 1)
    ensures var first := LowerSearch(yAxis, minY, 0, |yAxis| - 1);
      var last := UpperSearch(yAxis, maxY, first, |yAxis| - 1);
      first - 1 <= last && UpperResult(yAxis, maxY, last)
  {
    LowerSearchBounds(yAxis, minY, 0, |yAxis| - 1);
    var first := LowerSearch(yAxis, minY, 0, |yAxis| - 1);
    UpperSearchBounds(yAxis, maxY, first, |yAxis| - 1);
  }

  /**
   * The indices `_mutatePoints` hands to `mutate`, in order.  An inverted
   * band (`minY > maxY`) holds nothing and gives no index; the source's upper
   * search may not terminate there (see UpperSearchStalls).
   */
  function Visited(yAxis: seq<real>, xAxis: seq<real>, minX: real, minY: real, maxX: real, maxY: real): (r: seq<nat>)
    requires Sorted(yAxis)
    ensures forall k :: 0 <= k < |r| ==> r[k] < |yAxis| && r[k] < |xAxis|
  {
    if minY > maxY then [] else
    BandBounds(yAxis, minY, maxY);
    var first := LowerSearch(yAxis, minY, 0, |yAxis| - 1);
    var last := UpperSearch(yAxis, maxY, first, |yAxis| - 1) + 1;
    FilterIncreasing(xAxis, minX, maxX, first, last);
    forall k | 0 <= k < |Filter(xAxis, minX, maxX, first, last)|
      ensures Filter(xAxis, minX, maxX, first, last)[k] < |xAxis|
    {
      FilterMembers(xAxis, minX, maxX, first, last, Filter(xAxis, minX, maxX, first, last)[k]);
    }
    Filter(xAxis, minX, maxX, first, last)
  }

  /** Soundness: every visited index lies in the band `[minY, maxY]` and in `[minX, maxX]`. */
  lemma VisitedSound(yAxis: seq<real>, xAxis: seq<real>, minX: real, minY: real, maxX: real, maxY: real, i: int)
    requires Sorted(yAxis)
    requires i in Visited(yAxis, xAxis, minX, minY, maxX, maxY)
    ensures 0 <= i < |yAxis| && minY <= yAxis[i] <= maxY
    ensures InX(xAxis, minX, maxX, i)
  {
    assert minY <= maxY;
    BandBounds(yAxis, minY, maxY);
    var first := LowerSearch(yAxis, minY, 0, |yAxis| - 1);
    var last := UpperSearch(yAxis, maxY, first, |yAxis| - 1);
    FilterMembers(xAxis, minX, maxX, first, last + 1, i);
    assert yAxis[first] <= yAxis[i] <= yAxis[last];
  }

  /**
   * Completeness: every index with `y` in `(minY, maxY]` and `x` in
   * `[minX, maxX]` is visited.  An index with `y` exactly `minY` may be
   * missed (see MinEdgeMayBeSkipped).
   */
  lemma VisitedComplete(yAxis: seq<real>, xAxis: seq<real>, minX: real, minY: real, maxX: real, maxY: real, i: int)
    requires Sorted(yAxis)
    requires 0 <= i < |yAxis| && minY < yAxis[i] <= maxY && InX(xAxis, minX, maxX, i)
    ensures i in Visited(yAxis, xAxis, minX, minY, maxX, maxY)
  {
    BandBounds(yAxis, minY, maxY);
    var first := LowerSearch(yAxis, minY, 0, |yAxis| - 1);
    var last := UpperSearch(yAxis, maxY, first, |yAxis| - 1);
    FilterMembers(xAxis, minX, maxX, first, last + 1, i);
  }

  /** Every index is visited at most once, in increasing order. */
  lemma VisitedIncreasing(yAxis: seq<real>, xAxis: seq<real>, minX: real, minY: real, maxX: real, maxY: real)
    requires Sorted(yAxis)
    ensures Increasing(Visited(yAxis, xAxis, minX, minY, maxX, maxY))
  {
    if minY <= maxY {
      BandBounds(yAxis, minY, maxY);
      var first := LowerSearch(yAxis, minY, 0, |yAxis| - 1);
      var last := UpperSearch(yAxis, maxY, first, |yAxis| - 1);
      FilterIncreasing(xAxis, minX, maxX, first, last + 1);
    }
  }

  /** The first loop of `_mutatePoints` (the `fn1` steps): the lower search from the whole array. */
  method SearchFirst(yAxis: seq<real>, minY: real) returns (first: int)
    requires Sorted(yAxis)
    ensures first == LowerSearch(yAxis, minY, 0, |yAxis| - 1)
  {
    var start := 0;
    var end := |yAxis| - 1;
    while start < |yAxis| && yAxis[start] < minY
      invariant LowerInv(yAxis, minY, start, end)
      invariant LowerSearch(yAxis, minY, start, end) == LowerSearch(yAxis, minY, 0, |yAxis| - 1)
      decreases end - start
    {
      var middle := (start + end) / 2;
      ghost var start0, end0 := start, end;
      if minY < yAxis[middle] {
        end := middle - 1;
      } else {
        start := middle + 1;
      }
      LowerStep(yAxis, minY, start0, end0, middle, start, end);
    }
    first := start;
  }

  /** The second loop of `_mutatePoints` (the `fn2` steps): the upper search from `first`. */
  method SearchLast(yAxis: seq<real>, maxY: real, first: int) returns (end: int)
    requires Sorted(yAxis) && UpperInv(yAxis, maxY, first, |yAxis| - 1)
    ensures end == UpperSearch(yAxis, maxY, first, |yAxis| - 1)
  {
    var start := first;
    end := |yAxis| - 1;
    while 0 <= end && yAxis[end] > maxY
      invariant UpperInv(yAxis, maxY, start, end)
      invariant UpperSearch(yAxis, maxY, start, end) == UpperSearch(yAxis, maxY, first, |yAxis| - 1)
      decreases end - start
    {
      var middle := (start + end) / 2;
      ghost var start0, end0 := start, end;
      if maxY < yAxis[middle] {
        end := middle - 1;
      } else {
        start := middle + 1;
      }
      UpperStep(yAxis, maxY, start0, end0, middle, start, end);
    }
  }

  /**
   * `_mutatePoints`: the lower search, the upper search continuing from
   * where the lower one stopped, then a pass over `[first, end)` keeping the
   * indices whose x lies in `[minX, maxX]`.  Instead of calling `mutate` on
   * each kept index, the method returns them in calling order.  An inverted
   * band returns at once with no index, where the source's upper search may
   * loop forever (see UpperSearchStalls).
   */
  method MutatePoints(yAxis: seq<real>, xAxis: seq<real>, minX: real, minY: real, maxX: real, maxY: real)
    returns (visited: seq<nat>)
    requires Sorted(yAxis)
    ensures visited == Visited(yAxis, xAxis, minX, minY, maxX, maxY)
  {
    if minY > maxY {
      return [];
    }
    BandBounds(yAxis, minY, maxY);
    var first := SearchFirst(yAxis, minY);
    var end := SearchLast(yAxis, maxY, first);
    end := end + 1;
    visited := [];
    var i := first;
    while i < end
      invariant first <= i <= end
      invariant visited == Filter(xAxis, minX, maxX, first, i)
    {
      if InX(xAxis, minX, maxX, i) {
        visited := visited + [i];
      }
      i := i + 1;
    }
  }

  /**
   * The lower search moves `start` past an entry equal to `minY`, so an
   * entry lying exactly on the `minY` edge can be left out: here index 1.
   */
  lemma MinEdgeMayBeSkipped()
    ensures Visited([0.1, 0.5, 0.5, 0.5], [0.5, 0.5, 0.5, 0.5], 0.0, 0.5, 1.0, 1.0) == [2, 3]
  {
    var y := [0.1, 0.5, 0.5, 0.5];
    var x := [0.5, 0.5, 0.5, 0.5];
    assert LowerSearch(y, 0.5, 2, 3) == 2;
    assert LowerSearch(y, 0.5, 0, 3) == 2;
    assert UpperSearch(y, 1.0, 2, 3) == 3;
    assert Filter(x, 0.0, 1.0, 2, 2) == [];
    assert Filter(x, 0.0, 1.0, 2, 3) == [2];
    assert Filter(x, 0.0, 1.0, 2, 4) == [2, 3];
  }

  /** The test of the upper search's loop, `yAxis[end] > maxY`; a read outside the array is `undefined` and fails it. */
  predicate UpperGuard(y: seq<real>, maxY: real, end: int)
  {
    0 <= end < |y| && y[end] > maxY
  }

  /**
   * One `fn2` step exactly as written, from any `(start, end)`: the middle is
   * `Math.floor((start + end) / 2)` (Dafny's `/` by 2 floors as well), and a
   * middle outside the array reads `undefined`, which fails `maxY < yAxis[middle]`.
   */
  function UpperStepAsWritten(y: seq<real>, maxY: real, start: int, end: int): (s: (int, int))
    ensures s.0 == start || s.1 == end
  {
    var middle := (start + end) / 2;
    if 0 <= middle < |y| && maxY < y[middle] then (start, middle - 1) else (middle + 1, end)
  }

  /**
   * With an inverted band the upper search can stall: on `y = [0.5, 0.5, 0.5]`
   * with `minY = 0.6` the lower search ends at `first = 3`; the upper search
   * with `maxY = 0.4` goes from `(3, 2)` to `(3, 1)`, where its test still
   * passes and one more step gives `(3, 1)` again, for ever.
   */
  lemma UpperSearchStalls()
    ensures LowerSearch([0.5, 0.5, 0.5], 0.6, 0, 2) == 3
    ensures UpperGuard([0.5, 0.5, 0.5], 0.4, 2) && UpperStepAsWritten([0.5, 0.5, 0.5], 0.4, 3, 2) == (3, 1)
    ensures UpperGuard([0.5, 0.5, 0.5], 0.4, 1) && UpperStepAsWritten([0.5, 0.5, 0.5], 0.4, 3, 1) == (3, 1)
  {
    var y := [0.5, 0.5, 0.5];
    assert LowerSearch(y, 0.6, 2, 2) == 3;
    assert LowerSearch(y, 0.6, 0, 2) == LowerSearch(y, 0.6, 2, 2);
  }

  /**
   * Wherever the upper search's invariant holds, the loop test as written is
   * the modelled one, and a step as written is a step of UpperSearch that
   * shrinks the range: the stall above needs a state outside the invariant.
   */
  lemma UpperGuardUnderInv(y: seq<real>, maxY: real, start: int, end: int)
    requires UpperInv(y, maxY, start, end)
    ensures UpperGuard(y, maxY, end) <==> Open(y, start, end) && y[end] > maxY
    ensures UpperGuard(y, maxY, end) ==>
      var s := UpperStepAsWritten(y, maxY, start, end);
      s.1 - s.0 < end - start && UpperSearch(y, maxY, s.0, s.1) == UpperSearch(y, maxY, start, end)
  {
  }
}
