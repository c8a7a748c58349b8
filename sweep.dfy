/**
 * The greedy clustering sweep that builds one zoom level from the level
 * above it (`clusteringQueue`, `mutateQueue`, `addDot`, `addDots` and
 * `getStore`).
 *
 * The source keeps the open accumulators in one flat array, four slots per
 * accumulator (`yMax`, `xMin`, `xMax`, `items`), and a cursor `data[0]` that
 * is always a multiple of four.  Here the queue is a sequence of `Acc`
 * values and the cursor counts whole accumulators (`data[0] / 4`); the first
 * accumulator a candidate may join, `startMinXIndex = data[0] + 1`, is the
 * accumulator at the cursor.
 */
module Sweep {
  import opened Projection
  import opened Levels

  /** One accumulator: `[yMax, xMin, xMax, [ySum, xSum, p, p, ...]]`. */
  datatype Acc<T> = Acc(yMax: real, xMin: real, xMax: real, ySum: real, xSum: real, members: seq<Entry<T>>)

  /** `x >= queue[j] && x <= queue[j + 1]`: the candidate lies in the accumulator's x window. */
  predicate Fits<T>(a: Acc<T>, x: real)
  {
    a.xMin <= x <= a.xMax
  }

  /** The accumulator after it took `p`, seen at `(y, x)`. */
  function Absorb<T>(a: Acc<T>, y: real, x: real, p: Entry<T>): (b: Acc<T>)
    ensures b.members == a.members + [p]
    ensures (b.yMax, b.xMin, b.xMax) == (a.yMax, a.xMin, a.xMax)
  {
    a.(ySum := a.ySum + y, xSum := a.xSum + x, members := a.members + [p])
  }

  /** A new accumulator seeded at `(y, x)`: y window up to `y + 2r`, x window `[x - r, x + r]`. */
  function Seed<T>(y: real, x: real, p: Entry<T>, r: real): (a: Acc<T>)
  {
    Acc(y + 2.0 * r, x - r, x + r, y, x, [p])
  }

  /** Total leaf count held by a queue. */
  function QueueWeight<T>(q: seq<Acc<T>>): (w: int)
  {
    if q == [] then 0 else QueueWeight(q[..|q| - 1]) + SumW(q[|q| - 1].members)
  }

  predicate PositiveQueue<T>(q: seq<Acc<T>>)
  {
    forall k :: 0 <= k < |q| ==> PositiveEntries(q[k].members)
  }

  /** Every accumulator holds at least one member. */
  predicate Occupied<T>(q: seq<Acc<T>>)
  {
    forall k :: 0 <= k < |q| ==> |q[k].members| >= 1
  }

  function SumY(cs: seq<(real, real)>): (sy: real)
  {
    if cs == [] then 0.0 else SumY(cs[..|cs| - 1]) + cs[|cs| - 1].0
  }

  function SumX(cs: seq<(real, real)>): (sx: real)
  {
    if cs == [] then 0.0 else SumX(cs[..|cs| - 1]) + cs[|cs| - 1].1
  }

  lemma SumWAppend<T>(s: seq<Entry<T>>, p: Entry<T>)
    ensures SumW(s + [p]) == SumW(s) + Weight(p)
  {
    assert (s + [p])[..|s|] == s;
  }

  lemma SumsAppend(cs: seq<(real, real)>, c: (real, real))
    ensures SumY(cs + [c]) == SumY(cs) + c.0
    ensures SumX(cs + [c]) == SumX(cs) + c.1
  {
    assert (cs + [c])[..|cs|] == cs;
  }

  /** Replacing one accumulator changes the queue's weight by the difference. */
  lemma {:induction false} QueueWeightUpdate<T>(q: seq<Acc<T>>, j: nat, a: Acc<T>)
    requires j < |q|
    ensures QueueWeight(q[j := a]) == QueueWeight(q) - SumW(q[j].members) + SumW(a.members)
  {
    var n := |q| - 1;
    assert q[j := a][..n] == if j == n then q[..n] else q[..n][j := a];
    if j < n {
      QueueWeightUpdate(q[..n], j, a);
    }
  }

  lemma QueueWeightAppend<T>(q: seq<Acc<T>>, a: Acc<T>)
    ensures QueueWeight(q + [a]) == QueueWeight(q) + SumW(a.members)
  {
    assert (q + [a])[..|q|] == q;
  }

  /** Each accumulator's sums are the sums of the coordinates its members were taken at. */
  ghost predicate Tracked<T>(tuples: seq<Acc<T>>, coords: seq<seq<(real, real)>>)
  {
    && |coords| == |tuples|
    && forall k :: 0 <= k < |tuples| ==>
         && |coords[k]| == |tuples[k].members| >= 1
         && tuples[k].ySum == SumY(coords[k])
         && tuples[k].xSum == SumX(coords[k])
  }

  lemma TrackedOccupied<T>(q: seq<Acc<T>>, cs: seq<seq<(real, real)>>)
    requires Tracked(q, cs)
    ensures Occupied(q)
  {
  }

  lemma PositiveQueueAbsorb<T>(q: seq<Acc<T>>, j: nat, y: real, x: real, p: Entry<T>)
    requires PositiveQueue(q) && j < |q| && Weight(p) >= 1
    ensures PositiveQueue(q[j := Absorb(q[j], y, x, p)])
  {
  }

  lemma PositiveQueueSeed<T>(q: seq<Acc<T>>, y: real, x: real, p: Entry<T>, r: real)
    requires PositiveQueue(q) && Weight(p) >= 1
    ensures PositiveQueue(q + [Seed(y, x, p, r)])
  {
  }

  /** The first accumulator at or after `j` whose x window holds `x`; `|q|` when there is none. */
  function FirstFit<T>(q: seq<Acc<T>>, j: nat, x: real): (f: nat)
    requires j <= |q|
    ensures j <= f <= |q|
    ensures f < |q| ==> Fits(q[f], x)
    ensures forall k :: j <= k < f ==> !Fits(q[k], x)
    decreases |q| - j
  {
    if j == |q| then |q| else if Fits(q[j], x) then j else FirstFit(q, j + 1, x)
  }

  /** A scan that passed only misfits from `start` and stopped at `j` has found FirstFit. */
  lemma {:induction false} FirstFitAt<T>(q: seq<Acc<T>>, start: nat, j: nat, x: real)
    requires start <= j <= |q|
    requires forall k :: start <= k < j ==> !Fits(q[k], x)
    requires j < |q| ==> Fits(q[j], x)
    ensures FirstFit(q, start, x) == j
    decreases j - start
  {
    if start < j {
      FirstFitAt(q, start + 1, j, x);
    }
  }

  /** The queue after `clusteringQueue` offered `p`, seen at `(y, x)`, from accumulator `start` on. */
  function Offer<T>(q: seq<Acc<T>>, start: nat, y: real, x: real, p: Entry<T>, r: real): (q': seq<Acc<T>>)
    requires start <= |q|
  {
    var j := FirstFit(q, start, x);
    if j < |q| then q[j := Absorb(q[j], y, x, p)] else q + [Seed(y, x, p, r)]
  }

  /**
   * An offer either grows one accumulator, keeping the queue's length, or
   * appends one; the accumulators before `start` are never touched.
   */
  lemma OfferShape<T>(q: seq<Acc<T>>, start: nat, y: real, x: real, p: Entry<T>, r: real)
    requires start <= |q|
    ensures var q' := Offer(q, start, y, x, p, r);
      && (|q'| == |q| <==> FirstFit(q, start, x) < |q|)
      && (|q'| == |q| || |q'| == |q| + 1)
      && q'[..start] == q[..start]
      && q'[|q|..] == if FirstFit(q, start, x) < |q| then [] else [Seed(y, x, p, r)]
  {
    var q' := Offer(q, start, y, x, p, r);
    var j := FirstFit(q, start, x);
    if j < |q| {
      assert q'[..start] == q[..start];
    } else {
      assert q'[..start] == q[..start];
      assert q'[|q|..] == [Seed(y, x, p, r)];
    }
  }

  /** An offer adds exactly the weight of the offered pair. */
  lemma OfferWeight<T>(q: seq<Acc<T>>, start: nat, y: real, x: real, p: Entry<T>, r: real)
    requires start <= |q|
    ensures QueueWeight(Offer(q, start, y, x, p, r)) == QueueWeight(q) + Weight(p)
  {
    var j := FirstFit(q, start, x);
    if j < |q| {
      QueueWeightUpdate(q, j, Absorb(q[j], y, x, p));
      SumWAppend(q[j].members, p);
    } else {
      QueueWeightAppend(q, Seed(y, x, p, r));
      SumWAppend([], p);
      assert [] + [p] == [p];
    }
  }

  /** An offer of a positively weighted pair keeps every accumulator positively weighted. */
  lemma OfferPositive<T>(q: seq<Acc<T>>, start: nat, y: real, x: real, p: Entry<T>, r: real)
    requires start <= |q| && PositiveQueue(q) && Weight(p) >= 1
    ensures PositiveQueue(Offer(q, start, y, x, p, r))
  {
    var j := FirstFit(q, start, x);
    if j < |q| {
      PositiveQueueAbsorb(q, j, y, x, p);
    } else {
      PositiveQueueSeed(q, y, x, p, r);
    }
  }

  /** The running sums of every accumulator stay the sums of its members' coordinates. */
  lemma OfferTracked<T>(q: seq<Acc<T>>, cs: seq<seq<(real, real)>>, start: nat, y: real, x: real, p: Entry<T>, r: real)
    requires start <= |q| && Tracked(q, cs)
    ensures |q| == |cs|
    ensures var j := FirstFit(q, start, x);
      Tracked(Offer(q, start, y, x, p, r), if j < |q| then cs[j := cs[j] + [(y, x)]] else cs + [[(y, x)]])
  {
    var j := FirstFit(q, start, x);
    if j < |q| {
      TrackedAbsorb(q, cs, j, y, x, p);
    } else {
      TrackedSeed(q, cs, y, x, p, r);
    }
  }

  lemma TrackedAbsorb<T>(q: seq<Acc<T>>, cs: seq<seq<(real, real)>>, j: nat, y: real, x: real, p: Entry<T>)
    requires Tracked(q, cs) && j < |q|
    ensures Tracked(q[j := Absorb(q[j], y, x, p)], cs[j := cs[j] + [(y, x)]])
  {
    SumsAppend(cs[j], (y, x));
  }

  lemma TrackedSeed<T>(q: seq<Acc<T>>, cs: seq<seq<(real, real)>>, y: real, x: real, p: Entry<T>, r: real)
    requires Tracked(q, cs)
    ensures Tracked(q + [Seed(y, x, p, r)], cs + [[(y, x)]])
  {
    SumsAppend([], (y, x));
    assert [] + [(y, x)] == [(y, x)];
  }

  /** The facts `mutateQueue` needs about one offer, gathered. */
  lemma OfferStep<T>(q: seq<Acc<T>>, start: nat, y: real, d: Dot<T>, r: real)
    requires start <= |q|
    ensures var q' := Offer(q, start, y, d.x, d.p, r);
      && (|q'| == |q| <==> FirstFit(q, start, d.x) < |q|)
      && (|q'| == |q| || |q'| == |q| + 1)
      && q'[..start] == q[..start]
      && QueueWeight(q') == QueueWeight(q) + Weight(d.p)
      && (PositiveQueue(q) && Weight(d.p) >= 1 ==> PositiveQueue(q'))
  {
    OfferShape(q, start, y, d.x, d.p, r);
    OfferWeight(q, start, y, d.x, d.p, r);
    if PositiveQueue(q) && Weight(d.p) >= 1 {
      OfferPositive(q, start, y, d.x, d.p, r);
    }
  }

  lemma OfferOccupied<T>(q: seq<Acc<T>>, start: nat, y: real, x: real, p: Entry<T>, r: real)
    requires start <= |q|
    ensures Occupied(q) ==> Occupied(Offer(q, start, y, x, p, r))
  {
  }

  /**
   * The queue after the pairs `ds` of the line `y` were offered in turn, each
   * from accumulator `start` on (the loop of `mutateQueue`).
   */
  function OfferAll<T>(q: seq<Acc<T>>, start: nat, y: real, ds: seq<Dot<T>>, r: real): (q': seq<Acc<T>>)
    requires start <= |q|
    ensures |q| <= |q'| <= |q| + |ds|
    ensures Occupied(q) ==> Occupied(q')
    decreases |ds|
  {
    if ds == [] then q
    else
      var before := OfferAll(q, start, y, ds[..|ds| - 1], r);
      var d := ds[|ds| - 1];
      OfferShape(before, start, y, d.x, d.p, r);
      OfferOccupied(before, start, y, d.x, d.p, r);
      Offer(before, start, y, d.x, d.p, r)
  }

  /** Offering one more pair of the line extends the fold by one offer. */
  lemma OfferAllStep<T>(q: seq<Acc<T>>, start: nat, y: real, ds: seq<Dot<T>>, j: nat, r: real)
    requires start <= |q| && j < |ds|
    ensures OfferAll(q, start, y, ds[..j + 1], r) == Offer(OfferAll(q, start, y, ds[..j], r), start, y, ds[j].x, ds[j].p, r)
  {
    assert ds[..j + 1][..j] == ds[..j];
  }

  /**
   * The fold never touches the accumulators before `start`, adds exactly the
   * line's leaf count, and keeps every accumulator positively weighted.
   */
  lemma {:induction false} OfferAllFacts<T>(q: seq<Acc<T>>, start: nat, y: real, ds: seq<Dot<T>>, r: real)
    requires start <= |q|
    ensures var q' := OfferAll(q, start, y, ds, r);
      && q'[..start] == q[..start]
      && QueueWeight(q') == QueueWeight(q) + DotsWeight(ds)
      && (PositiveQueue(q) && PositiveDots(ds) ==> PositiveQueue(q'))
    decreases |ds|
  {
    if ds != [] {
      var init, d := ds[..|ds| - 1], ds[|ds| - 1];
      OfferAllFacts(q, start, y, init, r);
      OfferStep(OfferAll(q, start, y, init, r), start, y, d, r);
      assert PositiveDots(ds) ==> PositiveDots(init) && Weight(d.p) >= 1;
    }
  }

  /**
   * The cursor after the first loop of `mutateQueue`: the first accumulator
   * at or after `c` whose y window reaches `y`, or the end of the queue.
   */
  function Skip<T>(q: seq<Acc<T>>, c: nat, y: real): (s: nat)
    requires c <= |q|
    ensures c <= s <= |q|
    ensures forall k :: c <= k < s ==> q[k].yMax < y
    ensures s < |q| ==> y <= q[s].yMax
    decreases |q| - c
  {
    if c < |q| && y > q[c].yMax then Skip(q, c + 1, y) else c
  }

  /** The open accumulators of one sweep and the cursor past the closed ones. */
  class Sweeper<T> {
    var tuples: seq<Acc<T>>
    var cursor: nat
    /** The coordinates each accumulator's members were taken at, in order. */
    ghost var coords: seq<seq<(real, real)>>

    ghost predicate Valid()
      reads this
    {
      cursor <= |tuples| && Tracked(tuples, coords)
    }

    constructor ()
      ensures Valid() && tuples == [] && cursor == 0
    {
      tuples, cursor, coords := [], 0, [];
    }

    /**
     * `clusteringQueue`: `p`, seen at `(y, x)`, joins the first accumulator at
     * or after `start` whose x window holds `x` (FirstFit), or opens a new one.
     */
    method ClusteringQueue(start: nat, y: real, x: real, p: Entry<T>, r: real) returns (absorbed: bool)
      requires Valid() && start <= |tuples|
      modifies this
      ensures Valid() && cursor == old(cursor)
      ensures absorbed <==> FirstFit(old(tuples), start, x) < |old(tuples)|
      ensures tuples == Offer(old(tuples), start, y, x, p, r)
    {
      var j := start;
      absorbed := false;
      while j < |tuples|
        invariant start <= j <= |tuples| && !absorbed
        invariant forall k :: start <= k < j ==> !Fits(tuples[k], x)
      {
        if x >= tuples[j].xMin && x <= tuples[j].xMax {
          absorbed := true;
          break;
        }
        j := j + 1;
      }
      FirstFitAt(tuples, start, j, x);
      OfferTracked(tuples, coords, start, y, x, p, r);
      if absorbed {
        tuples := tuples[j := Absorb(tuples[j], y, x, p)];
        coords := coords[j := coords[j] + [(y, x)]];
      } else {
        tuples := tuples + [Seed(y, x, p, r)];
        coords := coords + [[(y, x)]];
      }
    }

    /**
     * `mutateQueue`: move the cursor past the accumulators whose y window
     * ends below `y`, then offer every pair of the line `y` to the queue from
     * the cursor on.  Reports whether some pair joined an accumulator.
     */
    method MutateQueue(y: real, arrX: seq<Dot<T>>, r: real) returns (clustered: bool)
      requires Valid()
      modifies this
      ensures Valid()
      ensures cursor == Skip(old(tuples), old(cursor), y)
      ensures tuples == OfferAll(old(tuples), cursor, y, arrX, r)
      ensures tuples[..cursor] == old(tuples)[..cursor]
      ensures clustered <==> |tuples| < |old(tuples)| + |arrX|
      ensures QueueWeight(tuples) == old(QueueWeight(tuples)) + DotsWeight(arrX)
      ensures old(PositiveQueue(tuples)) && PositiveDots(arrX) ==> PositiveQueue(tuples)
    {
      var i := cursor;
      while i < |tuples| && y > tuples[i].yMax
        invariant old(cursor) <= i <= |tuples|
        invariant Skip(tuples, i, y) == Skip(tuples, old(cursor), y)
      {
        i := i + 1;
      }
      cursor := i;
      clustered := OfferLine(y, arrX, r);
    }

    /** The second half of `mutateQueue`: offer every pair of the line `y` from the cursor on. */
    method OfferLine(y: real, arrX: seq<Dot<T>>, r: real) returns (clustered: bool)
      requires Valid()
      modifies this
      ensures Valid() && cursor == old(cursor)
      ensures tuples == OfferAll(old(tuples), cursor, y, arrX, r)
      ensures tuples[..cursor] == old(tuples)[..cursor]
      ensures clustered <==> |tuples| < |old(tuples)| + |arrX|
      ensures QueueWeight(tuples) == old(QueueWeight(tuples)) + DotsWeight(arrX)
      ensures old(PositiveQueue(tuples)) && PositiveDots(arrX) ==> PositiveQueue(tuples)
    {
      clustered := false;
      ghost var q0 := tuples;
      var j := 0;
      while j < |arrX|
        invariant Valid() && cursor == old(cursor)
        invariant 0 <= j <= |arrX|
        invariant tuples == OfferAll(q0, cursor, y, arrX[..j], r)
        invariant clustered <==> |tuples| < |q0| + j
      {
        ghost var q := tuples;
        OfferAllStep(q0, cursor, y, arrX, j, r);
        var absorbed := ClusteringQueue(cursor, y, arrX[j].x, arrX[j].p, r);
        OfferShape(q, cursor, y, arrX[j].x, arrX[j].p, r);
        clustered := clustered || absorbed;
        j := j + 1;
      }
      assert arrX[..j] == arrX;
      OfferAllFacts(q0, cursor, y, arrX, r);
    }
  }

  /** The line `y` after `addDot` put `d` on it. */
  function PutDot<T>(m: map<real, seq<Dot<T>>>, y: real, d: Dot<T>): (m': map<real, seq<Dot<T>>>)
  {
    if y in m then m[y := m[y] + [d]] else m[y := [d]]
  }

  /** The key list after `addDot` at `y`: a new key is appended. */
  function PutKey<T>(keys: seq<real>, m: map<real, seq<Dot<T>>>, y: real): (keys': seq<real>)
  {
    if y in m then keys else keys + [y]
  }

  /**
   * The `(y, x, p)` that `addDots` puts into the new level for a finished
   * accumulator: a cluster at the mean of the running sums when there are
   * several members, the lone member at its own coordinates otherwise.
   */
  function Collapse<T>(a: Acc<T>, zoom: int): (c: (real, real, Entry<T>))
    requires |a.members| >= 1
  {
    var n := |a.members|;
    if n >= 2 then
      var y, x := a.ySum / n as real, a.xSum / n as real;
      (y, x, Cluster(a.members, y, x, Pair(x, y), SumW(a.members), zoom))
    else
      (a.ySum, a.xSum, a.members[0])
  }

  /** The multimap and key list after `addDots` ran over the accumulators of `q`, in queue order. */
  function Rebuild<T>(q: seq<Acc<T>>, zoom: int): (b: (map<real, seq<Dot<T>>>, seq<real>))
    requires Occupied(q)
  {
    if q == [] then (map[], [])
    else
      var b := Rebuild(q[..|q| - 1], zoom);
      var c := Collapse(q[|q| - 1], zoom);
      (PutDot(b.0, c.0, Dot(c.1, c.2)), PutKey(b.1, b.0, c.0))
  }

  /** The backward loop of `addDots` that sums the members' counts (`count || 1` each). */
  method CountLeaves<T>(data: seq<Entry<T>>) returns (count: int)
    ensures count == SumW(data)
  {
    count := 0;
    var i := |data|;
    assert data[..i] == data;
    while i > 0
      invariant 0 <= i <= |data|
      invariant count + SumW(data[..i]) == SumW(data)
    {
      assert data[..i][..i - 1] == data[..i - 1];
      i := i - 1;
      count := count + Weight(data[i]);
    }
  }

  /** `addDot` of a positively weighted pair keeps every pair positively weighted. */
  lemma PutDotPositive<T>(m: map<real, seq<Dot<T>>>, keys: seq<real>, keys': seq<real>, y: real, d: Dot<T>)
    requires PositiveLevel(Level(m, keys)) && Weight(d.p) >= 1
    ensures PositiveLevel(Level(PutDot(m, y, d), keys'))
  {
    var m' := PutDot(m, y, d);
    forall k | k in m'
      ensures PositiveDots(m'[k])
    {
      if k == y && y in m {
        assert m'[k] == m[y] + [d];
        assert PositiveDots(m[y]);
      }
    }
  }

  /** `addDot` keeps the key list duplicate-free and equal to the map's keys. */
  lemma PutDotShape<T>(m: map<real, seq<Dot<T>>>, keys: seq<real>, y: real, d: Dot<T>)
    requires Distinct(keys) && forall k :: k in m <==> k in keys
    ensures Distinct(PutKey(keys, m, y))
    ensures forall k :: k in PutDot(m, y, d) <==> k in PutKey(keys, m, y)
  {
  }

  /** A new line holding one pair adds that pair's weight. */
  lemma NewLineWeight<T>(m: map<real, seq<Dot<T>>>, keys: seq<real>, y: real, d: Dot<T>)
    requires y !in keys
    ensures KeysWeight(keys + [y], m[y := [d]]) == KeysWeight(keys, m) + Weight(d.p)
  {
    KeysWeightOtherLine(keys, m, y, [d]);
    assert [d][..0] == [];
  }

  /** The multimap and key list of the level being rebuilt. */
  class LevelBuilder<T> {
    var dots: map<real, seq<Dot<T>>>
    var keys: seq<real>

    ghost predicate Valid()
      reads this
    {
      Distinct(keys) && forall y :: y in dots <==> y in keys
    }

    constructor ()
      ensures Valid() && dots == map[] && keys == []
    {
      dots, keys := map[], [];
    }

    /** `addDot`: append `(x, p)` to the line `y`, creating the line and its key if needed. */
    method AddDot(y: real, x: real, p: Entry<T>)
      requires Valid()
      modifies this
      ensures Valid()
      ensures dots == PutDot(old(dots), y, Dot(x, p))
      ensures keys == PutKey(old(keys), old(dots), y)
      ensures KeysWeight(keys, dots) == old(KeysWeight(keys, dots)) + Weight(p)
      ensures old(PositiveLevel(Level(dots, keys))) && Weight(p) >= 1 ==> PositiveLevel(Level(dots, keys))
    {
      if old(PositiveLevel(Level(dots, keys))) && Weight(p) >= 1 {
        PutDotPositive(dots, keys, PutKey(keys, dots, y), y, Dot(x, p));
      }
      PutDotShape(dots, keys, y, Dot(x, p));
      if y in dots {
        KeysWeightGrowLine(keys, dots, y, Dot(x, p));
        dots := dots[y := dots[y] + [Dot(x, p)]];
      } else {
        NewLineWeight(dots, keys, y, Dot(x, p));
        assert (keys + [y])[..|keys|] == keys;
        dots := dots[y := [Dot(x, p)]];
        keys := keys + [y];
      }
    }

    /**
     * `addDots`: a finished accumulator with several members becomes one
     * cluster at the mean of its members' coordinates, whose count is the sum
     * of their counts; a one-member accumulator puts its member back.
     */
    method AddDots(acc: Acc<T>, ghost pts: seq<(real, real)>, zoom: int)
      requires Valid()
      requires |pts| == |acc.members| >= 1 && acc.ySum == SumY(pts) && acc.xSum == SumX(pts)
      modifies this
      ensures Valid()
      ensures var c := Collapse(acc, zoom);
        dots == PutDot(old(dots), c.0, Dot(c.1, c.2)) && keys == PutKey(old(keys), old(dots), c.0)
      ensures |acc.members| >= 2 ==>
        var n := |acc.members| as real;
        var cy, cx := SumY(pts) / n, SumX(pts) / n;
        var c := Cluster(acc.members, cy, cx, Pair(cx, cy), SumW(acc.members), zoom);
        && dots == PutDot(old(dots), cy, Dot(cx, c))
        && keys == PutKey(old(keys), old(dots), cy)
      ensures |acc.members| == 1 ==>
        && dots == PutDot(old(dots), pts[0].0, Dot(pts[0].1, acc.members[0]))
        && keys == PutKey(old(keys), old(dots), pts[0].0)
      ensures PositiveEntries(acc.members) ==>
        KeysWeight(keys, dots) == old(KeysWeight(keys, dots)) + SumW(acc.members)
      ensures PositiveEntries(acc.members) && old(PositiveLevel(Level(dots, keys))) ==>
        PositiveLevel(Level(dots, keys))
    {
      var data := acc.members;
      if |data| >= 2 {
        var l := |data|;
        var y := acc.ySum / l as real;
        var x := acc.xSum / l as real;
        var count := CountLeaves(data);
        if PositiveEntries(data) {
          SumWLowerBound(data);
        }
        AddDot(y, x, Cluster(data, y, x, Pair(x, y), count, zoom));
      } else {
        assert pts == [pts[0]] && [] + [pts[0]] == [pts[0]];
        SumsAppend([], pts[0]);
        assert SumW(data) == Weight(data[0]) by {
          assert data[..0] == [];
        }
        AddDot(acc.ySum, acc.xSum, data[0]);
      }
    }
  }

  /** The line `y` of a level; a key without a line reads as an empty line. */
  function LineOf<T>(l: Level<T>, y: real): (line: seq<Dot<T>>)
  {
    if y in l.dots then l.dots[y] else []
  }

  /** The queue and cursor after the sweep of `fn(z)` offered the first `n` lines of `prev`, in key order. */
  function SweepState<T>(prev: Level<T>, n: nat, r: real): (s: (seq<Acc<T>>, nat))
    requires n <= |prev.arrY|
    ensures s.1 <= |s.0| && Occupied(s.0)
  {
    if n == 0 then ([], 0)
    else
      var s := SweepState(prev, n - 1, r);
      var y := prev.arrY[n - 1];
      var c := Skip(s.0, s.1, y);
      (OfferAll(s.0, c, y, LineOf(prev, y), r), c)
  }

  /** The accumulators left when the sweep of `fn(z)` has offered every line of `prev`. */
  function SweepQueue<T>(prev: Level<T>, r: real): (q: seq<Acc<T>>)
    ensures Occupied(q)
  {
    SweepState(prev, |prev.arrY|, r).0
  }

  /**
   * The level `fn(z)` stores at zoom `z`: when some pair joined an
   * accumulator (fewer accumulators than pairs), the level rebuilt from the
   * accumulators with its keys sorted; otherwise the level above itself.
   */
  function NextLevel<T>(prev: Level<T>, z: int, r: real): (next: Level<T>)
  {
    var q := SweepQueue(prev, r);
    if |q| < LevelPairs(prev) then
      var b := Rebuild(q, z);
      Level(b.0, SortAscending(b.1))
    else prev
  }

  /** Sweeping one more line is one more `mutateQueue` on the state so far. */
  lemma SweepStateStep<T>(prev: Level<T>, i: nat, r: real)
    requires KeysPresent(prev) && i < |prev.arrY|
    ensures var s, y := SweepState(prev, i, r), prev.arrY[i];
      && SweepState(prev, i + 1, r).1 == Skip(s.0, s.1, y)
      && SweepState(prev, i + 1, r).0 == OfferAll(s.0, Skip(s.0, s.1, y), y, prev.dots[y], r)
      && KeysPairs(prev.arrY[..i + 1], prev.dots) == KeysPairs(prev.arrY[..i], prev.dots) + |prev.dots[y]|
  {
    assert prev.arrY[..i + 1][..i] == prev.arrY[..i];
  }

  /** Rebuilding one more accumulator is one more `addDots`. */
  lemma RebuildStep<T>(q: seq<Acc<T>>, k: nat, z: int)
    requires Occupied(q) && k < |q|
    ensures var b, c := Rebuild(q[..k], z), Collapse(q[k], z);
      Rebuild(q[..k + 1], z) == (PutDot(b.0, c.0, Dot(c.1, c.2)), PutKey(b.1, b.0, c.0))
  {
    assert q[..k + 1][..k] == q[..k];
  }

  /**
   * After `n` lines the queue holds exactly their leaf count, at most one
   * accumulator per pair, and only positively weighted members.
   */
  lemma {:induction false} SweepStateFacts<T>(prev: Level<T>, n: nat, r: real)
    requires KeysPresent(prev) && PositiveLevel(prev) && n <= |prev.arrY|
    ensures var q := SweepState(prev, n, r).0;
      && |q| <= KeysPairs(prev.arrY[..n], prev.dots)
      && QueueWeight(q) == KeysWeight(prev.arrY[..n], prev.dots)
      && PositiveQueue(q)
  {
    if n > 0 {
      SweepStateFacts(prev, n - 1, r);
      var s := SweepState(prev, n - 1, r);
      var y := prev.arrY[n - 1];
      var c := Skip(s.0, s.1, y);
      assert SweepState(prev, n, r).0 == OfferAll(s.0, c, y, LineOf(prev, y), r);
      assert LineOf(prev, y) == prev.dots[y];
      OfferAllFacts(s.0, c, y, prev.dots[y], r);
      KeysPrefixStep(prev.arrY, prev.dots, n);
    }
  }

  /** One more key of the list reads one more line, of its pair count and weight. */
  lemma KeysPrefixStep<T>(keys: seq<real>, m: map<real, seq<Dot<T>>>, n: nat)
    requires 0 < n <= |keys|
    ensures KeysPairs(keys[..n], m) == KeysPairs(keys[..n - 1], m) + (if keys[n - 1] in m then |m[keys[n - 1]]| else 0)
    ensures KeysWeight(keys[..n], m) == KeysWeight(keys[..n - 1], m) + LineWeight(keys[n - 1], m)
  {
    assert keys[..n][..n - 1] == keys[..n - 1];
  }

  /**
   * The sweep loop of `fn(z)` inside `getStore`: every line of the level
   * above, in key order, is offered to the queue.  Reports the accumulators
   * left at the end and whether some pair joined an accumulator.
   */
  method SweepLevel<T>(prev: Level<T>, r: real) returns (tuples: seq<Acc<T>>, ghost coords: seq<seq<(real, real)>>, clustered: bool)
    requires KeysPresent(prev) && PositiveLevel(prev)
    ensures tuples == SweepQueue(prev, r)
    ensures clustered <==> |tuples| < LevelPairs(prev)
    ensures Tracked(tuples, coords) && PositiveQueue(tuples)
    ensures QueueWeight(tuples) == LevelWeight(prev)
  {
    var sweeper := new Sweeper<T>();
    clustered := false;
    var i := 0;
    while i < |prev.arrY|
      invariant 0 <= i <= |prev.arrY|
      invariant sweeper.Valid()
      invariant sweeper.tuples == SweepState(prev, i, r).0 && sweeper.cursor == SweepState(prev, i, r).1
      invariant clustered <==> |sweeper.tuples| < KeysPairs(prev.arrY[..i], prev.dots)
    {
      var y := prev.arrY[i];
      SweepStateStep(prev, i, r);
      SweepStateFacts(prev, i, r);
      ghost var before := |sweeper.tuples|;
      ghost var pairs := KeysPairs(prev.arrY[..i], prev.dots);
      var absorbed := sweeper.MutateQueue(y, prev.dots[y], r);
      assert |sweeper.tuples| <= before + |prev.dots[y]|;
      assert KeysPairs(prev.arrY[..i + 1], prev.dots) == pairs + |prev.dots[y]|;
      clustered := clustered || absorbed;
      i := i + 1;
    }
    assert prev.arrY[..i] == prev.arrY;
    SweepStateFacts(prev, i, r);
    tuples, coords := sweeper.tuples, sweeper.coords;
  }

  /** The loop of `fn(z)` that runs `addDots` over every accumulator, in queue order. */
  method Regroup<T>(tuples: seq<Acc<T>>, ghost coords: seq<seq<(real, real)>>, z: int)
    returns (dots: map<real, seq<Dot<T>>>, keys: seq<real>)
    requires Tracked(tuples, coords) && PositiveQueue(tuples)
    ensures Occupied(tuples) && (dots, keys) == Rebuild(tuples, z)
    ensures Exact(Level(dots, keys)) && PositiveLevel(Level(dots, keys))
    ensures KeysWeight(keys, dots) == QueueWeight(tuples)
  {
    TrackedOccupied(tuples, coords);
    var builder := new LevelBuilder<T>();
    var k := 0;
    while k < |tuples|
      invariant 0 <= k <= |tuples|
      invariant builder.Valid()
      invariant (builder.dots, builder.keys) == Rebuild(tuples[..k], z)
      invariant KeysWeight(builder.keys, builder.dots) == QueueWeight(tuples[..k])
      invariant PositiveLevel(Level(builder.dots, builder.keys))
    {
      assert tuples[..k + 1][..k] == tuples[..k];
      RebuildStep(tuples, k, z);
      builder.AddDots(tuples[k], coords[k], z);
      k := k + 1;
    }
    assert tuples[..k] == tuples;
    dots, keys := builder.dots, builder.keys;
  }

  /**
   * The rebuild of `fn(z)`: every accumulator, in queue order, goes through
   * `addDots`; the keys are then sorted ascending.
   */
  method RebuildLevel<T>(tuples: seq<Acc<T>>, ghost coords: seq<seq<(real, real)>>, z: int) returns (next: Level<T>)
    requires Tracked(tuples, coords) && PositiveQueue(tuples)
    ensures Occupied(tuples) && next == Level(Rebuild(tuples, z).0, SortAscending(Rebuild(tuples, z).1))
    ensures Rebuilt(next) && KeysPresent(next) && PositiveLevel(next)
    ensures LevelWeight(next) == QueueWeight(tuples)
  {
    var dots, keys := Regroup(tuples, coords, z);
    var sorted := SortAscending(keys);
    SortAscendingSpec(keys);
    SortAscendingDistinct(keys);
    SortedDistinctAscending(sorted);
    KeysWeightPermutation(keys, sorted, dots);
    assert forall y :: y in sorted <==> y in keys by {
      forall y ensures y in sorted <==> y in keys {
        assert y in sorted <==> y in multiset(sorted);
        assert y in keys <==> y in multiset(keys);
      }
    }
    next := Level(dots, sorted);
  }

  /**
   * `fn(z)` inside `getStore`: sweep the level above; if some pair joined an
   * accumulator, rebuild the level from the accumulators, otherwise reuse
   * the level above.
   */
  method BuildLevel<T>(prev: Level<T>, z: int, radius: real, extent: real) returns (next: Level<T>, clustered: bool)
    requires extent > 0.0
    requires KeysPresent(prev) && PositiveLevel(prev)
    ensures next == NextLevel(prev, z, PixelsToDistance(radius, extent, z))
    ensures clustered <==> |SweepQueue(prev, PixelsToDistance(radius, extent, z))| < LevelPairs(prev)
    ensures !clustered ==> next == prev
    ensures clustered ==> Rebuilt(next)
    ensures KeysPresent(next) && PositiveLevel(next)
    ensures LevelWeight(next) == LevelWeight(prev)
  {
    var r := PixelsToDistance(radius, extent, z);
    var tuples;
    ghost var coords;
    tuples, coords, clustered := SweepLevel(prev, r);
    if clustered {
      next := RebuildLevel(tuples, coords, z);
    } else {
      next := prev;
    }
  }

  /** The level stored at `k` is the one `fn(k)` builds from the level stored above it. */
  ghost predicate Built<T>(store: map<int, Level<T>>, k: int, radius: real, extent: real)
    requires extent > 0.0
  {
    k in store && k + 1 in store && store[k] == NextLevel(store[k + 1], k, PixelsToDistance(radius, extent, k))
  }

  /** The level stored at `k` is the one above it, or a rebuilt level. */
  ghost predicate Descends<T>(store: map<int, Level<T>>, k: int)
  {
    k in store && k + 1 in store && (store[k] == store[k + 1] || Rebuilt(store[k]))
  }

  /**
   * The levels `getStore` holds once zooms above `z` are built: `top` at
   * `maxZoom + 1` and every level below it built from the one above.
   */
  ghost predicate StoreLevels<T>(store: map<int, Level<T>>, top: Level<T>, z: int, maxZoom: int, radius: real, extent: real)
    requires extent > 0.0
  {
    && maxZoom + 1 in store && store[maxZoom + 1] == top
    && (forall k :: k in store <==> k == maxZoom + 1 || z < k <= maxZoom)
    && (forall k :: z < k <= maxZoom ==> Built(store, k, radius, extent))
  }

  /** Every level `getStore` holds is the one above it or rebuilt, and keeps its lines and the weight of `top`. */
  ghost predicate StoreShape<T>(store: map<int, Level<T>>, top: Level<T>, z: int, maxZoom: int)
  {
    && (forall k :: z < k <= maxZoom ==> Descends(store, k))
    && (forall k :: k in store ==>
          && LevelWeight(store[k]) == LevelWeight(top)
          && KeysPresent(store[k]) && PositiveLevel(store[k]))
  }

  /** Storing `fn(z)` of the level above extends `StoreLevels` one zoom down. */
  lemma StoreLevelsStep<T>(above: map<int, Level<T>>, next: Level<T>, top: Level<T>, z: int, maxZoom: int, radius: real, extent: real)
    requires extent > 0.0 && z <= maxZoom
    requires StoreLevels(above, top, z, maxZoom, radius, extent)
    requires next == NextLevel(above[z + 1], z, PixelsToDistance(radius, extent, z))
    ensures StoreLevels(above[z := next], top, z - 1, maxZoom, radius, extent)
  {
    var store := above[z := next];
    forall k | z - 1 < k <= maxZoom
      ensures Built(store, k, radius, extent)
    {
      if k > z {
        assert store[k] == above[k] && store[k + 1] == above[k + 1];
        assert Built(above, k, radius, extent);
      } else {
        assert store[k] == next && store[k + 1] == above[z + 1];
      }
    }
  }

  /** Storing a level that is its predecessor or rebuilt, with the same lines and weight, keeps `StoreShape`. */
  lemma StoreShapeStep<T>(above: map<int, Level<T>>, next: Level<T>, top: Level<T>, z: int, maxZoom: int)
    requires StoreShape(above, top, z, maxZoom) && z + 1 in above
    requires next == above[z + 1] || Rebuilt(next)
    requires LevelWeight(next) == LevelWeight(top) && KeysPresent(next) && PositiveLevel(next)
    ensures StoreShape(above[z := next], top, z - 1, maxZoom)
  {
    var store := above[z := next];
    forall k | z - 1 < k <= maxZoom
      ensures Descends(store, k)
    {
      if k > z {
        assert Descends(above, k);
        assert store[k] == above[k] && store[k + 1] == above[k + 1];
      }
    }
  }

  /**
   * `getStore`: level `maxZoom + 1` is the input; each level from `maxZoom`
   * down to `minZoom` is built from the one above it by `fn(z)`.
   */
  method GetStore<T>(top: Level<T>, minZoom: int, maxZoom: int, radius: real, extent: real)
    returns (store: map<int, Level<T>>)
    requires extent > 0.0
    requires KeysPresent(top) && PositiveLevel(top)
    ensures maxZoom + 1 in store && store[maxZoom + 1] == top
    ensures forall z :: z in store <==> z == maxZoom + 1 || minZoom <= z <= maxZoom
    ensures forall z :: minZoom <= z <= maxZoom ==> Built(store, z, radius, extent)
    ensures forall z :: minZoom <= z <= maxZoom ==> Descends(store, z)
    ensures forall z :: z in store ==> KeysPresent(store[z]) && LevelWeight(store[z]) == LevelWeight(top)
  {
    store := map[maxZoom + 1 := top];
    var z := maxZoom;
    while z >= minZoom
      invariant z <= maxZoom && (minZoom <= maxZoom ==> minZoom - 1 <= z)
      invariant minZoom > maxZoom ==> z == maxZoom
      invariant StoreLevels(store, top, z, maxZoom, radius, extent)
      invariant StoreShape(store, top, z, maxZoom)
      decreases z - minZoom
    {
      var above := store;
      var next, clustered := BuildLevel(above[z + 1], z, radius, extent);
      StoreLevelsStep(above, next, top, z, maxZoom, radius, extent);
      StoreShapeStep(above, next, top, z, maxZoom);
      store := above[z := next];
      z := z - 1;
    }
  }
}
