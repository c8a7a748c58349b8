/**
 * The `MarkerCluster` class: the zoom -> buffers store that `_setStore`
 * builds from the clustering output, and the read side on top of it
 * (`getPoints`, `getZoom`, `getChildren`, `_getChildrenIds`,
 * `_getOriginAxis`).
 *
 * The caller's mappers (`markerMapper`, `clusterMapper`) are modelled by the
 * arguments they are called with (`Mapped`); the latitude projection is a
 * parameter.  A read past the end of a buffer is `undefined` (None), and a
 * destructuring or property read of `undefined` is a `TypeError`.
 */
module MarkerClusters {
  import opened Projection
  import opened Levels
  import opened Search
  import opened Query

  /** One zoom level's buffers `[yAxis, xAxis, ids]`, in ascending `y` order. */
  datatype PointsData = PointsData(yAxis: seq<real>, xAxis: seq<real>, ids: seq<int>)

  /**
   * The clustering output `_setStore` receives: the level buffers (three per
   * chunk in the source's flat array, one `PointsData` per chunk here), the
   * zoom at which each chunk starts, the flat cluster buffer and the cluster
   * end indexes.
   */
  datatype Data = Data(chunks: seq<PointsData>, zoomSplitter: seq<int>, clusters: seq<int>, clusterEndIndexes: seq<int>)

  /** The constructor's options; an absent one takes its default. */
  datatype Options = Options(minZoom: Option<int>, maxZoom: Option<int>, radius: Option<real>, extent: Option<real>)

  function GetOr<X>(o: Option<X>, default: X): (x: X)
    ensures o.Some? ==> x == o.value
    ensures o.None? ==> x == default
  {
    if o.Some? then o.value else default
  }

  /** One call of the caller's mapper: `markerMapper(point, lng, lat)` or `clusterMapper(lng, lat, count, id)`. */
  datatype Mapped<T> =
    | MarkerMapped(point: Option<T>, lng: real, lat: real)
    | ClusterMapped(lng: real, lat: real, count: Option<int>, id: int)

  /** One element of `getChildren`: a loaded point or `{clusterId, count}`. */
  datatype Child<T> = PointChild(point: Option<T>) | ClusterChild(clusterId: int, count: Option<int>)

  datatype Outcome<X> = Value(value: X) | TypeError

  /** The zooms `(lo, hi]`, all mapped to `v`. */
  function ZoomRange<V>(lo: int, hi: int, v: V): (m: map<int, V>)
    ensures forall j :: j in m <==> lo < j <= hi
    ensures forall j :: j in m ==> m[j] == v
    decreases hi - lo
  {
    if hi <= lo then map[] else ZoomRange(lo + 1, hi, v)[lo + 1 := v]
  }

  /** One more zoom, set below the ones already set. */
  lemma ZoomRangeGrow<V>(a: map<int, V>, j: int, hi: int, v: V)
    requires j <= hi
    ensures (a + ZoomRange(j, hi, v))[j := v] == a + ZoomRange(j - 1, hi, v)
  {
    assert ZoomRange(j - 1, hi, v) == ZoomRange(j, hi, v)[j := v];
  }

  /** The inner loop of `_setStore` leaves `j` at `next`, or never moved it from an empty range. */
  lemma ZoomRangeEmpty<V>(j: int, next: int, hi: int, v: V)
    requires j <= next && (j == hi || next <= j)
    ensures ZoomRange(j, hi, v) == ZoomRange(next, hi, v)
  {
    if j != next {
      assert ZoomRange(j, hi, v) == map[] == ZoomRange(next, hi, v);
    }
  }

  /**
   * The store after the first `n` chunks of `_setStore`: chunk `i` is set at
   * every zoom in `(t[i + 1], t[i]]`, a later chunk overriding an earlier one.
   */
  function Assigned(chunks: seq<PointsData>, t: seq<int>, n: nat): (store: map<int, Option<PointsData>>)
    requires n < |t|
  {
    if n == 0 then map[] else Assigned(chunks, t, n - 1) + ZoomRange(t[n], t[n - 1], At(chunks, n - 1))
  }

  /** A zoom is in the store exactly when some chunk's interval holds it. */
  lemma {:induction false} AssignedDomain(chunks: seq<PointsData>, t: seq<int>, n: nat, j: int)
    requires n < |t|
    ensures j in Assigned(chunks, t, n) <==> exists i :: 0 <= i < n && t[i + 1] < j <= t[i]
  {
    if n > 0 {
      AssignedDomain(chunks, t, n - 1, j);
      if t[n] < j <= t[n - 1] {
        assert 0 <= n - 1 < n && t[n - 1 + 1] < j <= t[n - 1];
      }
    }
  }

  predicate NonIncreasing(t: seq<int>)
  {
    forall i, k :: 0 <= i < k < |t| ==> t[k] <= t[i]
  }

  /** With non-increasing split zooms the intervals are disjoint, and zoom `j` reads chunk `i`. */
  lemma {:induction false} AssignedLookup(chunks: seq<PointsData>, t: seq<int>, n: nat, i: nat, j: int)
    requires n < |t| && NonIncreasing(t)
    requires i < n && t[i + 1] < j <= t[i]
    ensures j in Assigned(chunks, t, n) && Assigned(chunks, t, n)[j] == At(chunks, i)
  {
    if i < n - 1 {
      AssignedLookup(chunks, t, n - 1, i, j);
      assert t[n - 1] <= t[i + 1] < j;
      assert j !in ZoomRange(t[n], t[n - 1], At(chunks, n - 1));
    }
  }

  /** The pixel coordinates and id of buffer index `i` as `mutate` reports them. */
  function MapIndex<T>(pd: PointsData, pts: seq<T>, clusters: seq<int>, yToLat: real -> real, i: nat): (m: Mapped<T>)
    requires i < |pd.yAxis| && i < |pd.xAxis|
    ensures LngToX(m.lng) == pd.xAxis[i] && m.lat == yToLat(pd.yAxis[i])
    ensures m.ClusterMapped? <==> i < |pd.ids| && pd.ids[i] < 0
    ensures m.ClusterMapped? ==> m.id == pd.ids[i] && m.count == At(clusters, -m.id)
    ensures m.MarkerMapped? ==> m.point == if i < |pd.ids| then At(pts, pd.ids[i]) else None
  {
    var lng := XToLng(pd.xAxis[i]);
    var lat := yToLat(pd.yAxis[i]);
    match At(pd.ids, i)
    case Some(id) =>
      if id < 0 then ClusterMapped(lng, lat, At(clusters, -id), id) else MarkerMapped(At(pts, id), lng, lat)
    case None => MarkerMapped(None, lng, lat)
  }

  /** What `getPoints` pushes for the reported indices, in order. */
  function Report<T>(pd: PointsData, pts: seq<T>, clusters: seq<int>, yToLat: real -> real, hits: seq<nat>): (r: seq<Mapped<T>>)
    requires forall k :: 0 <= k < |hits| ==> hits[k] < |pd.yAxis| && hits[k] < |pd.xAxis|
    ensures |r| == |hits|
    ensures forall k :: 0 <= k < |r| ==> r[k] == MapIndex(pd, pts, clusters, yToLat, hits[k])
  {
    seq(|hits|, k requires 0 <= k < |hits| => MapIndex(pd, pts, clusters, yToLat, hits[k]))
  }

  /** The largest `i < n` with `ends[i] < c`, or -1 when there is none. */
  function LastBelow(ends: seq<int>, c: int, n: nat): (i: int)
    requires n <= |ends|
    ensures -1 <= i < n
    ensures i >= 0 ==> ends[i] < c
    ensures forall k :: i < k < n ==> ends[k] >= c
  {
    if n == 0 then -1 else if ends[n - 1] < c then n - 1 else LastBelow(ends, c, n - 1)
  }

  /**
   * `_getChildrenIds` on cluster id `-c`: `clusters[c - 1]` children, read
   * from `clusters[c + 1]` on.  An `undefined` count makes the loop bound NaN
   * and the list empty.
   */
  function ChildrenIds(clusters: seq<int>, c: int): (ids: seq<Option<int>>)
    ensures |ids| == match At(clusters, c - 1) case Some(n) => (if n > 0 then n else 0) case None => 0
    ensures forall k :: 0 <= k < |ids| ==> ids[k] == At(clusters, c + 1 + k)
  {
    match At(clusters, c - 1)
    case Some(n) => seq(if n > 0 then n else 0, k => At(clusters, c + 1 + k))
    case None => []
  }

  /** `f1(id)` of `getChildren`: a negative id is a cluster, anything else indexes the points. */
  function ChildOf<T>(pts: seq<T>, clusters: seq<int>, id: Option<int>): (ch: Child<T>)
    ensures ch.ClusterChild? <==> id.Some? && id.value < 0
    ensures ch.ClusterChild? ==> ch.clusterId == id.value && ch.count == At(clusters, -id.value)
    ensures ch.PointChild? && id.Some? ==> ch.point == At(pts, id.value)
    ensures id.None? ==> ch == PointChild(None)
  {
    match id
    case Some(v) => if v < 0 then ClusterChild(v, At(clusters, -v)) else PointChild(At(pts, v))
    case None => PointChild(None)
  }

  /**
   * The latitude half of `getPoints`' expansion: a relative `expand` grows
   * the band by its own width times `expand`, an absolute one by
   * `expand` pixels at `zoom` (also kept as `expandX`); both edges are then
   * clamped to [0, 1].
   */
  method ExpandLat(minY0: real, maxY0: real, expand: Option<real>, extent: real, zoom: int)
    returns (minY: real, maxY: real, expandX: Option<real>)
    requires IsPixelExpansion(expand) ==> extent > 0.0
    ensures (minY, maxY) == Band(minY0, maxY0, expand, PixelExpansion(expand, extent, zoom))
    ensures expandX == PixelExpansion(expand, extent, zoom)
  {
    minY, maxY := minY0, maxY0;
    expandX := None;
    if Truthy(expand) {
      var expandY: real;
      if Abs(expand.value) < 1.0 {
        expandY := (maxY - minY) * expand.value;
      } else {
        expandX := Some(PixelsToDistance(expand.value, extent, zoom));
        expandY := expandX.value;
      }
      assert expandY == YExpansion(minY, maxY, expand.value, expandX);
      minY := Clamp(0.0, minY - expandY, 1.0);
      maxY := Clamp(0.0, maxY + expandY, 1.0);
    }
  }

  /**
   * The longitude half: expand the projected range by `expandX`, or by the
   * range's width times `expand` when `expandX` is unset or zero, and clamp
   * to [0, 1].
   */
  method ExpandLng(minX0: real, maxX0: real, expand: Option<real>, expandX0: Option<real>)
    returns (minX: real, maxX: real)
    ensures (minX, maxX) == XExpanded(minX0, maxX0, expand, expandX0)
  {
    var expandX := expandX0;
    minX, maxX := minX0, maxX0;
    if Truthy(expand) {
      if expandX.None? || expandX.value == 0.0 {
        expandX := Some(Abs(maxX - minX) * expand.value);
      }
      assert expandX.value == XExpansion(minX0, maxX0, expand.value, expandX0);
      minX := Clamp(0.0, minX - expandX.value, 1.0);
      maxX := Clamp(0.0, maxX + expandX.value, 1.0);
    }
  }

  class MarkerCluster<T> {
    /** The points of the last load; None before any load. */
    var points: Option<seq<T>>
    const minZoom: int
    const maxZoom: int
    const radius: real
    const extent: real
    const getLngLat: T -> (real, real)
    var store: map<int, Option<PointsData>>
    var clusters: Option<seq<int>>
    var zoomSplitter: Option<seq<int>>
    var clusterEndIndexes: Option<seq<int>>

    /** The buffers are set together, by a load. */
    ghost predicate Valid()
      reads this
    {
      && (clusters.Some? <==> points.Some?)
      && (zoomSplitter.Some? <==> points.Some?)
      && (clusterEndIndexes.Some? <==> points.Some?)
    }

    constructor (getLngLat: T -> (real, real), options: Options)
      ensures Valid() && this.getLngLat == getLngLat
      ensures minZoom == GetOr(options.minZoom, 0) && maxZoom == GetOr(options.maxZoom, 16)
      ensures radius == GetOr(options.radius, 60.0) && extent == GetOr(options.extent, 256.0)
      ensures points == None && store == map[]
    {
      this.getLngLat := getLngLat;
      minZoom := GetOr(options.minZoom, 0);
      maxZoom := GetOr(options.maxZoom, 16);
      radius := GetOr(options.radius, 60.0);
      extent := GetOr(options.extent, 256.0);
      points, store := None, map[];
      clusters, zoomSplitter, clusterEndIndexes := None, None, None;
    }

    /**
     * `_setStore`: zoom `j` gets chunk `i` for `t[i + 1] < j <= t[i]`, where
     * `t` is `zoomSplitter` followed by `minZoom - 1`; then every buffer of
     * the instance is replaced.
     */
    method SetStore(d: Data, pts: seq<T>, minZoom: int)
      modifies this
      ensures Valid()
      ensures store == Assigned(d.chunks, d.zoomSplitter + [minZoom - 1], |d.zoomSplitter|)
      ensures points == Some(pts) && clusters == Some(d.clusters)
      ensures zoomSplitter == Some(d.zoomSplitter) && clusterEndIndexes == Some(d.clusterEndIndexes)
    {
      var t := d.zoomSplitter + [minZoom - 1];
      var s: map<int, Option<PointsData>> := map[];
      var i := 0;
      while i < |t| - 1
        invariant 0 <= i <= |t| - 1
        invariant s == Assigned(d.chunks, t, i)
      {
        var v := At(d.chunks, i);
        var next := t[i + 1];
        var j := t[i];
        while j > next
          invariant j <= t[i] && (j == t[i] || next <= j)
          invariant s == Assigned(d.chunks, t, i) + ZoomRange(j, t[i], v)
        {
          ZoomRangeGrow(Assigned(d.chunks, t, i), j, t[i], v);
          s := s[j := v];
          j := j - 1;
        }
        ZoomRangeEmpty(j, next, t[i], v);
        assert s == Assigned(d.chunks, t, i + 1);
        i := i + 1;
      }
      zoomSplitter := Some(d.zoomSplitter);
      points := Some(pts);
      store := s;
      clusters := Some(d.clusters);
      clusterEndIndexes := Some(d.clusterEndIndexes);
    }

    /**
     * `getPoints`: the markers and clusters of level
     * `clamp(minZoom, zoom, maxZoom + 1)` inside the viewport, expanded and
     * split at the antimeridian as `Windows` says.  The level's `y` buffer
     * must be sorted.  An inverted latitude band (`minY > maxY`) reports
     * nothing, where the source's upper search may loop for ever
     * (Search.UpperSearchStalls).
     */
    method GetPoints(zoom: int, westLng: real, southLat: real, eastLng: real, northLat: real,
                     latToY: real -> real, yToLat: real -> real, expand: Option<real>)
      returns (value: Outcome<seq<Mapped<T>>>)
      requires Valid() && (IsPixelExpansion(expand) ==> extent > 0.0)
      requires var key := ZoomLevel(minZoom, zoom, maxZoom + 1);
        points.Some? && key in store && store[key].Some? ==> Sorted(store[key].value.yAxis)
      ensures points.None? ==> value == Value([])
      ensures points.Some? ==>
        var key := ZoomLevel(minZoom, zoom, maxZoom + 1);
        if key !in store || store[key].None? then value == TypeError
        else
          var pd := store[key].value;
          var band := Band(BoundedLatToY(latToY, northLat), BoundedLatToY(latToY, southLat), expand, PixelExpansion(expand, extent, zoom));
          value == Value(Report(pd, points.value, clusters.value, yToLat,
                                Hits(pd.yAxis, pd.xAxis, Windows(westLng, eastLng, band, expand, PixelExpansion(expand, extent, zoom)))))
    {
      if points.None? {
        return Value([]);
      }
      var key := ZoomLevel(minZoom, zoom, maxZoom + 1);
      if key !in store || store[key].None? {
        return TypeError;
      }
      var pd := store[key].value;
      var minY, maxY, expandX := ExpandLat(BoundedLatToY(latToY, northLat), BoundedLatToY(latToY, southLat), expand, extent, zoom);
      ghost var ws := Windows(westLng, eastLng, (minY, maxY), expand, expandX);
      var minX: real;
      var maxX: real;
      if eastLng - westLng < 360.0 {
        minX := BoundedLngToX(westLng);
        maxX := if eastLng == 180.0 then 1.0 else BoundedLngToX(eastLng);
        assert maxX == EastX(eastLng);
        minX, maxX := ExpandLng(minX, maxX, expand, expandX);
        if minX > maxX {
          var west := MutatePoints(pd.yAxis, pd.xAxis, 0.0, minY, maxX, maxY);
          var east := MutatePoints(pd.yAxis, pd.xAxis, minX, minY, 1.0, maxY);
          assert ws == [Window(0.0, minY, maxX, maxY), Window(minX, minY, 1.0, maxY)];
          assert ws[..1] == [ws[0]] && ws[..1][..0] == [];
          assert Hits(pd.yAxis, pd.xAxis, ws[..1]) == west;
          assert Hits(pd.yAxis, pd.xAxis, ws) == west + east;
          return Value(Report(pd, points.value, clusters.value, yToLat, west + east));
        }
      } else {
        minX := 0.0;
        maxX := 1.0;
      }
      var hits := MutatePoints(pd.yAxis, pd.xAxis, minX, minY, maxX, maxY);
      assert ws == [Window(minX, minY, maxX, maxY)];
      assert ws[..0] == [];
      assert Hits(pd.yAxis, pd.xAxis, ws) == hits;
      return Value(Report(pd, points.value, clusters.value, yToLat, hits));
    }

    /**
     * `getZoom`: the split zoom of the last boundary below `-clusterId`, or
     * -1 when there is none.
     */
    method GetZoom(clusterId: int) returns (z: Outcome<Option<int>>)
      requires Valid()
      ensures clusterEndIndexes.None? ==> z == TypeError
      ensures clusterEndIndexes.Some? ==>
        var i := LastBelow(clusterEndIndexes.value, -clusterId, |clusterEndIndexes.value|);
        z == Value(if i < 0 then Some(-1) else At(zoomSplitter.value, i))
    {
      if clusterEndIndexes.None? {
        return TypeError;
      }
      var c := -clusterId;
      var ends := clusterEndIndexes.value;
      var i := |ends|;
      while i > 0
        invariant 0 <= i <= |ends|
        invariant LastBelow(ends, c, |ends|) == LastBelow(ends, c, i)
      {
        i := i - 1;
        if ends[i] < c {
          return Value(At(zoomSplitter.value, i));
        }
      }
      return Value(Some(-1));
    }

    /** `_getChildrenIds`: the child ids of cluster `clusterId`, in buffer order. */
    method GetChildrenIds(clusterId: int) returns (ids: seq<Option<int>>)
      requires clusters.Some?
      ensures ids == ChildrenIds(clusters.value, -clusterId)
    {
      var c := -clusterId;
      var cs := clusters.value;
      ids := [];
      var count := At(cs, c - 1);
      if count.None? {
        return;
      }
      var l := c + count.value + 1;
      var j := c + 1;
      while j < l
        invariant c + 1 <= j && (j <= l || j == c + 1)
        invariant |ids| == j - c - 1
        invariant forall k :: 0 <= k < |ids| ==> ids[k] == At(cs, c + 1 + k)
      {
        ids := ids + [At(cs, j)];
        j := j + 1;
      }
    }

    /** `getChildren`: the children of cluster `clusterId`, last child first. */
    method GetChildren(clusterId: int) returns (children: seq<Child<T>>)
      requires Valid()
      ensures points.None? ==> children == []
      ensures points.Some? ==>
        var ids := ChildrenIds(clusters.value, -clusterId);
        && |children| == |ids|
        && forall k :: 0 <= k < |children| ==> children[k] == ChildOf(points.value, clusters.value, ids[|ids| - 1 - k])
    {
      children := [];
      if points.None? {
        return;
      }
      var ids := GetChildrenIds(clusterId);
      var i := |ids|;
      while i > 0
        invariant 0 <= i <= |ids|
        invariant |children| == |ids| - i
        invariant forall k :: 0 <= k < |children| ==> children[k] == ChildOf(points.value, clusters.value, ids[|ids| - 1 - k])
      {
        i := i - 1;
        children := children + [ChildOf(points.value, clusters.value, ids[i])];
      }
    }

    /** `_getOriginAxis`: the projected coordinates of every point, filled from the last one down. */
    method GetOriginAxis(pts: seq<T>, latToY: real -> real) returns (yOrigin: array<real>, xOrigin: array<real>)
      ensures fresh(yOrigin) && fresh(xOrigin)
      ensures yOrigin.Length == |pts| && xOrigin.Length == |pts|
      ensures forall i :: 0 <= i < |pts| ==>
        && XToLng(xOrigin[i]) == getLngLat(pts[i]).0
        && yOrigin[i] == latToY(getLngLat(pts[i]).1)
    {
      yOrigin := new real[|pts|];
      xOrigin := new real[|pts|];
      var i := |pts|;
      while i > 0
        invariant 0 <= i <= |pts|
        invariant forall k :: i <= k < |pts| ==>
          && XToLng(xOrigin[k]) == getLngLat(pts[k]).0
          && yOrigin[k] == latToY(getLngLat(pts[k]).1)
      {
        i := i - 1;
        var coords := getLngLat(pts[i]);
        LngRoundTrip(coords.0);
        xOrigin[i] := LngToX(coords.0);
        yOrigin[i] := latToY(coords.1);
      }
    }
  }
}
