/**
 * The geometry of a viewport query (`getPoints`): which zoom level is read,
 * how the latitude band and the longitude range are expanded and clamped,
 * and how a range that crosses the antimeridian becomes two x windows.
 *
 * The latitude projection is a parameter (`latToY`); everything else is
 * exact real arithmetic.
 */
module Query {
  import opened Projection
  import opened Levels
  import opened Search

  datatype Option<X> = None | Some(value: X)

  /** A JavaScript read `s[i]`: `undefined` (None) outside the sequence. */
  function At<X>(s: seq<X>, i: int): (r: Option<X>)
    ensures r.Some? <==> 0 <= i < |s|
  {
    if 0 <= i < |s| then Some(s[i]) else None
  }

  /** `clamp(minZoom, zoom, maxZoom + 1)` on an integer zoom. */
  function ZoomLevel(lo: int, zoom: int, hi: int): (z: int)
    ensures z as real == Clamp(lo as real, zoom as real, hi as real)
  {
    var m := if zoom >= lo then zoom else lo;
    if m <= hi then m else hi
  }

  /** `boundedLatToY`: the latitude is clamped to [-90, 90] before projecting. */
  function BoundedLatToY(latToY: real -> real, lat: real): (y: real)
  {
    latToY(Clamp(-90.0, lat, 90.0))
  }

  function Abs(v: real): (a: real)
    ensures a >= 0.0 && (a == v || a == -v)
  {
    if v < 0.0 then -v else v
  }

  /** `if (expand)`: an absent or zero expansion does nothing. */
  predicate Truthy(expand: Option<real>)
  {
    expand.Some? && expand.value != 0.0
  }

  /** An absolute (pixel) expansion: `expand` is set, non-zero and at least 1 in magnitude. */
  predicate IsPixelExpansion(expand: Option<real>)
  {
    Truthy(expand) && Abs(expand.value) >= 1.0
  }

  /** `expandX` as the latitude step leaves it: set only for an absolute (pixel) expansion. */
  function PixelExpansion(expand: Option<real>, extent: real, zoom: int): (d: Option<real>)
    requires IsPixelExpansion(expand) ==> extent > 0.0
    ensures d.Some? <==> Truthy(expand) && Abs(expand.value) >= 1.0
    ensures d.Some? ==> d.value != 0.0 && d.value * (extent * Pow2(zoom)) == expand.value
  {
    if Truthy(expand) && Abs(expand.value) >= 1.0 then
      PixelsToDistanceScale(expand.value, extent, zoom);
      Some(PixelsToDistance(expand.value, extent, zoom))
    else None
  }

  /** `expandY`: the band's width times `expand`, or the pixel distance when there is one. */
  function YExpansion(minY: real, maxY: real, e: real, px: Option<real>): (ey: real)
  {
    match px
    case Some(d) => d
    case None => (maxY - minY) * e
  }

  /** `expandX ||= Math.abs(maxX - minX) * expand`. */
  function XExpansion(minX: real, maxX: real, e: real, px: Option<real>): (ex: real)
  {
    if px.Some? && px.value != 0.0 then px.value else Abs(maxX - minX) * e
  }

  /** The latitude band `(minY, maxY)` after the optional expansion. */
  function Band(minY: real, maxY: real, expand: Option<real>, px: Option<real>): (b: (real, real))
  {
    if !Truthy(expand) then (minY, maxY)
    else
      var ey := YExpansion(minY, maxY, expand.value, px);
      (Clamp(0.0, minY - ey, 1.0), Clamp(0.0, maxY + ey, 1.0))
  }

  /** The projected east edge: `eastLng == 180` is the right edge itself. */
  function EastX(eastLng: real): (x: real)
  {
    if eastLng == 180.0 then 1.0 else BoundedLngToX(eastLng)
  }

  /** The x range `(minX, maxX)` after the optional expansion, clamped to [0, 1]. */
  function XExpanded(minX: real, maxX: real, expand: Option<real>, px: Option<real>): (xs: (real, real))
  {
    if !Truthy(expand) then (minX, maxX)
    else
      var ex := XExpansion(minX, maxX, expand.value, px);
      (Clamp(0.0, minX - ex, 1.0), Clamp(0.0, maxX + ex, 1.0))
  }

  /** The x range of a query narrower than the whole world. */
  function XRange(westLng: real, eastLng: real, expand: Option<real>, px: Option<real>): (xs: (real, real))
  {
    XExpanded(BoundedLngToX(westLng), EastX(eastLng), expand, px)
  }

  /** The arguments of one `_mutatePoints` call. */
  datatype Window = Window(minX: real, minY: real, maxX: real, maxY: real)

  /**
   * The scans `getPoints` makes, in order: the whole x axis for a query of
   * 360 degrees or more, two windows `[0, maxX]` then `[minX, 1]` when the
   * projected range wraps around, one window otherwise.
   */
  function Windows(westLng: real, eastLng: real, band: (real, real), expand: Option<real>, px: Option<real>): (ws: seq<Window>)
    ensures 1 <= |ws| <= 2
    ensures forall k :: 0 <= k < |ws| ==> ws[k].minY == band.0 && ws[k].maxY == band.1
  {
    if eastLng - westLng < 360.0 then
      var (minX, maxX) := XRange(westLng, eastLng, expand, px);
      if minX > maxX then [Window(0.0, band.0, maxX, band.1), Window(minX, band.0, 1.0, band.1)]
      else [Window(minX, band.0, maxX, band.1)]
    else [Window(0.0, band.0, 1.0, band.1)]
  }

  /** Some window of `ws` holds `x` in its x range. */
  predicate Covered(ws: seq<Window>, x: real)
  {
    exists k :: 0 <= k < |ws| && ws[k].minX <= x <= ws[k].maxX
  }

  /** The arc of the x axis from `a` eastward to `b`, wrapping past 1 back to 0 when `b < a`. */
  predicate InArc(a: real, b: real, x: real)
  {
    if a <= b then a <= x <= b else a <= x || x <= b
  }

  /** Every window lies in the unit square's x range and is non-empty in x. */
  lemma WindowsInUnitSquare(westLng: real, eastLng: real, band: (real, real), expand: Option<real>, px: Option<real>)
    ensures forall w :: w in Windows(westLng, eastLng, band, expand, px) ==>
      0.0 <= w.minX <= w.maxX <= 1.0
  {
  }

  /** A query of 360 degrees or more covers the whole x axis. */
  lemma WindowsWholeWorld(westLng: real, eastLng: real, band: (real, real), expand: Option<real>, px: Option<real>, x: real)
    requires eastLng - westLng >= 360.0 && 0.0 <= x <= 1.0
    ensures Covered(Windows(westLng, eastLng, band, expand, px), x)
  {
    assert Windows(westLng, eastLng, band, expand, px)[0].minX <= x;
  }

  /**
   * Without expansion, for longitudes in [-180, 180] (east up to and
   * including 180), the windows cover exactly the arc from the west edge
   * eastward to the east edge, wrapping across the antimeridian when the
   * east edge lies west of the west edge.
   */
  lemma WindowsCoverArc(westLng: real, eastLng: real, band: (real, real), expand: Option<real>, px: Option<real>, x: real)
    requires !Truthy(expand)
    requires -180.0 <= westLng < 180.0 && -180.0 <= eastLng <= 180.0
    requires 0.0 <= x <= 1.0
    ensures Covered(Windows(westLng, eastLng, band, expand, px), x)
      <==> InArc(LngToX(westLng), if eastLng == 180.0 then 1.0 else LngToX(eastLng), x)
  {
    var ws := Windows(westLng, eastLng, band, expand, px);
    var a := LngToX(westLng);
    var b := if eastLng == 180.0 then 1.0 else LngToX(eastLng);
    BoundedLngToXInRange(westLng);
    if eastLng != 180.0 {
      BoundedLngToXInRange(eastLng);
    }
    if eastLng - westLng < 360.0 {
      assert XRange(westLng, eastLng, expand, px) == (a, b);
      if a > b {
        assert ws == [Window(0.0, band.0, b, band.1), Window(a, band.0, 1.0, band.1)];
        if InArc(a, b, x) {
          if a <= x {
            assert ws[1].minX <= x <= ws[1].maxX;
          } else {
            assert ws[0].minX <= x <= ws[0].maxX;
          }
        }
      } else {
        assert ws == [Window(a, band.0, b, band.1)];
        if InArc(a, b, x) {
          assert ws[0].minX <= x <= ws[0].maxX;
        }
      }
    } else {
      assert westLng == -180.0 && eastLng == 180.0;
      assert ws[0].minX <= x <= ws[0].maxX;
    }
  }

  /**
   * A relative expansion of a range that crosses the antimeridian is taken
   * from `|maxX - minX|`, the width of the complementary arc: from 170 to
   * -170 degrees (20 degrees wide) with `expand = 0.6` the single window is
   * `[73/180, 107/180]`, around longitude 0, and longitude 175, inside the
   * queried arc, is no longer covered.
   */
  lemma CrossingExpansionUsesComplement()
    ensures Windows(170.0, -170.0, (0.2, 0.8), Some(0.6), None) == [Window(73.0 / 180.0, 0.2, 107.0 / 180.0, 0.8)]
    ensures InArc(LngToX(170.0), LngToX(-170.0), LngToX(175.0))
    ensures !Covered(Windows(170.0, -170.0, (0.2, 0.8), Some(0.6), None), LngToX(175.0))
  {
    BoundedLngToXInRange(170.0);
    BoundedLngToXInRange(-170.0);
    assert XRange(170.0, -170.0, Some(0.6), None) == (73.0 / 180.0, 107.0 / 180.0);
  }

  /**
   * A positive expansion never shrinks a band that already lies in [0, 1]:
   * the expanded band contains the original one.
   */
  lemma BandExpands(minY: real, maxY: real, expand: Option<real>, extent: real, zoom: int)
    requires extent > 0.0 && 0.0 <= minY <= maxY <= 1.0
    requires expand.Some? ==> expand.value >= 0.0
    ensures var b := Band(minY, maxY, expand, PixelExpansion(expand, extent, zoom));
      0.0 <= b.0 <= minY <= maxY <= b.1 <= 1.0
  {
    if Truthy(expand) {
      var px := PixelExpansion(expand, extent, zoom);
      if px.Some? {
        assert px.value > 0.0;
      } else {
        MulNonNegative(maxY - minY, expand.value);
      }
    }
  }

  lemma MulNonNegative(a: real, b: real)
    requires a >= 0.0 && b >= 0.0
    ensures a * b >= 0.0
  {
  }

  /**
   * A relative expansion (`|expand| < 1`) that the clamp does not cut grows
   * the band by `expand` times its width on each side.
   */
  lemma BandRelative(minY: real, maxY: real, e: real, extent: real, zoom: int)
    requires extent > 0.0 && 0.0 < Abs(e) < 1.0
    requires 0.0 <= minY - (maxY - minY) * e && maxY + (maxY - minY) * e <= 1.0
    requires minY - (maxY - minY) * e <= maxY + (maxY - minY) * e
    ensures var b := Band(minY, maxY, Some(e), PixelExpansion(Some(e), extent, zoom));
      b == (minY - (maxY - minY) * e, maxY + (maxY - minY) * e)
      && b.1 - b.0 == (maxY - minY) * (1.0 + 2.0 * e)
  {
    assert PixelExpansion(Some(e), extent, zoom) == None;
    assert YExpansion(minY, maxY, e, None) == (maxY - minY) * e;
  }

  /**
   * An absolute expansion (`|expand| >= 1` pixels) that the clamp does not
   * cut moves each edge by the same distance, `expand` pixels at `zoom`.
   */
  lemma BandAbsolute(minY: real, maxY: real, e: real, extent: real, zoom: int)
    requires extent > 0.0 && Abs(e) >= 1.0
    requires var d := PixelsToDistance(e, extent, zoom);
      0.0 <= minY - d <= 1.0 && 0.0 <= maxY + d <= 1.0
    ensures var b := Band(minY, maxY, Some(e), PixelExpansion(Some(e), extent, zoom));
      var d := PixelsToDistance(e, extent, zoom);
      b == (minY - d, maxY + d) && (b.0 - minY) * (extent * Pow2(zoom)) == -e
  {
    var d := PixelsToDistance(e, extent, zoom);
    var s := extent * Pow2(zoom);
    PixelsToDistanceScale(e, extent, zoom);
    assert PixelExpansion(Some(e), extent, zoom) == Some(d);
    assert Band(minY, maxY, Some(e), Some(d)) == (minY - d, maxY + d);
    assert (minY - d - minY) * s == -(d * s);
  }

  /**
   * A relative expansion (`|expand| < 1`) that the clamp does not cut grows
   * the x range by `expand` times its width `w = |maxX - minX|` on each side: no pixel
   * distance was set, so `expandX ||=` takes the width.
   */
  lemma XRelative(minX: real, maxX: real, w: real, e: real, extent: real, zoom: int)
    requires extent > 0.0 && -1.0 < e < 1.0 && e != 0.0
    requires w == if maxX < minX then minX - maxX else maxX - minX
    requires 0.0 <= minX - w * e <= 1.0 && 0.0 <= maxX + w * e <= 1.0
    ensures XExpanded(minX, maxX, Some(e), PixelExpansion(Some(e), extent, zoom)) == (minX - w * e, maxX + w * e)
  {
    assert PixelExpansion(Some(e), extent, zoom) == None;
    assert XExpansion(minX, maxX, e, None) == w * e;
  }

  /**
   * An absolute expansion (`|expand| >= 1` pixels) that the clamp does not
   * cut moves each end of the x range by the pixel distance the latitude
   * step already computed.
   */
  lemma XAbsolute(minX: real, maxX: real, e: real, extent: real, zoom: int)
    requires extent > 0.0 && Abs(e) >= 1.0
    requires var d := PixelsToDistance(e, extent, zoom);
      0.0 <= minX - d <= 1.0 && 0.0 <= maxX + d <= 1.0
    ensures var d := PixelsToDistance(e, extent, zoom);
      XExpanded(minX, maxX, Some(e), PixelExpansion(Some(e), extent, zoom)) == (minX - d, maxX + d)
  {
    var d := PixelsToDistance(e, extent, zoom);
    PixelsToDistanceScale(e, extent, zoom);
    assert PixelExpansion(Some(e), extent, zoom) == Some(d);
    assert XExpansion(minX, maxX, e, Some(d)) == d;
  }

  /** The indices the scans of `ws` report, window by window. */
  function Hits(yAxis: seq<real>, xAxis: seq<real>, ws: seq<Window>): (r: seq<nat>)
    requires Sorted(yAxis)
    ensures forall k :: 0 <= k < |r| ==> r[k] < |yAxis| && r[k] < |xAxis|
  {
    if ws == [] then []
    else
      var w := ws[|ws| - 1];
      Hits(yAxis, xAxis, ws[..|ws| - 1]) + Visited(yAxis, xAxis, w.minX, w.minY, w.maxX, w.maxY)
  }

  /** Every reported index lies in one of the windows, band and x range alike. */
  lemma {:induction false} HitsSound(yAxis: seq<real>, xAxis: seq<real>, ws: seq<Window>, i: int)
    requires Sorted(yAxis)
    requires i in Hits(yAxis, xAxis, ws)
    ensures exists k :: 0 <= k < |ws| && ws[k].minY <= yAxis[i] <= ws[k].maxY && InX(xAxis, ws[k].minX, ws[k].maxX, i)
  {
    var n := |ws| - 1;
    var w := ws[n];
    if i in Visited(yAxis, xAxis, w.minX, w.minY, w.maxX, w.maxY) {
      VisitedSound(yAxis, xAxis, w.minX, w.minY, w.maxX, w.maxY, i);
      assert ws[n].minY <= yAxis[i] <= ws[n].maxY;
    } else {
      HitsSound(yAxis, xAxis, ws[..n], i);
      var k :| 0 <= k < n && ws[..n][k].minY <= yAxis[i] <= ws[..n][k].maxY && InX(xAxis, ws[..n][k].minX, ws[..n][k].maxX, i);
      assert ws[k] == ws[..n][k];
    }
  }

  /** Every index strictly inside a window's band and in its x range is reported. */
  lemma {:induction false} HitsComplete(yAxis: seq<real>, xAxis: seq<real>, ws: seq<Window>, k: int, i: int)
    requires Sorted(yAxis)
    requires 0 <= k < |ws| && 0 <= i < |yAxis|
    requires ws[k].minY < yAxis[i] <= ws[k].maxY && InX(xAxis, ws[k].minX, ws[k].maxX, i)
    ensures i in Hits(yAxis, xAxis, ws)
  {
    var n := |ws| - 1;
    var w := ws[n];
    if k == n {
      VisitedComplete(yAxis, xAxis, w.minX, w.minY, w.maxX, w.maxY, i);
    } else {
      assert ws[k] == ws[..n][k];
      HitsComplete(yAxis, xAxis, ws[..n], k, i);
    }
  }
}
