/**
 * The spatial footprint shared by both dashboards: drop coordinates with a
 * null part, refuse fewer than three points, pick the UTM zone of the mean
 * position and hand the points to the projection-and-hull routine.
 */
module Geo {
  import opened Wrappers
  import opened Numeric

  datatype Point = Point(lon: real, lat: real)

  /**
   * The foreign projection-and-hull routine: given an EPSG code and the points,
   * the planar area, in km², of the convex hull of the points reprojected into
   * that coordinate system.
   */
  type HullArea = (int, seq<Point>) -> real

  /** A `(longitude, latitude)` pair as read from a landmark; either part may be null. */
  type Coord = (Option<real>, Option<real>)

  predicate Present(c: Coord) {
    c.0.Some? && c.1.Some?
  }

  /** The points whose longitude and latitude are both non-null, in input order. */
  function PresentPoints(cs: seq<Coord>): (pts: seq<Point>)
    ensures |pts| <= |cs|
    ensures forall i :: 0 <= i < |cs| && Present(cs[i]) ==> Point(cs[i].0.value, cs[i].1.value) in pts
    ensures forall p :: p in pts ==> exists i :: 0 <= i < |cs| && cs[i] == (Some(p.lon), Some(p.lat))
    decreases |cs|
  {
    if cs == [] then []
    else
      var n := |cs| - 1;
      var init := PresentPoints(cs[..n]);
      var c := cs[n];
      assert forall i :: 0 <= i < n ==> cs[..n][i] == cs[i];
      if Present(c) then init + [Point(c.0.value, c.1.value)] else init
  }

  /** The positions of the pairs with both coordinates present. */
  function PresentIndices(cs: seq<Coord>): set<int> {
    set i | 0 <= i < |cs| && Present(cs[i])
  }

  lemma PresentIndicesSnoc(cs: seq<Coord>)
    requires cs != []
    ensures var n := |cs| - 1;
      PresentIndices(cs) == PresentIndices(cs[..n]) + (if Present(cs[n]) then {n} else {}) && n !in PresentIndices(cs[..n])
  {
    var n := |cs| - 1;
    var init := cs[..n];
    var a := PresentIndices(init);
    var extra: set<int> := if Present(cs[n]) then {n} else {};
    forall i | i in PresentIndices(cs) ensures i in a + extra {
      if i < n {
        assert init[i] == cs[i];
      }
    }
    forall i | i in a + extra ensures i in PresentIndices(cs) {
      if i in a {
        assert init[i] == cs[i];
      }
    }
  }

  /** There are as many valid points as positions holding both coordinates. */
  lemma {:induction false} PresentPointsCount(cs: seq<Coord>)
    ensures |PresentPoints(cs)| == |PresentIndices(cs)|
    decreases |cs|
  {
    if cs != [] {
      var n := |cs| - 1;
      PresentPointsCount(cs[..n]);
      PresentIndicesSnoc(cs);
    }
  }

  /** Filtering distributes over concatenation. */
  lemma {:induction false} PresentPointsAppend(a: seq<Coord>, b: seq<Coord>)
    ensures PresentPoints(a + b) == PresentPoints(a) + PresentPoints(b)
    decreases |b|
  {
    if b == [] {
      assert a + b == a;
    } else {
      var b' := b[..|b| - 1];
      var c := b[|b| - 1];
      assert (a + b)[..|a + b| - 1] == a + b';
      assert (a + b)[|a + b| - 1] == c;
      PresentPointsAppend(a, b');
      var tail := if Present(c) then [Point(c.0.value, c.1.value)] else [];
      assert PresentPoints(b) == PresentPoints(b') + tail;
      assert PresentPoints(a + b) == PresentPoints(a + b') + tail;
    }
  }

  function Lons(pts: seq<Point>): (r: seq<real>)
    ensures |r| == |pts| && forall i :: 0 <= i < |pts| ==> r[i] == pts[i].lon
  {
    seq(|pts|, i requires 0 <= i < |pts| => pts[i].lon)
  }

  function Lats(pts: seq<Point>): (r: seq<real>)
    ensures |r| == |pts| && forall i :: 0 <= i < |pts| ==> r[i] == pts[i].lat
  {
    seq(|pts|, i requires 0 <= i < |pts| => pts[i].lat)
  }

  /** Python's `int(x)` on a float: truncation toward zero. */
  function TruncateToInt(x: real): (n: int)
    ensures x >= 0.0 ==> n as real <= x < n as real + 1.0
    ensures x < 0.0 ==> n as real - 1.0 < x <= n as real
  {
    if x >= 0.0 then x.Floor else -((-x).Floor)
  }

  /** `int((mean_lon + 180) / 6) + 1`. */
  function UtmZone(meanLon: real): (zone: int)
    ensures meanLon >= -180.0 ==> (zone - 1) as real <= (meanLon + 180.0) / 6.0 < zone as real
    ensures meanLon < -180.0 ==> (zone - 2) as real < (meanLon + 180.0) / 6.0 <= (zone - 1) as real
  {
    TruncateToInt((meanLon + 180.0) / 6.0) + 1
  }

  /** EPSG code of the UTM zone: 326xx north of the equator (and on it), 327xx south. */
  function UtmEpsg(meanLon: real, meanLat: real): (code: int)
    ensures meanLat >= 0.0 ==> code - 32600 == UtmZone(meanLon)
    ensures meanLat < 0.0 ==> code - 32700 == UtmZone(meanLon)
  {
    (if meanLat >= 0.0 then 32600 else 32700) + UtmZone(meanLon)
  }

  /** For every longitude in [-180, 180) the zone is one of the 60 UTM zones, six degrees wide. */
  lemma UtmZoneInRange(lon: real)
    requires -180.0 <= lon < 180.0
    ensures 1 <= UtmZone(lon) <= 60
    ensures -180.0 + 6.0 * (UtmZone(lon) - 1) as real <= lon < -180.0 + 6.0 * UtmZone(lon) as real
  {
    var x := (lon + 180.0) / 6.0;
    var n := TruncateToInt(x);
    assert 0.0 <= x < 60.0;
    assert n as real <= x < n as real + 1.0;
  }

  /** At exactly 180 degrees east the formula yields zone 61, outside the UTM range. */
  lemma UtmZoneAtAntimeridian()
    ensures UtmZone(180.0) == 61
  {
    assert TruncateToInt(60.0) == 60;
  }

  lemma UtmEpsgRange(lon: real, lat: real)
    requires -180.0 <= lon < 180.0
    ensures lat >= 0.0 ==> 32601 <= UtmEpsg(lon, lat) <= 32660
    ensures lat < 0.0 ==> 32701 <= UtmEpsg(lon, lat) <= 32760
  {
    UtmZoneInRange(lon);
  }

  /**
   * The hull area of the valid points, or null when there are fewer than three
   * of them; otherwise the routine is asked about the zone of the mean position.
   */
  function Footprint(pts: seq<Point>, hullArea: HullArea): (area: Option<real>)
    ensures area.None? <==> |pts| < 3
    ensures area.Some? ==> area.value == hullArea(UtmEpsg(Mean(Lons(pts)), Mean(Lats(pts))), pts)
  {
    if |pts| >= 3 then Some(hullArea(UtmEpsg(Mean(Lons(pts)), Mean(Lats(pts))), pts)) else None
  }
}
