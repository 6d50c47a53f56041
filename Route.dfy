/**
 * A drawn route: the points the map hands over, in the order they were
 * placed, and the great-circle length of the path through them.
 */
module Route {
  import opened JsMath

  /** One point of the route: latitude and longitude in degrees, and the moment it was captured */
  datatype RoutePoint = RoutePoint(lat: real, lng: real, timestamp: int)

  /** The Earth's radius, in kilometres, that the distance formula uses */
  const EarthRadiusKm: real := 6371.0

  /**
   * The haversine of the central angle between two points, the `a` of the
   * formula: `sin²(Δlat/2) + cos(lat1)·cos(lat2)·sin²(Δlng/2)`
   */
  function HalfChord(m: Math, p1: RoutePoint, p2: RoutePoint): real {
    var dLat := (p2.lat - p1.lat) * PI / 180.0;
    var dLng := (p2.lng - p1.lng) * PI / 180.0;
    m.sin(dLat / 2.0) * m.sin(dLat / 2.0) +
      m.cos(p1.lat * PI / 180.0) * m.cos(p2.lat * PI / 180.0) *
      m.sin(dLng / 2.0) * m.sin(dLng / 2.0)
  }

  /** `HalfChord` written out over the two angle differences, as the distance loops compute it */
  lemma HalfChordOf(m: Math, p1: RoutePoint, p2: RoutePoint, dLat: real, dLng: real)
    requires dLat == (p2.lat - p1.lat) * PI / 180.0 && dLng == (p2.lng - p1.lng) * PI / 180.0
    ensures HalfChord(m, p1, p2) ==
      m.sin(dLat / 2.0) * m.sin(dLat / 2.0) +
      m.cos(p1.lat * PI / 180.0) * m.cos(p2.lat * PI / 180.0) *
      m.sin(dLng / 2.0) * m.sin(dLng / 2.0)
  {
  }

  /** The haversine distance in kilometres between two points: `R · 2·atan2(√a, √(1−a))` */
  function Haversine(m: Math, p1: RoutePoint, p2: RoutePoint): real {
    var a := HalfChord(m, p1, p2);
    var c := 2.0 * m.atan2(m.sqrt(a), m.sqrt(1.0 - a));
    EarthRadiusKm * c
  }

  /** The length of a route: the haversine distances of its consecutive pairs of points, summed from the start */
  function RouteDistance(m: Math, points: seq<RoutePoint>): (d: real)
    ensures |points| < 2 ==> d == 0.0
  {
    if |points| < 2 then 0.0
    else RouteDistance(m, points[..|points| - 1]) + Haversine(m, points[|points| - 2], points[|points| - 1])
  }

  /** No segment is shorter than zero, an angle `atan2` gives from two square roots being non-negative */
  lemma HaversineNonNegative(m: Math, p1: RoutePoint, p2: RoutePoint)
    requires SqrtNonNegative(m) && Atan2NonNegative(m)
    ensures 0.0 <= Haversine(m, p1, p2)
  {
  }

  /** Appending a point adds the segment from the last point to it */
  lemma DistanceOfAppend(m: Math, points: seq<RoutePoint>, q: RoutePoint)
    requires 1 <= |points|
    ensures RouteDistance(m, points + [q]) == RouteDistance(m, points) + Haversine(m, points[|points| - 1], q)
  {
    assert (points + [q])[..|points|] == points;
  }

  /** Drawing further never shortens the route */
  lemma DistanceGrowsOnAppend(m: Math, points: seq<RoutePoint>, q: RoutePoint)
    requires SqrtNonNegative(m) && Atan2NonNegative(m)
    ensures RouteDistance(m, points) <= RouteDistance(m, points + [q])
  {
    if 1 <= |points| {
      DistanceOfAppend(m, points, q);
      HaversineNonNegative(m, points[|points| - 1], q);
    } else {
      assert |points + [q]| < 2;
    }
  }

  /** A route is never shorter than zero */
  lemma {:induction false} DistanceNonNegative(m: Math, points: seq<RoutePoint>)
    requires SqrtNonNegative(m) && Atan2NonNegative(m)
    ensures 0.0 <= RouteDistance(m, points)
  {
    if 2 <= |points| {
      DistanceNonNegative(m, points[..|points| - 1]);
      HaversineNonNegative(m, points[|points| - 2], points[|points| - 1]);
    }
  }

  /** A route is at least as long as each of its prefixes */
  lemma {:induction false} PrefixNoLonger(m: Math, points: seq<RoutePoint>, k: nat)
    requires SqrtNonNegative(m) && Atan2NonNegative(m)
    requires k <= |points|
    ensures RouteDistance(m, points[..k]) <= RouteDistance(m, points)
    decreases |points| - k
  {
    if k < |points| {
      var longer := points[..k + 1];
      assert longer == points[..k] + [points[k]];
      DistanceGrowsOnAppend(m, points[..k], points[k]);
      PrefixNoLonger(m, points, k + 1);
    } else {
      assert points[..k] == points;
    }
  }

  /** A two-point route is as long as the haversine distance between its points */
  lemma TwoPointRoute(m: Math, p: RoutePoint, q: RoutePoint)
    ensures RouteDistance(m, [p, q]) == Haversine(m, p, q)
  {
    assert [p, q][..1] == [p];
  }

  /** The same length, summed from the first segment on */
  lemma {:induction false} DistanceFromFront(m: Math, points: seq<RoutePoint>)
    requires 2 <= |points|
    ensures RouteDistance(m, points) == Haversine(m, points[0], points[1]) + RouteDistance(m, points[1..])
  {
    var n := |points|;
    if n == 2 {
      assert points[1..][..1] == [points[1]];
      assert points[..1] == [points[0]];
    } else {
      var init := points[..n - 1];
      DistanceFromFront(m, init);
      assert init[1..] == points[1..][..n - 2];
      assert init[0] == points[0] && init[1] == points[1];
      assert points[1..][n - 3] == points[n - 2] && points[1..][n - 2] == points[n - 1];
    }
  }

  /** The haversine distance does not depend on the direction, since `sin` is odd */
  lemma HaversineSymmetric(m: Math, p1: RoutePoint, p2: RoutePoint)
    requires SinIsOdd(m)
    ensures Haversine(m, p1, p2) == Haversine(m, p2, p1)
  {
    HalfChordSymmetric(m, p1, p2);
  }

  /** The `a` of the formula is the same in both directions */
  lemma HalfChordSymmetric(m: Math, p1: RoutePoint, p2: RoutePoint)
    requires SinIsOdd(m)
    ensures HalfChord(m, p1, p2) == HalfChord(m, p2, p1)
  {
    var half := (p2.lat - p1.lat) * PI / 180.0 / 2.0;
    var halfLng := (p2.lng - p1.lng) * PI / 180.0 / 2.0;
    var back := (p1.lat - p2.lat) * PI / 180.0 / 2.0;
    var backLng := (p1.lng - p2.lng) * PI / 180.0 / 2.0;
    assert half + back == 0.0;
    assert halfLng + backLng == 0.0;
    var c1, c2 := m.cos(p1.lat * PI / 180.0), m.cos(p2.lat * PI / 180.0);
    var s, t := m.sin(half), m.sin(halfLng);
    assert m.sin(back) == -s && m.sin(backLng) == -t;
    SquareOfNegation(1.0, s);
    SquareOfNegation(c1 * c2, t);
    assert c2 * c1 == c1 * c2;
    assert HalfChord(m, p1, p2) == s * s + c1 * c2 * t * t;
    assert HalfChord(m, p2, p1) == (-s) * (-s) + c2 * c1 * (-t) * (-t);
  }

  /** `(k * -u) * -u == (k * u) * u` */
  lemma SquareOfNegation(k: real, u: real)
    ensures (k * -u) * -u == (k * u) * u && (-u) * (-u) == u * u
  {
  }

  /** The points of a route in the opposite order */
  function Reverse(points: seq<RoutePoint>): (r: seq<RoutePoint>)
    ensures |r| == |points|
    ensures forall i :: 0 <= i < |points| ==> r[i] == points[|points| - 1 - i]
  {
    if |points| == 0 then [] else Reverse(points[1..]) + [points[0]]
  }

  /** Walking a route backwards covers the same distance */
  lemma {:induction false} DistanceOfReverse(m: Math, points: seq<RoutePoint>)
    requires SinIsOdd(m)
    ensures RouteDistance(m, Reverse(points)) == RouteDistance(m, points)
  {
    if 2 <= |points| {
      var rest := Reverse(points[1..]);
      DistanceOfReverse(m, points[1..]);
      DistanceOfAppend(m, rest, points[0]);
      assert rest[|rest| - 1] == points[1];
      HaversineSymmetric(m, points[1], points[0]);
      DistanceFromFront(m, points);
    } else if |points| == 1 {
      assert |Reverse(points)| < 2;
    }
  }
}
