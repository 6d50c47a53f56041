/**
 * The statistics panel of the route editor: the distance of the drawn route,
 * the estimated time at the chosen pace, and the elevation gain of the
 * synthetic terrain the exported file carries. The panel is a function of its
 * properties (the points and the pace), so each statistic is a function of
 * them here too; the two loops of the panel are methods proved against those
 * functions.
 */
module RouteStats {
  import opened JsMath
  import opened Route
  import opened Clock
  import opened JsText

  /** `calculateDistance`: the haversine distances of consecutive points, accumulated in a loop */
  method CalculateDistance(m: Math, points: seq<RoutePoint>) returns (totalDistance: real)
    ensures totalDistance == RouteDistance(m, points)
  {
    if |points| < 2 {
      return 0.0;
    }
    totalDistance := 0.0;
    for i := 1 to |points|
      invariant totalDistance == RouteDistance(m, points[..i])
    {
      var R := 6371.0;
      var dLat := (points[i].lat - points[i - 1].lat) * PI / 180.0;
      var dLng := (points[i].lng - points[i - 1].lng) * PI / 180.0;
      var a := m.sin(dLat / 2.0) * m.sin(dLat / 2.0) +
        m.cos(points[i - 1].lat * PI / 180.0) * m.cos(points[i].lat * PI / 180.0) *
        m.sin(dLng / 2.0) * m.sin(dLng / 2.0);
      var c := 2.0 * m.atan2(m.sqrt(a), m.sqrt(1.0 - a));
      HalfChordOf(m, points[i - 1], points[i], dLat, dLng);
      SegmentStep(m, points, i, a, c);
      totalDistance := totalDistance + R * c;
    }
    assert points[..|points|] == points;
  }

  /**
   * One turn of a distance loop: with `a` the haversine of the segment
   * ending at point `i` and `c` its central angle, adding `R · c` extends the
   * distance of the first `i` points to the first `i + 1`.
   */
  lemma SegmentStep(m: Math, points: seq<RoutePoint>, i: nat, a: real, c: real)
    requires 1 <= i < |points|
    requires a == HalfChord(m, points[i - 1], points[i])
    requires c == 2.0 * m.atan2(m.sqrt(a), m.sqrt(1.0 - a))
    ensures RouteDistance(m, points[..i]) + 6371.0 * c == RouteDistance(m, points[..i + 1])
  {
    DistanceOfPrefix(m, points, i);
  }

  /** Extending a prefix by one point adds the segment ending at that point */
  lemma DistanceOfPrefix(m: Math, points: seq<RoutePoint>, i: nat)
    requires 1 <= i < |points|
    ensures RouteDistance(m, points[..i + 1]) == RouteDistance(m, points[..i]) + Haversine(m, points[i - 1], points[i])
  {
    assert points[..i + 1][..i] == points[..i];
  }

  /**
   * `calculateEstimatedTime`: "0:00" when the route has no length or the pace
   * is 0, otherwise the clock text of distance × pace seconds.
   */
  method EstimatedTime(m: Math, points: seq<RoutePoint>, pace: real) returns (text: string)
    ensures text == TotalTime(RouteDistance(m, points), pace)
    ensures |points| < 2 || pace == 0.0 ==> text == "0:00"
  {
    var distance := CalculateDistance(m, points);
    if distance == 0.0 || pace == 0.0 {
      return "0:00";
    }
    var totalSeconds := distance * pace;
    text := FormatHms(Split(totalSeconds));
    GuardAgrees(distance, pace);
  }

  /** Elevation, in metres, of the start of the synthetic terrain and the centre of its oscillation */
  const BaseElevation: real := 100.0
  /** Amplitude, in metres, of the hills; the ripple has a quarter of it */
  const HillAmplitude: real := 30.0
  /** No point of the terrain lies below this many metres */
  const MinElevation: real := 20.0

  /** `Math.max(1, Math.floor(totalDistance / 2))`: one hill per two kilometres, and at least one */
  function NumberOfHills(totalDistance: real): (hills: real)
    ensures 1.0 <= hills && hills == Floor(hills) as real
    ensures 2.0 <= totalDistance ==> 2.0 * hills <= totalDistance < 2.0 * hills + 2.0
    ensures totalDistance < 2.0 ==> hills == 1.0
  {
    Max(1.0, Floor(totalDistance / 2.0) as real)
  }

  /**
   * The terrain at a fraction `progress` of the route: the base height, a hill
   * wave with `hills` periods over the route, and a ripple of four times its
   * frequency and a quarter of its height, floored at `MinElevation`.
   */
  function ElevationAt(m: Math, progress: real, hills: real): (e: real)
    ensures MinElevation <= e
  {
    var hillEffect := HillAmplitude * m.sin(progress * hills * 2.0 * PI);
    var variationEffect := (HillAmplitude / 4.0) * m.sin(progress * hills * 8.0 * PI);
    Max(20.0, BaseElevation + hillEffect + variationEffect)
  }

  /** `NumberOfHills` written as the panel spells it out */
  lemma HillsOf(totalDistance: real)
    ensures NumberOfHills(totalDistance) == Max(1.0, Floor(totalDistance / 2.0) as real)
  {
  }

  /** `ElevationAt` written with the constants the loop of the panel spells out */
  lemma ElevationFormula(m: Math, progress: real, hills: real)
    ensures ElevationAt(m, progress, hills) ==
      Max(20.0, 100.0 + 30.0 * m.sin(progress * hills * 2.0 * PI) + (30.0 / 4.0) * m.sin(progress * hills * 8.0 * PI))
  {
  }

  /** At progress 0 both waves are at `sin(0)`, so the terrain is the base elevation */
  lemma ElevationAtStart(m: Math, hills: real)
    requires SinOfZero(m)
    ensures ElevationAt(m, 0.0, hills) == BaseElevation
  {
    assert 0.0 * hills * 2.0 * PI == 0.0 && 0.0 * hills * 8.0 * PI == 0.0;
  }

  /** With a sine bounded by 1 the terrain stays in [62.5, 137.5] m, so the floor never applies */
  lemma ElevationWithinWaves(m: Math, progress: real, hills: real)
    requires SinBounded(m)
    ensures 62.5 <= ElevationAt(m, progress, hills) <= 137.5
    ensures ElevationAt(m, progress, hills) ==
      BaseElevation + HillAmplitude * m.sin(progress * hills * 2.0 * PI)
        + (HillAmplitude / 4.0) * m.sin(progress * hills * 8.0 * PI)
  {
    var s1 := m.sin(progress * hills * 2.0 * PI);
    var s2 := m.sin(progress * hills * 8.0 * PI);
    assert -1.0 <= s1 <= 1.0 && -1.0 <= s2 <= 1.0;
  }

  /**
   * The elevation sampled at each point: the progress of point `i` is the
   * length of the route up to it over the whole length.
   */
  function Profile(m: Math, points: seq<RoutePoint>): (e: seq<real>)
    requires RouteDistance(m, points) != 0.0
    ensures |e| == |points|
    ensures forall i :: 0 <= i < |e| ==> MinElevation <= e[i]
  {
    var total := RouteDistance(m, points);
    var hills := NumberOfHills(total);
    seq(|points|, i requires 0 <= i < |points| => ElevationAt(m, RouteDistance(m, points[..i + 1]) / total, hills))
  }

  /** The first point is at progress 0, where the terrain is exactly the base elevation */
  lemma ProfileStartsAtBase(m: Math, points: seq<RoutePoint>)
    requires SinOfZero(m) && RouteDistance(m, points) != 0.0
    ensures Profile(m, points)[0] == BaseElevation
  {
    var total := RouteDistance(m, points);
    assert RouteDistance(m, points[..1]) == 0.0;
    assert 0.0 / total == 0.0;
    ElevationAtStart(m, NumberOfHills(total));
  }

  /** The cumulative distance at the last point is the whole distance, so the last sample is at progress 1 */
  lemma ProfileEndsAtFullProgress(m: Math, points: seq<RoutePoint>)
    requires RouteDistance(m, points) != 0.0
    ensures Profile(m, points)[|points| - 1] == ElevationAt(m, 1.0, NumberOfHills(RouteDistance(m, points)))
  {
    var total := RouteDistance(m, points);
    ProfileSample(m, points, |points| - 1);
    assert points[..|points|] == points;
    DivSelf(total);
  }

  /** What one sample adds to the gain: the climb from the previous sample, nothing on a descent */
  function Rise(last: real, current: real): (r: real)
    ensures 0.0 <= r && current - last <= r
  {
    if current > last then current - last else 0.0
  }

  /** The sum of the climbs between consecutive samples; the first sample only sets the baseline */
  function GainSum(e: seq<real>): real {
    if |e| < 2 then 0.0 else GainSum(e[..|e| - 1]) + Rise(e[|e| - 2], e[|e| - 1])
  }

  /** The gain of a longer prefix adds the climb into its last sample */
  lemma GainSumStep(e: seq<real>, k: nat)
    requires 1 <= k < |e|
    ensures GainSum(e[..k + 1]) == GainSum(e[..k]) + Rise(e[k - 1], e[k])
  {
    assert e[..k + 1][..k] == e[..k];
  }

  /** No gain is negative */
  lemma {:induction false} GainSumNonNegative(e: seq<real>)
    ensures 0.0 <= GainSum(e)
  {
    if 2 <= |e| {
      GainSumNonNegative(e[..|e| - 1]);
    }
  }

  /** The gain is at least the net climb from the first sample to the last */
  lemma {:induction false} GainSumAtLeastNetRise(e: seq<real>)
    requires 1 <= |e|
    ensures e[|e| - 1] - e[0] <= GainSum(e)
  {
    if 2 <= |e| {
      var init := e[..|e| - 1];
      GainSumAtLeastNetRise(init);
      assert init[0] == e[0] && init[|init| - 1] == e[|e| - 2];
    }
  }

  /** A route that never climbs gains nothing */
  lemma {:induction false} GainSumOfDescent(e: seq<real>)
    requires forall i :: 0 < i < |e| ==> e[i] <= e[i - 1]
    ensures GainSum(e) == 0.0
  {
    if 2 <= |e| {
      GainSumOfDescent(e[..|e| - 1]);
    }
  }

  /**
   * `calculateElevationGain`, as a function: 0 with fewer than two points or a
   * route of length 0, otherwise the gain of the profile, rounded once at the end.
   */
  function ElevationGain(m: Math, points: seq<RoutePoint>): (gain: int)
    ensures |points| < 2 || RouteDistance(m, points) == 0.0 ==> gain == 0
    ensures 0 <= gain
  {
    if |points| < 2 then 0
    else if RouteDistance(m, points) == 0.0 then 0
    else
      var e := Profile(m, points);
      GainSumNonNegative(e);
      Round(GainSum(e))
  }

  /** The rounded gain is at least the rounded net climb over the route */
  lemma ElevationGainAtLeastNetRise(m: Math, points: seq<RoutePoint>)
    requires RouteDistance(m, points) != 0.0
    ensures var e := Profile(m, points);
      Round(e[|e| - 1] - e[0]) <= ElevationGain(m, points)
  {
    var e := Profile(m, points);
    GainSumAtLeastNetRise(e);
    RoundMonotone(e[|e| - 1] - e[0], GainSum(e));
  }

  /** `Math.round` keeps the order of its arguments */
  lemma RoundMonotone(x: real, y: real)
    requires x <= y
    ensures Round(x) <= Round(y)
  {
  }

  /** Sample `i` of the profile is the terrain at the share of the route covered by point `i` */
  lemma ProfileSample(m: Math, points: seq<RoutePoint>, i: nat)
    requires RouteDistance(m, points) != 0.0 && i < |points|
    ensures Profile(m, points)[i] ==
      ElevationAt(m, RouteDistance(m, points[..i + 1]) / RouteDistance(m, points), NumberOfHills(RouteDistance(m, points)))
  {
  }

  /**
   * One step of the loop over the samples: with -1 as "no previous sample"
   * (no sample is that low), adding the climb into sample `k` extends the gain
   * of the first `k` samples to the first `k + 1`.
   */
  lemma GainUpdate(e: seq<real>, k: nat, last: real, gain: real)
    requires k < |e| && forall i :: 0 <= i < |e| ==> MinElevation <= e[i]
    requires k == 0 ==> last == -1.0
    requires 0 < k ==> last == e[k - 1]
    requires gain == GainSum(e[..k])
    ensures (if last != -1.0 && e[k] > last then gain + (e[k] - last) else gain) == GainSum(e[..k + 1])
  {
    if 0 < k {
      GainSumStep(e, k);
    } else {
      assert |e[..1]| < 2;
    }
  }

  /**
   * What the loop of `calculateElevationGain` knows before visiting point
   * `index`: the distance covered up to the previous point, that point's
   * sample (or -1 before the first point) and the gain of the samples so far.
   */
  ghost predicate Visited(m: Math, points: seq<RoutePoint>, index: nat,
                          cumulativeDistance: real, lastElevation: real, elevationGain: real)
    requires RouteDistance(m, points) != 0.0 && index <= |points|
  {
    var profile := Profile(m, points);
    (index == 0 ==> lastElevation == -1.0 && cumulativeDistance == 0.0) &&
    (0 < index ==> cumulativeDistance == RouteDistance(m, points[..index]) && lastElevation == profile[index - 1]) &&
    elevationGain == GainSum(profile[..index])
  }

  /**
   * The callback `calculateElevationGain` hands to `forEach`, for point
   * `index`: add the segment into it to the covered distance, sample the
   * terrain there, add the climb from the previous sample.
   */
  method VisitPoint(m: Math, points: seq<RoutePoint>, index: nat, totalDistance: real, numberOfHills: real,
                    cumulativeDistance: real, lastElevation: real, elevationGain: real)
    returns (cumulativeDistance': real, lastElevation': real, elevationGain': real)
    requires totalDistance == RouteDistance(m, points) && totalDistance != 0.0
    requires numberOfHills == NumberOfHills(totalDistance)
    requires index < |points|
    requires Visited(m, points, index, cumulativeDistance, lastElevation, elevationGain)
    ensures Visited(m, points, index + 1, cumulativeDistance', lastElevation', elevationGain')
  {
    var baseElevation := 100.0;
    var hillAmplitude := 30.0;
    ghost var profile := Profile(m, points);
    cumulativeDistance' := cumulativeDistance;
    if index > 0 {
      DistanceOfPrefix(m, points, index);
      cumulativeDistance' := cumulativeDistance' + Haversine(m, points[index - 1], points[index]);
    }
    assert cumulativeDistance' == RouteDistance(m, points[..index + 1]);

    var progress := cumulativeDistance' / totalDistance;
    var hillEffect := hillAmplitude * m.sin(progress * numberOfHills * 2.0 * PI);
    var variationEffect := (hillAmplitude / 4.0) * m.sin(progress * numberOfHills * 8.0 * PI);

    var currentElevation := baseElevation + hillEffect + variationEffect;
    currentElevation := Max(20.0, currentElevation);
    assert currentElevation == profile[index] by {
      ElevationFormula(m, progress, numberOfHills);
      assert currentElevation == ElevationAt(m, progress, numberOfHills);
      ProfileSample(m, points, index);
    }

    GainUpdate(profile, index, lastElevation, elevationGain);
    elevationGain' := elevationGain;
    if lastElevation != -1.0 && currentElevation > lastElevation {
      elevationGain' := elevationGain' + (currentElevation - lastElevation);
    }
    lastElevation' := currentElevation;
  }

  /**
   * Once every point is visited, the covered distance is the whole route and
   * the rounded running gain is the gain of the route.
   */
  lemma FinishedVisit(m: Math, points: seq<RoutePoint>,
                      cumulativeDistance: real, lastElevation: real, elevationGain: real)
    requires 2 <= |points| && RouteDistance(m, points) != 0.0
    requires Visited(m, points, |points|, cumulativeDistance, lastElevation, elevationGain)
    ensures cumulativeDistance == RouteDistance(m, points)
    ensures Round(elevationGain) == ElevationGain(m, points)
  {
    assert points[..|points|] == points;
    PrefixOfAll(Profile(m, points));
  }

  /** The prefix of a sequence as long as the sequence is the sequence itself */
  lemma PrefixOfAll(e: seq<real>)
    ensures e[..|e|] == e
  {
  }

  /**
   * `calculateElevationGain`: 0 with fewer than two points or a route of
   * length 0; otherwise `forEach` visits the points in order, carrying the
   * cumulative distance, the previous elevation (with -1 as "none yet") and
   * the running gain, and the gain is rounded at the end.
   */
  method CalculateElevationGain(m: Math, points: seq<RoutePoint>) returns (gain: int)
    ensures gain == ElevationGain(m, points)
  {
    if |points| < 2 {
      return 0;
    }
    var totalDistance := CalculateDistance(m, points);
    if totalDistance == 0.0 {
      return 0;
    }
    var numberOfHills := Max(1.0, Floor(totalDistance / 2.0) as real);
    HillsOf(totalDistance);

    var elevationGain := 0.0;
    var lastElevation := -1.0;
    var cumulativeDistance := 0.0;

    for index := 0 to |points|
      invariant Visited(m, points, index, cumulativeDistance, lastElevation, elevationGain)
    {
      cumulativeDistance, lastElevation, elevationGain :=
        VisitPoint(m, points, index, totalDistance, numberOfHills, cumulativeDistance, lastElevation, elevationGain);
    }
    FinishedVisit(m, points, cumulativeDistance, lastElevation, elevationGain);
    return Round(elevationGain);
  }
}
