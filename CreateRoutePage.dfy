/**
 * The route editor page: it holds the drawn route and the settings, shows the
 * route's length in its footer, passes that length to the pace calculator
 * and the chosen pace to the statistics panel, and exports the route.
 */
module CreateRoutePage {
  import opened JsMath
  import opened Route
  import opened Clock
  import RouteStats
  import PaceCalculator

  datatype Activity = Run | Bike

  /** The name and description typed into the route form */
  datatype RouteDetails = RouteDetails(name: string, description: string)

  /** The two tabs of the side panel */
  datatype Tab = Stats | Settings

  /** One call of the GPX export with what the page hands it */
  datatype ExportCall = ExportCall(points: seq<RoutePoint>, activity: Activity, details: RouteDetails, pace: real)

  /** The page's state; `exports` records the calls made to the GPX export, oldest first */
  class Page {
    var isDrawing: bool
    var showWaypoints: bool
    var activity: Activity
    var routePoints: seq<RoutePoint>
    var pace: real
    var routeDetails: RouteDetails
    var showDownloadSuccess: bool
    var activeTab: Tab
    var exports: seq<ExportCall>

    /** Drawing on, waypoints shown, running, no points, 6:00 per kilometre, an empty form, the statistics tab */
    constructor ()
      ensures isDrawing && showWaypoints && activity == Run && routePoints == []
      ensures pace == 360.0 && routeDetails == RouteDetails("", "")
      ensures !showDownloadSuccess && activeTab == Stats && exports == []
    {
      isDrawing := true;
      showWaypoints := true;
      activity := Run;
      routePoints := [];
      pace := 360.0;
      routeDetails := RouteDetails("", "");
      showDownloadSuccess := false;
      activeTab := Stats;
      exports := [];
    }

    /** The page's own copy of the distance loop, over the current route */
    method CalculateDistance(m: Math) returns (totalDistance: real)
      ensures totalDistance == RouteDistance(m, routePoints)
    {
      var points := routePoints;
      if |points| < 2 {
        return 0.0;
      }
      totalDistance := 0.0;
      for i := 1 to |points|
        invariant totalDistance == RouteDistance(m, points[..i])
      {
        var R := 6371.0;
        var dLat := (points[i].lat - points[i - 1].lat) * PI / 180.0;
        var dLng := (points[i].lng - points[i - 1].lng) * PI / 180.0;
        var a := m.sin(dLat / 2.0) * m.sin(dLat / 2.0) +
          m.cos(points[i - 1].lat * PI / 180.0) * m.cos(points[i].lat * PI / 180.0) *
          m.sin(dLng / 2.0) * m.sin(dLng / 2.0);
        var c := 2.0 * m.atan2(m.sqrt(a), m.sqrt(1.0 - a));
        HalfChordOf(m, points[i - 1], points[i], dLat, dLng);
        RouteStats.SegmentStep(m, points, i, a, c);
        totalDistance := totalDistance + R * c;
      }
      assert points[..|points|] == points;
    }

    /**
     * The footer's distance and the statistics panel's distance, each from
     * its own loop over the same points: they are the same number.
     */
    method ShownDistances(m: Math) returns (footer: real, panel: real)
      ensures footer == panel && panel == RouteDistance(m, routePoints)
    {
      footer := CalculateDistance(m);
      panel := RouteStats.CalculateDistance(m, routePoints);
    }

    /**
     * `handleExport`: with no points nothing is exported and nothing changes;
     * otherwise the export is called once with the route, the activity, the
     * details and the pace, and the success banner is shown.
     */
    method HandleExport()
      modifies this
      ensures |old(routePoints)| == 0 ==> exports == old(exports) && showDownloadSuccess == old(showDownloadSuccess)
      ensures |old(routePoints)| != 0 ==>
        exports == old(exports) + [ExportCall(routePoints, activity, routeDetails, pace)] && showDownloadSuccess
      ensures isDrawing == old(isDrawing) && showWaypoints == old(showWaypoints) && activity == old(activity)
      ensures routePoints == old(routePoints) && pace == old(pace) && routeDetails == old(routeDetails)
      ensures activeTab == old(activeTab)
    {
      if |routePoints| == 0 {
        return;
      }
      exports := exports + [ExportCall(routePoints, activity, routeDetails, pace)];
      showDownloadSuccess := true;
    }

    /** `onRouteChange`: the map hands over the new list of points */
    method SetRoutePoints(points: seq<RoutePoint>)
      modifies this
      ensures routePoints == points
      ensures isDrawing == old(isDrawing) && showWaypoints == old(showWaypoints) && activity == old(activity)
      ensures pace == old(pace) && routeDetails == old(routeDetails)
      ensures showDownloadSuccess == old(showDownloadSuccess) && activeTab == old(activeTab) && exports == old(exports)
    {
      routePoints := points;
    }

    /** `onPaceChange`: the pace calculator hands over a new pace */
    method SetPace(p: real)
      modifies this
      ensures pace == p
      ensures isDrawing == old(isDrawing) && showWaypoints == old(showWaypoints) && activity == old(activity)
      ensures routePoints == old(routePoints) && routeDetails == old(routeDetails)
      ensures showDownloadSuccess == old(showDownloadSuccess) && activeTab == old(activeTab) && exports == old(exports)
    {
      pace := p;
    }

    /**
     * The round the page and the pace calculator make: the calculator's
     * effect runs on the page's distance and every pace it hands on becomes
     * the page's pace. Afterwards the calculator's total time and the
     * statistics panel's estimated time are the same text; in time mode at a
     * positive distance, that text is the target time. The calculator is
     * mounted only while the settings tab is open.
     */
    method ApplyPace(m: Math, calculator: PaceCalculator.Calculator)
      requires activeTab == Settings
      modifies this, calculator
      ensures var d := RouteDistance(m, routePoints);
        var r := PaceCalculator.DerivedPace(old(calculator.paceMode), old(calculator.targetTime), old(calculator.averagePace), d);
        (r.Some? ==> pace == r.value && calculator.pace == pace) && (r.None? ==> pace == old(pace))
      ensures var d := RouteDistance(m, routePoints);
        var r := PaceCalculator.DerivedPace(old(calculator.paceMode), old(calculator.targetTime), old(calculator.averagePace), d);
        (r.Some? ==> calculator.emitted == old(calculator.emitted) + [r.value]) &&
        (r.None? ==> calculator.pace == old(calculator.pace) && calculator.emitted == old(calculator.emitted))
      ensures calculator.paceMode == old(calculator.paceMode) && calculator.targetTime == old(calculator.targetTime)
      ensures calculator.averagePace == old(calculator.averagePace)
      ensures PaceCalculator.DerivedPace(calculator.paceMode, calculator.targetTime, calculator.averagePace,
                                        RouteDistance(m, routePoints)).Some? ==>
        calculator.CalculateTotalTime(RouteDistance(m, routePoints)) == TotalTime(RouteDistance(m, routePoints), pace)
      ensures var t := calculator.targetTime;
        calculator.paceMode == PaceCalculator.Time && 0.0 < RouteDistance(m, routePoints) &&
        0 <= t.hours && 0 <= t.minutes < 60 && 0 <= t.seconds < 60 ==>
        TotalTime(RouteDistance(m, routePoints), pace) == FormatHms(Hms(t.hours, t.minutes, t.seconds))
      ensures isDrawing == old(isDrawing) && showWaypoints == old(showWaypoints) && activity == old(activity)
      ensures routePoints == old(routePoints) && routeDetails == old(routeDetails)
      ensures showDownloadSuccess == old(showDownloadSuccess) && activeTab == old(activeTab) && exports == old(exports)
    {
      var distance := CalculateDistance(m);
      var before := |calculator.emitted|;
      calculator.RunEffect(distance);
      if |calculator.emitted| > before {
        SetPace(calculator.emitted[|calculator.emitted| - 1]);
      }
      var t := calculator.targetTime;
      if calculator.paceMode == PaceCalculator.Time && 0.0 < distance &&
         0 <= t.hours && 0 <= t.minutes < 60 && 0 <= t.seconds < 60 {
        PaceCalculator.TimeModeRoundTrip(t, calculator.averagePace, distance);
      }
    }
  }
}
