# Fake The Run — route statistics and pace calculator, modelled in Dafny

The route editor of Fake The Run lets a runner draw a path on a map. It then
shows statistics about that path and exports it as a GPX track. This project
models the arithmetic behind those statistics, component by component.

- **Route distance.** The editor sums a haversine term, with an Earth radius
  of 6371 km, over each pair of consecutive points. `Route.RouteDistance`
  is that sum. The statistics panel (`RouteStats.CalculateDistance`) and the
  editor page (`CreateRoutePage.Page.CalculateDistance`) each run their own
  copy of the loop. Both methods are proved equal to `RouteDistance`, so the
  footer and the panel always show the same number.
- **Synthetic terrain and elevation gain.** The terrain has a hill wave plus
  a ripple of four times its frequency and a quarter of its height. It is
  floored at 20 m, scaled by the share of the route covered, with one hill per
  two kilometres. `RouteStats.Profile` is the elevation sampled at each point.
  `RouteStats.ElevationGain` sums the climbs between samples and rounds once.
  The `forEach` loop of the panel (`CalculateElevationGain`, with the
  callback `VisitPoint`) is proved to compute that gain. Its `-1` "no previous
  sample" sentinel is handled inside the proof.
- **Clock text.** A duration is split into hours, minutes and seconds
  (`Clock.Split`) and printed as `H:MM:SS` or `M:SS` (`Clock.FormatHms`).
  Both time displays do this: the panel's estimated time and the calculator's
  total time. `Clock.TotalTime` adds their `"0:00"` guard.
- **Pace calculator.** `PaceCalculator.Calculator` is the component's state.
  Its `RunEffect` models the effect that derives the pace (seconds per
  kilometre) from either the typed pace or the target time, then hands it on.
  The setters model the `parseInt(value) || 0` input fields.
- **The page.** `CreateRoutePage.Page` holds what the editor page stores:
  - its initial state;
  - its own distance loop;
  - the empty-route guard of the export;
  - the round trip in which the page's distance goes to the calculator and the
    derived pace comes back (`ApplyPace`).

JavaScript numbers are modelled as exact reals. The model writes out
`Math.floor`, `Math.round` (round half up), `Math.max` and the remainder
operator `%` (truncating, with the sign of the dividend). `Math.sin`,
`Math.cos`, `Math.atan2` and `Math.sqrt` are the fields of a `JsMath.Math`
value that every caller passes in, so nothing is assumed about them. A lemma
that needs a fact about them names it in its `requires`:
- a square root is never negative;
- `atan2` of two non-negative numbers is non-negative;
- `sin(0) = 0`;
- `sin` is odd;
- `sin` is bounded by 1.

`toString()`, `padStart(2, '0')` and `parseInt` are modelled on strings in
`JsText`.

Two points about the code's structure:
- The code repeats the distance loop in `RouteStats.tsx` and
  `CreateRoutePage.tsx`, and the clock formatting in `RouteStats.tsx` and
  `PaceCalculator.tsx`. The model keeps each copy as its own member and proves
  the copies agree.
- `calculateElevationGain` returns 0 for a route of length 0 before any
  progress is computed, so it never divides by a zero length.

## Model

| member | source | states |
|---|---|---|
| JsMath.Floor | src/components/RouteStats.tsx:44-46 | `Math.floor` is the greatest integer not above its argument |
| JsMath.Rem | src/components/RouteStats.tsx:45-46 | `%` has the truncating quotient, so a non-negative dividend leaves a remainder in [0, divisor) |
| JsMath.Round | src/components/RouteStats.tsx:96 | `Math.round` is the integer within half a unit, a half rounding up |
| JsMath.Max | src/components/RouteStats.tsx:62 | `Math.max` is at least both arguments and is one of them |
| JsText.NatToString | src/components/RouteStats.tsx:49-51 | `toString()` of a non-negative integer is a non-empty run of decimal digits, with no leading zero |
| JsText.IntToString | src/components/RouteStats.tsx:49-51 | `toString()` of an integer is non-empty and starts with `-` exactly when the integer is negative |
| JsText.PadStart2 | src/components/RouteStats.tsx:49-51 | `padStart(2, '0')` keeps a string of two or more characters and otherwise pads it with zeros at the front to length 2 |
| JsText.TwoDigits | src/components/RouteStats.tsx:49-51 | a number below 100, padded, is its tens digit followed by its units digit |
| JsText.ParseInt | src/components/PaceCalculator.tsx:92 | `parseInt(value)`: white space skipped, an optional sign, then the longest run of digits, or `None` for NaN; see ParseUnsignedDigits, ParseNegativeDigits and ParseIntOfToString |
| JsText.ParseIntOrZero | src/components/PaceCalculator.tsx:92 | `parseInt(value) \|\| 0`: NaN becomes 0; see ParseIntOfToString and NoDigitsIsZero |
| JsText.LeadingWhitespace | src/components/PaceCalculator.tsx:92 | `parseInt` skips exactly the run of white space at the start of the field |
| JsText.DigitRun | src/components/PaceCalculator.tsx:92 | `parseInt` reads the longest run of digits of the radix and stops at the first non-digit |
| JsText.ParseMagnitude | src/components/PaceCalculator.tsx:92 | the unsigned part of `parseInt` is never negative |
| JsText.MagnitudeOfDigits | src/components/PaceCalculator.tsx:92 | a string of decimal digits has the value its digits spell |
| JsText.ParseUnsignedDigits | src/components/PaceCalculator.tsx:92 | `parseInt` of decimal digits is their value |
| JsText.ParseNegativeDigits | src/components/PaceCalculator.tsx:92 | `parseInt` of a minus sign and decimal digits is the negated value |
| JsText.ParseIntOfToString | src/components/PaceCalculator.tsx:91-92 | the number a field shows, read back through `parseInt(...) \|\| 0`, is that number |
| JsText.NoDigitsIsZero | src/components/PaceCalculator.tsx:92 | a field holding no digit reads as 0 |
| Clock.Split | src/components/RouteStats.tsx:43-46 | the hours, minutes and seconds of a duration, by `Math.floor` and `%`; see SplitBounds and SplitOfWholeSeconds |
| Clock.FormatHms | src/components/RouteStats.tsx:48-51 | `H:MM:SS` when there is an hour or more, `M:SS` otherwise; see FormatOfDuration, LongReading and ShortReading |
| Clock.SplitBounds | src/components/RouteStats.tsx:43-46 | for a non-negative duration, minutes and seconds are in [0, 60) and hours·3600 + minutes·60 + seconds is the floor of the duration |
| Clock.TotalTime | src/components/RouteStats.tsx:40-41 | the total time is "0:00" when the distance or the pace is 0 |
| Clock.GuardAgrees | src/components/RouteStats.tsx:39-52 | the early "0:00" is what the formula prints for 0 seconds, so the text is always the clock text of distance·pace |
| Clock.ZeroClock | src/components/RouteStats.tsx:51 | 0 seconds print as "0:00" |
| Clock.FormatOfDuration | src/components/RouteStats.tsx:43-51 | for a non-negative duration the text is `H:MM:SS` of its whole seconds with at least an hour, and `M:SS` otherwise |
| Clock.LongReading | src/components/RouteStats.tsx:48-49 | a reading of at least an hour prints as hours, then two-digit minutes and two-digit seconds |
| Clock.ShortReading | src/components/RouteStats.tsx:51 | a reading under an hour prints as minutes, then two-digit seconds |
| Clock.TotalTimeOfProduct | src/components/PaceCalculator.tsx:40-52 | a distance and pace whose product is a non-negative duration print that duration's clock text |
| Clock.TotalTimeText | src/components/RouteStats.tsx:39-52 | at a positive distance and pace the estimated time is the clock text of their product |
| Clock.SplitOfWholeSeconds | src/components/RouteStats.tsx:43-46 | a reading whose minutes and seconds are below 60 is the split of the seconds it stands for |
| Clock.TotalTimeOfWholeSeconds | src/components/PaceCalculator.tsx:40-52 | a distance and pace whose product is the seconds of a reading print that reading |
| Route.HalfChord | src/components/RouteStats.tsx:69-76 | the `a` of the haversine formula for two points; see HalfChordSymmetric |
| Route.Haversine | src/components/RouteStats.tsx:69-76 | the 6371 km haversine distance of two points; see HaversineNonNegative and HaversineSymmetric |
| Route.RouteDistance | src/components/RouteStats.tsx:19-35 | the distance is 0 for fewer than two points; otherwise it is the sum of the segment terms |
| Route.HaversineNonNegative | src/components/RouteStats.tsx:69-76 | no segment term is negative, given non-negative square roots and `atan2` |
| Route.DistanceOfAppend | src/components/pages/CreateRoutePage.tsx:37-47 | appending a point adds the term of the segment from the last point to it |
| Route.DistanceGrowsOnAppend | src/components/pages/CreateRoutePage.tsx:37-47 | drawing one more point never shortens the route |
| Route.DistanceNonNegative | src/components/RouteStats.tsx:19-35 | a route is never shorter than 0 km |
| Route.PrefixNoLonger | src/components/pages/CreateRoutePage.tsx:37-47 | every prefix of a route is at most as long as the route |
| Route.TwoPointRoute | src/components/RouteStats.tsx:19-35 | a two-point route is as long as its one segment |
| Route.DistanceFromFront | src/components/RouteStats.tsx:19-35 | the same distance, summed from the first segment on |
| Route.HalfChordSymmetric | src/components/RouteStats.tsx:69-76 | the haversine of the central angle is the same in both directions when `sin` is odd |
| Route.HaversineSymmetric | src/components/RouteStats.tsx:69-76 | a segment is as long in both directions when `sin` is odd |
| Route.DistanceOfReverse | src/components/RouteStats.tsx:19-35 | a route walked backwards is as long as the route |
| RouteStats.CalculateDistance | src/components/RouteStats.tsx:19-35 | the loop returns the route distance: 0 below two points, the sum of the 6371 km haversine terms otherwise |
| RouteStats.SegmentStep | src/components/RouteStats.tsx:23-33 | one turn of the loop extends the distance of the first i points to the first i + 1 |
| RouteStats.DistanceOfPrefix | src/components/RouteStats.tsx:79-81 | adding the segment into point i extends the covered distance by that segment |
| RouteStats.EstimatedTime | src/components/RouteStats.tsx:39-52 | the estimated time is the total-time text of the route distance at the pace, and "0:00" with fewer than two points or pace 0 |
| RouteStats.NumberOfHills | src/components/RouteStats.tsx:62 | there is at least one hill, as a whole number; below 2 km there is exactly one, and from 2 km on there is one hill per full 2 km |
| RouteStats.ElevationAt | src/components/RouteStats.tsx:83-88 | the terrain is never below 20 m |
| RouteStats.ElevationAtStart | src/components/RouteStats.tsx:83-88 | at progress 0 the terrain is exactly the 100 m base, given `sin(0) = 0` |
| RouteStats.ElevationWithinWaves | src/components/RouteStats.tsx:83-88 | with `sin` bounded by 1 the terrain stays in [62.5, 137.5] m, so the 20 m floor never takes effect |
| RouteStats.Profile | src/components/RouteStats.tsx:78-88 | there is one sample per point, and each is at least 20 m |
| RouteStats.ProfileSample | src/components/RouteStats.tsx:79-88 | sample i is the terrain at the share of the route covered up to point i |
| RouteStats.ProfileStartsAtBase | src/components/RouteStats.tsx:66-88 | the first point has covered distance 0 and so elevation exactly 100 m |
| RouteStats.ProfileEndsAtFullProgress | src/components/RouteStats.tsx:58-88 | the last point has covered the whole distance, so it is sampled at progress 1 |
| RouteStats.Rise | src/components/RouteStats.tsx:90-92 | a sample adds a climb that is at least 0 and at least its difference from the previous sample |
| RouteStats.GainSum | src/components/RouteStats.tsx:90-93 | the sum of the climbs between consecutive samples, before rounding; see GainSumStep, GainSumNonNegative and GainSumAtLeastNetRise |
| RouteStats.GainSumStep | src/components/RouteStats.tsx:90-93 | each later sample adds its climb from the previous sample to the gain |
| RouteStats.GainSumNonNegative | src/components/RouteStats.tsx:90-93 | the unrounded gain is never negative |
| RouteStats.GainSumAtLeastNetRise | src/components/RouteStats.tsx:90-93 | the unrounded gain is at least the last sample minus the first |
| RouteStats.GainSumOfDescent | src/components/RouteStats.tsx:90-93 | a profile that never climbs gains nothing |
| RouteStats.ElevationGain | src/components/RouteStats.tsx:55-97 | the gain is 0 with fewer than two points or a route of length 0, and is never negative |
| RouteStats.ElevationGainAtLeastNetRise | src/components/RouteStats.tsx:90-96 | the rounded gain is at least the rounded net climb from the first point to the last |
| RouteStats.GainUpdate | src/components/RouteStats.tsx:65-93 | since no sample equals the `-1` sentinel, the first sample adds nothing and each later one adds its climb |
| RouteStats.VisitPoint | src/components/RouteStats.tsx:78-94 | the callback for point index extends the covered distance, last elevation and gain from the first `index` points to the first `index + 1` |
| RouteStats.FinishedVisit | src/components/RouteStats.tsx:58-96 | after the last point the covered distance is the whole distance, and the running gain rounds to the route's gain |
| RouteStats.CalculateElevationGain | src/components/RouteStats.tsx:55-97 | the loop returns the route's elevation gain, including 0 for the two degenerate guards |
| PaceCalculator.TargetSeconds | src/components/PaceCalculator.tsx:18 | the seconds of a target time, hours·3600 + minutes·60 + seconds; see TimeModeRoundTrip |
| PaceCalculator.TargetSecondsAsReading | src/components/PaceCalculator.tsx:18 | a target time stands for as many seconds as the clock reading with the same hours, minutes and seconds |
| PaceCalculator.PaceSeconds | src/components/PaceCalculator.tsx:23 | the seconds per kilometre of a typed pace, minutes·60 + seconds; see FormatPaceOfEntry |
| PaceCalculator.DerivedPace | src/components/PaceCalculator.tsx:16-27 | in pace mode the pace is minutes·60 + seconds; in time mode at distance > 0 the pace times the distance is the target seconds; in time mode at distance ≤ 0 there is no pace |
| PaceCalculator.FormatPace | src/components/PaceCalculator.tsx:29-33 | `formatPace`: the whole minutes, a colon, and the whole seconds left over padded to two digits; see FormatPaceOfWholeSeconds |
| PaceCalculator.FormatPaceOfWholeSeconds | src/components/PaceCalculator.tsx:29-33 | for a non-negative pace the text is the whole minutes and the whole seconds left over (below 60) as two digits |
| PaceCalculator.FormatPaceOfEntry | src/components/PaceCalculator.tsx:23-33 | the pace display shows back the minutes and seconds typed in pace mode |
| PaceCalculator.SpeedFromPace | src/components/PaceCalculator.tsx:35-38 | the speed is 0 for pace 0, and otherwise speed·pace = 3600 |
| PaceCalculator.SpeedOfSpeed | src/components/PaceCalculator.tsx:35-38 | applied twice, the pace-to-speed conversion gives the pace back |
| PaceCalculator.TimeModeRoundTrip | src/components/PaceCalculator.tsx:17-52 | in time mode at distance > 0, when its minutes and seconds are below 60, the derived pace run back through the total-time display prints the target time that was typed |
| PaceCalculator.TimeModeClockText | src/components/PaceCalculator.tsx:17-52 | in time mode at distance > 0, for any non-negative target, including minutes or seconds of 60 or more, the total-time display prints the clock text of the target's seconds |
| PaceCalculator.Calculator.constructor | src/components/PaceCalculator.tsx:11-14 | the calculator starts in pace mode, with target 0:30:00, pace 5:30 per km, pace 0 and nothing handed on |
| PaceCalculator.Calculator.RunEffect | src/components/PaceCalculator.tsx:16-27 | the derived pace, when there is one, becomes the pace and is handed on once; otherwise nothing changes; the inputs stay as they are |
| PaceCalculator.Calculator.SetPaceMode | src/components/PaceCalculator.tsx:59-69 | the buttons set the mode and nothing else |
| PaceCalculator.Calculator.SetAverageMinutes | src/components/PaceCalculator.tsx:92 | the minutes of the pace become `parseInt(value) \|\| 0`, and everything else stays |
| PaceCalculator.Calculator.SetAverageSeconds | src/components/PaceCalculator.tsx:102 | the seconds of the pace become `parseInt(value) \|\| 0`, and everything else stays |
| PaceCalculator.Calculator.SetTargetHours | src/components/PaceCalculator.tsx:121 | the target hours become `parseInt(value) \|\| 0`, and everything else stays |
| PaceCalculator.Calculator.SetTargetMinutes | src/components/PaceCalculator.tsx:131 | the target minutes become `parseInt(value) \|\| 0`, and everything else stays |
| PaceCalculator.Calculator.SetTargetSeconds | src/components/PaceCalculator.tsx:141 | the target seconds become `parseInt(value) \|\| 0`, and everything else stays |
| PaceCalculator.Calculator.CalculateTotalTime | src/components/PaceCalculator.tsx:40-52 | the calculator's copy of the time code prints the same text as the statistics panel's, for the same distance and pace |
| CreateRoutePage.Page.constructor | src/components/pages/CreateRoutePage.tsx:25-32 | drawing on, waypoints shown, running, no points, pace 360, an empty name and description, the statistics tab, no banner and no export |
| CreateRoutePage.Page.CalculateDistance | src/components/pages/CreateRoutePage.tsx:34-49 | the page's own loop returns the route distance, 0 below two points |
| CreateRoutePage.Page.ShownDistances | src/components/pages/CreateRoutePage.tsx:34-49 | the page's loop and the panel's loop give the same distance for the current points |
| CreateRoutePage.Page.HandleExport | src/components/pages/CreateRoutePage.tsx:51-62 | an empty route exports nothing and leaves the banner alone; otherwise the export runs once with the points, activity, details and pace, and the banner is shown |
| CreateRoutePage.Page.SetRoutePoints | src/components/pages/CreateRoutePage.tsx:153 | the map's new points replace the route, and nothing else changes |
| CreateRoutePage.Page.SetPace | src/components/pages/CreateRoutePage.tsx:243 | the calculator's pace replaces the page's, and nothing else changes |
| CreateRoutePage.Page.ApplyPace | src/components/pages/CreateRoutePage.tsx:240-243 | with the settings tab open (the only tab on which the calculator is mounted), the page's pace becomes the derived pace for the page's distance, and the calculator's pace and handed-on paces record it once; when there is none, the page's and the calculator's paces and the handed-on paces stay; the calculator then prints the same total time as the panel; in time mode at distance > 0, when its minutes and seconds are below 60, that text is the target time |

## Left out

- The GPX export (`exportToGPX`, from `../../utils/gpxExport`) and the map (`MapCanvas`) lie outside the statistics core, so `HandleExport` records the call and its arguments instead.
- `toFixed(2)` of the distance and `toFixed(1)` of the speed are not modelled, because they are decimal rounding of floating-point numbers. `SpeedFromPace` is the value before `toFixed(1)`, and its `"0.0"` case is the value 0.
- IEEE floating point is not modelled: numbers are exact reals, and `sin`, `cos`, `atan2` and `sqrt` are uninterpreted, for the accuracy reasons above.
- PaceCalculator.TimeModeRoundTrip: holds for exact reals only. With doubles, `distance * (T / distance)` can land just below `T`, and then the display prints one second less.
- `toString()` of a number that is not an integer, or whose magnitude needs exponent notation, is not modelled, because every printed value is an integer here.
- JsText.ParseInt: does not model values of 2^53 and beyond, which JavaScript rounds, or the `-0` that `parseInt("-0")` returns, because the model keeps exact integers. `|| 0` turns `-0` into 0 anyway.
- The JSX rendering, the styling and the UI-only components are not modelled because they hold no logic: the home page, the drawing tools, the activity selector and the route form.
- The `isDrawing`, `showWaypoints`, `activity`, `activeTab` and `routeDetails` setters are not modelled, because each only stores the value it gets. They are fields of `Page`.
- The `alert` on an empty route, the `catch` path of `handleExport` with `console.error`, and the `setTimeout` that hides the banner after three seconds are not modelled, because they are timing and I/O.
- CreateRoutePage.Page.ApplyPace: requires the settings tab to be open, because the page mounts the calculator only there (src/components/pages/CreateRoutePage.tsx:189-243). Unmounting it on a switch to the statistics tab is not modelled: that discards the calculator's mode and inputs, and on the next opening it starts again from `new Calculator()`. This is also why the first opening of the settings tab replaces the page's default pace of 360 with the calculator's 330.
- React's effect scheduling is not modelled, because it is timing. `RunEffect` is one run of the effect; `ApplyPace` chains the page, the calculator and the page again.
- The payment server and the disabled payment flow of the page are not modelled, because they are network I/O with a third-party SDK.
