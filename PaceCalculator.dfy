/**
 * The pace calculator of the route editor. The runner either types an
 * average pace per kilometre or a target time for the whole route; an effect
 * derives the pace in seconds per kilometre from whichever is chosen and
 * hands it to the page. The calculator shows that pace, the matching speed and
 * the total time of the route at that pace.
 */
module PaceCalculator {
  import opened Wrappers
  import opened JsMath
  import opened JsText
  import opened Clock

  /** Which of the two inputs decides the pace */
  datatype PaceMode = Time | Pace

  /** The target time typed into the three "h", "m" and "s" fields */
  datatype TargetTime = TargetTime(hours: int, minutes: int, seconds: int)

  /** The average pace typed into the "min" and "sec" fields */
  datatype AveragePace = AveragePace(minutes: int, seconds: int)

  /** The seconds a target time stands for */
  function TargetSeconds(t: TargetTime): int {
    t.hours * 3600 + t.minutes * 60 + t.seconds
  }

  /** A target time counts its seconds as the clock reading with the same fields does. */
  lemma TargetSecondsAsReading(t: TargetTime)
    ensures TargetSeconds(t) == WholeSeconds(Hms(t.hours, t.minutes, t.seconds))
  {
  }

  /** The seconds per kilometre an average pace stands for */
  function PaceSeconds(a: AveragePace): int {
    a.minutes * 60 + a.seconds
  }

  /**
   * The pace the effect derives, or `None` when neither branch of the effect
   * fires: in time mode the target time spread over a positive distance, in
   * pace mode the typed pace.
   */
  function DerivedPace(mode: PaceMode, target: TargetTime, average: AveragePace, distance: real): (r: Option<real>)
    ensures mode == Pace ==> r == Some(PaceSeconds(average) as real)
    ensures mode == Time && 0.0 < distance ==> r.Some? && r.value * distance == TargetSeconds(target) as real
    ensures mode == Time && distance <= 0.0 ==> r == None
  {
    if mode == Time && distance > 0.0 then
      var p := TargetSeconds(target) as real / distance;
      assert p * distance == TargetSeconds(target) as real;
      Some(p)
    else if mode == Pace then Some(PaceSeconds(average) as real)
    else None
  }

  /**
   * `formatPace`: whole minutes, a colon, and the whole seconds left over,
   * padded to two digits.
   */
  function FormatPace(paceInSeconds: real): string {
    var minutes := Floor(paceInSeconds / 60.0);
    var seconds := Floor(Rem(paceInSeconds, 60.0));
    IntToString(minutes) + ":" + PadStart2(IntToString(seconds))
  }

  /**
   * For a non-negative pace the two numbers `formatPace` prints are the
   * minutes and seconds of its whole seconds `n`.
   */
  lemma FormatPaceOfWholeSeconds(paceInSeconds: real)
    requires 0.0 <= paceInSeconds
    ensures var n := Floor(paceInSeconds);
      FormatPace(paceInSeconds) == NatToString(n / 60) + ":" + TwoDigitsOf(n % 60)
  {
    var n := Floor(paceInSeconds);
    FloorOverInt(paceInSeconds, 60);
    SplitOfNonNegative(paceInSeconds, Split(paceInSeconds));
    TwoDigits(n % 60);
  }

  /** The pace display shows back the minutes and seconds typed in pace mode */
  lemma FormatPaceOfEntry(average: AveragePace)
    requires 0 <= average.minutes && 0 <= average.seconds < 60
    ensures FormatPace(PaceSeconds(average) as real) == NatToString(average.minutes) + ":" + TwoDigitsOf(average.seconds)
  {
    var n := PaceSeconds(average);
    FormatPaceOfWholeSeconds(n as real);
    assert Floor(n as real) == n;
    assert n / 60 == average.minutes && n % 60 == average.seconds;
  }

  /**
   * `getSpeedFromPace`, before `toFixed(1)`: 0 for a pace of 0, otherwise
   * the kilometres per hour that pace stands for.
   */
  function SpeedFromPace(paceInSeconds: real): (speed: real)
    ensures paceInSeconds == 0.0 ==> speed == 0.0
    ensures paceInSeconds != 0.0 ==> speed * paceInSeconds == 3600.0
  {
    if paceInSeconds == 0.0 then 0.0 else 3600.0 / paceInSeconds
  }

  /** Turning a speed into a pace is the same computation, so doing it twice gives the pace back */
  lemma SpeedOfSpeed(paceInSeconds: real)
    ensures SpeedFromPace(SpeedFromPace(paceInSeconds)) == paceInSeconds
  {
    var speed := SpeedFromPace(paceInSeconds);
    if paceInSeconds != 0.0 {
      assert speed != 0.0;
      var back := SpeedFromPace(speed);
      assert back * speed == paceInSeconds * speed;
      CancelFactor(back, paceInSeconds, speed);
    }
  }

  /** A non-zero factor cancels */
  lemma CancelFactor(x: real, y: real, k: real)
    requires k != 0.0 && x * k == y * k
    ensures x == y
  {
    assert (x - y) * k == 0.0;
  }

  /**
   * In time mode at a positive distance, the derived pace run back through
   * the total-time display prints the target time that was typed.
   */
  lemma TimeModeRoundTrip(target: TargetTime, average: AveragePace, distance: real)
    requires 0.0 < distance
    requires 0 <= target.hours && 0 <= target.minutes < 60 && 0 <= target.seconds < 60
    ensures var r := DerivedPace(Time, target, average, distance);
      r.Some? && TotalTime(distance, r.value) == FormatHms(Hms(target.hours, target.minutes, target.seconds))
  {
    var x := Hms(target.hours, target.minutes, target.seconds);
    var p := DerivedPace(Time, target, average, distance).value;
    TargetSecondsAsReading(target);
    assert distance * p == WholeSeconds(x) as real;
    TotalTimeOfWholeSeconds(distance, p, x);
  }

  /**
   * In time mode at a positive distance, for any non-negative target (the
   * fields accept minutes and seconds of 60 and more), the total-time display
   * prints the clock text of the target's seconds.
   */
  lemma TimeModeClockText(target: TargetTime, average: AveragePace, distance: real)
    requires 0.0 < distance
    requires 0 <= target.hours && 0 <= target.minutes && 0 <= target.seconds
    ensures var r := DerivedPace(Time, target, average, distance);
      r.Some? && TotalTime(distance, r.value) == ClockText(TargetSeconds(target) as real)
  {
    var p := DerivedPace(Time, target, average, distance).value;
    var total := TargetSeconds(target) as real;
    assert 0.0 <= total && distance * p == total;
    TotalTimeOfProduct(distance, p, total);
  }

  /**
   * The calculator's state: the mode, the two inputs, the derived pace, and
   * the paces handed to `onPaceChange` so far, oldest first.
   */
  class Calculator {
    var paceMode: PaceMode
    var targetTime: TargetTime
    var averagePace: AveragePace
    var pace: real
    var emitted: seq<real>

    /** The initial state: pace mode, 0:30:00 as target, 5:30 per kilometre as pace, no pace derived yet */
    constructor ()
      ensures paceMode == Pace && targetTime == TargetTime(0, 30, 0) && averagePace == AveragePace(5, 30)
      ensures pace == 0.0 && emitted == []
    {
      paceMode := Pace;
      targetTime := TargetTime(0, 30, 0);
      averagePace := AveragePace(5, 30);
      pace := 0.0;
      emitted := [];
    }

    /**
     * One run of the effect for the distance the page passes in: the derived
     * pace, when there is one, becomes the pace and is handed on; otherwise
     * nothing changes.
     */
    method RunEffect(distance: real)
      modifies this
      ensures paceMode == old(paceMode) && targetTime == old(targetTime) && averagePace == old(averagePace)
      ensures var r := DerivedPace(old(paceMode), old(targetTime), old(averagePace), distance);
        if r.Some? then pace == r.value && emitted == old(emitted) + [r.value]
        else pace == old(pace) && emitted == old(emitted)
    {
      if paceMode == Time && distance > 0.0 {
        var totalSeconds := targetTime.hours * 3600 + targetTime.minutes * 60 + targetTime.seconds;
        var pacePerKm := totalSeconds as real / distance;
        pace := pacePerKm;
        emitted := emitted + [pacePerKm];
      } else if paceMode == Pace {
        var paceInSeconds := averagePace.minutes * 60 + averagePace.seconds;
        pace := paceInSeconds as real;
        emitted := emitted + [paceInSeconds as real];
      }
    }

    /** The "Set Pace" and "Set Time" buttons */
    method SetPaceMode(mode: PaceMode)
      modifies this
      ensures paceMode == mode
      ensures targetTime == old(targetTime) && averagePace == old(averagePace)
      ensures pace == old(pace) && emitted == old(emitted)
    {
      paceMode := mode;
    }

    /** The "min" field of the pace: `parseInt(value) || 0` */
    method SetAverageMinutes(value: string)
      modifies this
      ensures averagePace == AveragePace(ParseIntOrZero(value), old(averagePace).seconds)
      ensures paceMode == old(paceMode) && targetTime == old(targetTime)
      ensures pace == old(pace) && emitted == old(emitted)
    {
      averagePace := averagePace.(minutes := ParseIntOrZero(value));
    }

    /** The "sec" field of the pace: `parseInt(value) || 0` */
    method SetAverageSeconds(value: string)
      modifies this
      ensures averagePace == AveragePace(old(averagePace).minutes, ParseIntOrZero(value))
      ensures paceMode == old(paceMode) && targetTime == old(targetTime)
      ensures pace == old(pace) && emitted == old(emitted)
    {
      averagePace := averagePace.(seconds := ParseIntOrZero(value));
    }

    /** The "h" field of the target time: `parseInt(value) || 0` */
    method SetTargetHours(value: string)
      modifies this
      ensures targetTime == TargetTime(ParseIntOrZero(value), old(targetTime).minutes, old(targetTime).seconds)
      ensures paceMode == old(paceMode) && averagePace == old(averagePace)
      ensures pace == old(pace) && emitted == old(emitted)
    {
      targetTime := targetTime.(hours := ParseIntOrZero(value));
    }

    /** The "m" field of the target time: `parseInt(value) || 0` */
    method SetTargetMinutes(value: string)
      modifies this
      ensures targetTime == TargetTime(old(targetTime).hours, ParseIntOrZero(value), old(targetTime).seconds)
      ensures paceMode == old(paceMode) && averagePace == old(averagePace)
      ensures pace == old(pace) && emitted == old(emitted)
    {
      targetTime := targetTime.(minutes := ParseIntOrZero(value));
    }

    /** The "s" field of the target time: `parseInt(value) || 0` */
    method SetTargetSeconds(value: string)
      modifies this
      ensures targetTime == TargetTime(old(targetTime).hours, old(targetTime).minutes, ParseIntOrZero(value))
      ensures paceMode == old(paceMode) && averagePace == old(averagePace)
      ensures pace == old(pace) && emitted == old(emitted)
    {
      targetTime := targetTime.(seconds := ParseIntOrZero(value));
    }

    /**
     * `calculateTotalTime`: a copy of the statistics panel's estimated-time
     * code, applied to the calculator's own pace; it prints the same text.
     */
    function CalculateTotalTime(distance: real): (text: string)
      reads this
      ensures text == TotalTime(distance, pace)
    {
      if distance == 0.0 || pace == 0.0 then "0:00"
      else
        var totalSeconds := distance * pace;
        var hours := Floor(totalSeconds / 3600.0);
        var minutes := Floor(Rem(totalSeconds, 3600.0) / 60.0);
        var seconds := Floor(Rem(totalSeconds, 60.0));
        assert Split(totalSeconds) == Hms(hours, minutes, seconds);
        GuardAgrees(distance, pace);
        if hours > 0 then
          IntToString(hours) + ":" + PadStart2(IntToString(minutes)) + ":" + PadStart2(IntToString(seconds))
        else
          IntToString(minutes) + ":" + PadStart2(IntToString(seconds))
    }
  }
}
