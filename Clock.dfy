/**
 * The clock text both time displays of the route editor print: a duration in
 * seconds split into hours, minutes and seconds, shown as `H:MM:SS` when
 * there is at least an hour and as `M:SS` otherwise.
 */
module Clock {
  import opened JsMath
  import opened JsText

  datatype Hms = Hms(hours: int, minutes: int, seconds: int)

  /** The number of whole seconds an `Hms` stands for */
  function WholeSeconds(x: Hms): int {
    x.hours * 3600 + x.minutes * 60 + x.seconds
  }

  /** `Math.floor(t / 3600)`, `Math.floor((t % 3600) / 60)` and `Math.floor(t % 60)` */
  function Split(t: real): Hms {
    Hms(Floor(t / 3600.0), Floor(Rem(t, 3600.0) / 60.0), Floor(Rem(t, 60.0)))
  }

  /**
   * For a non-negative duration the three fields of `Split` are the hours,
   * minutes and seconds of its whole seconds.
   */
  lemma SplitBounds(t: real)
    requires 0.0 <= t
    ensures var r := Split(t); 0 <= r.hours && 0 <= r.minutes < 60 && 0 <= r.seconds < 60
    ensures WholeSeconds(Split(t)) == Floor(t)
  {
    SplitOfNonNegative(t, Split(t));
  }

  /** The arithmetic behind `Split`'s contract */
  lemma SplitOfNonNegative(t: real, r: Hms)
    requires r == Hms(Floor(t / 3600.0), Floor(Rem(t, 3600.0) / 60.0), Floor(Rem(t, 60.0)))
    ensures 0.0 <= t ==> r == Hms(Floor(t) / 3600, Floor(t) % 3600 / 60, Floor(t) % 60)
    ensures 0.0 <= t ==> WholeSeconds(r) == Floor(t)
  {
    if 0.0 <= t {
      var n := Floor(t);
      FloorOverInt(t, 3600);
      FloorOverInt(t, 60);
      var x := Rem(t, 3600.0);
      assert x == t - 3600.0 * (n / 3600) as real;
      FloorUnique(x, n % 3600);
      FloorOverInt(x, 60);
      FloorUnique(Rem(t, 60.0), n % 60);
      WholeOfParts(n);
    }
  }

  /** Hours, minutes and seconds taken apart by division put back together */
  lemma WholeOfParts(n: int)
    requires 0 <= n
    ensures WholeSeconds(Hms(n / 3600, n % 3600 / 60, n % 60)) == n
  {
    var q := n % 3600;
    assert n == n / 3600 * 3600 + q;
    assert q == q / 60 * 60 + q % 60;
    assert q % 60 == n % 60;
  }

  /** The text of a split duration: `H:MM:SS` with at least an hour, `M:SS` otherwise */
  function FormatHms(x: Hms): string {
    if 0 < x.hours then
      IntToString(x.hours) + ":" + PadStart2(IntToString(x.minutes)) + ":" + PadStart2(IntToString(x.seconds))
    else
      IntToString(x.minutes) + ":" + PadStart2(IntToString(x.seconds))
  }

  /**
   * The total-time text of a distance at a pace: "0:00" when either is 0,
   * otherwise the text of `distance * pace` seconds.
   */
  function TotalTime(distance: real, pace: real): (text: string)
    ensures distance == 0.0 || pace == 0.0 ==> text == "0:00"
  {
    if distance == 0.0 || pace == 0.0 then "0:00" else FormatHms(Split(distance * pace))
  }

  /**
   * The early "0:00" agrees with the formula: a zero distance or pace makes
   * zero seconds, which print as "0:00" too, so the total-time text is
   * always the clock text of `distance * pace`.
   */
  lemma GuardAgrees(distance: real, pace: real)
    ensures TotalTime(distance, pace) == FormatHms(Split(distance * pace))
  {
    if distance == 0.0 || pace == 0.0 {
      ZeroProduct(distance, pace);
      SplitOfZero();
      ZeroClock();
    }
  }

  /** Zero seconds split into zero hours, minutes and seconds */
  lemma SplitOfZero()
    ensures Split(0.0) == Hms(0, 0, 0)
  {
    assert Rem(0.0, 3600.0) == 0.0 && Rem(0.0, 60.0) == 0.0;
  }

  /** Zero seconds print as "0:00", the text the displays give for a route of no length or no pace */
  lemma ZeroClock()
    ensures FormatHms(Hms(0, 0, 0)) == "0:00"
  {
    assert IntToString(0) == "0";
  }

  /** Two decimal digits of a number below 100 */
  function TwoDigitsOf(n: int): string
    requires 0 <= n < 100
  {
    [DigitChar(n / 10), DigitChar(n % 10)]
  }

  /**
   * The clock text of a non-negative duration, from its whole seconds `n`:
   * hours, then minutes and seconds as two digits each, when it lasts an hour
   * or more; minutes and seconds as two digits otherwise.
   */
  function ClockText(t: real): string
    requires 0.0 <= t
  {
    var n := Floor(t);
    if 3600.0 <= t then
      NatToString(n / 3600) + ":" + TwoDigitsOf(n % 3600 / 60) + ":" + TwoDigitsOf(n % 60)
    else
      NatToString(n / 60) + ":" + TwoDigitsOf(n % 60)
  }

  /** What the displays print for a non-negative duration is its clock text */
  lemma FormatOfDuration(t: real)
    requires 0.0 <= t
    ensures FormatHms(Split(t)) == ClockText(t)
  {
    var n := Floor(t);
    SplitOfNonNegative(t, Split(t));
    if 3600.0 <= t {
      assert 3600 <= n;
      LongReading(n / 3600, n % 3600 / 60, n % 60);
    } else {
      assert n < 3600 && n / 3600 == 0 && n % 3600 == n;
      ShortReading(n / 60, n % 60);
    }
  }

  /** A reading of at least an hour prints its hours, then minutes and seconds as two digits each */
  lemma LongReading(h: int, m: int, s: int)
    requires 0 < h && 0 <= m < 60 && 0 <= s < 60
    ensures FormatHms(Hms(h, m, s)) == NatToString(h) + ":" + TwoDigitsOf(m) + ":" + TwoDigitsOf(s)
  {
    TwoDigits(m);
    TwoDigits(s);
  }

  /** A reading under an hour prints its minutes, then its seconds as two digits */
  lemma ShortReading(m: int, s: int)
    requires 0 <= m && 0 <= s < 60
    ensures FormatHms(Hms(0, m, s)) == NatToString(m) + ":" + TwoDigitsOf(s)
  {
    TwoDigits(s);
  }

  /** At a positive distance and pace the total time is the clock text of their product */
  lemma TotalTimeText(distance: real, pace: real)
    requires 0.0 < distance && 0.0 < pace
    ensures 0.0 < distance * pace && TotalTime(distance, pace) == ClockText(distance * pace)
  {
    PositiveProduct(distance, pace);
    FormatOfDuration(distance * pace);
  }

  /** A product of two positive numbers is positive */
  lemma PositiveProduct(x: real, y: real)
    requires 0.0 < x && 0.0 < y
    ensures 0.0 < x * y
  {
  }

  /** An `Hms` whose minutes and seconds are below 60 is the split of the seconds it stands for */
  lemma SplitOfWholeSeconds(x: Hms)
    requires 0 <= x.hours && 0 <= x.minutes < 60 && 0 <= x.seconds < 60
    ensures Split(WholeSeconds(x) as real) == x
  {
    var n := WholeSeconds(x);
    SplitOfNonNegative(n as real, Split(n as real));
    assert Floor(n as real) == n;
    assert n / 3600 == x.hours && n % 3600 == x.minutes * 60 + x.seconds;
    assert n % 60 == x.seconds;
  }

  /** A distance and a pace whose product is the whole seconds of a clock reading print that reading */
  lemma TotalTimeOfWholeSeconds(distance: real, pace: real, x: Hms)
    requires 0 <= x.hours && 0 <= x.minutes < 60 && 0 <= x.seconds < 60
    requires distance * pace == WholeSeconds(x) as real
    ensures TotalTime(distance, pace) == FormatHms(x)
  {
    GuardAgrees(distance, pace);
    SplitOfWholeSeconds(x);
  }

  /** A distance and a pace whose product is a non-negative duration print that duration's clock text */
  lemma TotalTimeOfProduct(distance: real, pace: real, t: real)
    requires 0.0 <= t && distance * pace == t
    ensures TotalTime(distance, pace) == ClockText(t)
  {
    GuardAgrees(distance, pace);
    FormatOfDuration(t);
  }
}
