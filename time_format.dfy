/** The watch's time arithmetic: splitting a counter into hours, minutes and
    seconds, the 12-hour clock, the HH:MM key the wall-clock alarm compares,
    and the parsing of the HH:MM and HH:MM:SS configuration strings. */
module TimeFormat {
  import opened JsValues

  datatype Hms = Hms(hours: int, minutes: int, seconds: int)

  /** A wall-clock reading, as `new Date()` gives it */
  datatype WallTime = WallTime(hours: int, minutes: int, seconds: int)

  predicate ValidWallTime(now: WallTime) {
    0 <= now.hours < 24 && 0 <= now.minutes < 60 && 0 <= now.seconds < 60
  }

  /** `a % b` in JavaScript for b > 0: the remainder takes the sign of the dividend */
  function JsRem(a: int, b: int): (r: int)
    requires b > 0
    ensures a >= 0 ==> 0 <= r < b
    ensures a < 0 ==> -b < r <= 0
  {
    if a >= 0 then a % b else -((-a) % b)
  }

  /** The fields of a stopwatch or timer display: `Math.floor(t / 3600)`,
      `Math.floor((t % 3600) / 60)` and `t % 60` (Dafny's division by a
      positive divisor is the floor). */
  function SplitSeconds(t: int): (r: Hms)
    ensures t >= 0 ==> 0 <= r.hours && 0 <= r.minutes < 60 && 0 <= r.seconds < 60
    ensures t >= 0 ==> r.hours * 3600 + r.minutes * 60 + r.seconds == t
    ensures t < 0 ==> r.hours < 0 && r.minutes <= 0 && -60 < r.seconds <= 0
  {
    Hms(t / 3600, JsRem(t, 3600) / 60, JsRem(t, 60))
  }

  /** Euclidean division is determined by quotient and remainder */
  lemma DivModUnique(x: int, b: int, q: int, r: int)
    requires b > 0 && 0 <= r < b && x == q * b + r
    ensures x / b == q && x % b == r
  {
    var q2, r2 := x / b, x % b;
    assert (q - q2) * b == r2 - r;
    if q > q2 {
      MulAtLeast(q - q2, b);
    } else if q < q2 {
      MulAtLeast(q2 - q, b);
    }
  }

  lemma MulAtLeast(k: int, b: int)
    requires k >= 1 && b > 0
    ensures k * b >= b
  {
  }

  /** Splitting is the inverse of composing hours, minutes and seconds */
  lemma SplitSecondsOfHms(h: nat, m: nat, s: nat)
    requires m < 60 && s < 60
    ensures SplitSeconds(h * 3600 + m * 60 + s) == Hms(h, m, s)
  {
    var t := h * 3600 + m * 60 + s;
    assert m * 60 + s < 3600;
    DivModUnique(t, 3600, h, m * 60 + s);
    DivModUnique(m * 60 + s, 60, m, s);
    DivModUnique(t, 60, h * 60 + m, s);
  }

  /** The stopwatch and timer display `HH:MM:SS` */
  function CounterText(t: int): string {
    var r := SplitSeconds(t);
    PadStart2(r.hours) + ":" + PadStart2(r.minutes) + ":" + PadStart2(r.seconds)
  }

  predicate IsPm(hours: int) {
    hours >= 12
  }

  /** `hours % 12 || 12`: the 12-hour clock face, always 1..12, and
      together with the AM/PM marker it determines the 24-hour hour. */
  function Hour12(hours: int): (r: int)
    requires 0 <= hours < 24
    ensures 1 <= r <= 12
    ensures r % 12 + (if IsPm(hours) then 12 else 0) == hours
  {
    if hours % 12 == 0 then 12 else hours % 12
  }

  /** Two readings that show the same 12-hour face and marker are the same hour */
  lemma Hour12Injective(a: int, b: int)
    requires 0 <= a < 24 && 0 <= b < 24
    requires Hour12(a) == Hour12(b) && IsPm(a) == IsPm(b)
    ensures a == b
  {
  }

  /** `HH:MM`, the key the wall-clock alarm compares with the configured alarm time */
  function AlarmKey(hours: nat, minutes: nat): string {
    Pad2(hours) + ":" + Pad2(minutes)
  }

  /** The clock display: 12- or 24-hour face, optional seconds, AM/PM marker */
  function ClockText(now: WallTime, format24h: bool, showSeconds: bool): (text: string)
    requires ValidWallTime(now)
    ensures |text| >= 5
    ensures format24h && !showSeconds ==> text == AlarmKey(now.hours, now.minutes)
    ensures format24h ==> text[..5] == AlarmKey(now.hours, now.minutes)
    ensures !format24h ==> text[|text| - 2..] == (if IsPm(now.hours) then "PM" else "AM")
  {
    var face := if format24h then now.hours else Hour12(now.hours);
    var text := AlarmKey(face, now.minutes)
      + (if showSeconds then ":" + Pad2(now.seconds) else "")
      + (if format24h then "" else if IsPm(now.hours) then " PM" else " AM");
    assert AlarmKey(face, now.minutes) <= text;
    text
  }

  /** `const [hours, minutes] = s.split(':').map(Number); hours * 60 + minutes` */
  function MinutesSinceMidnight(s: string): Num {
    var parts := Split(s, ':');
    Add(Scale(NumberAt(parts, 0), 60), NumberAt(parts, 1))
  }

  /** `const [hours, minutes, seconds] = s.split(':').map(Number);
      hours * 3600 + minutes * 60 + (seconds || 0)` */
  function StopwatchAlarmSeconds(s: string): Num {
    var parts := Split(s, ':');
    Add(Add(Scale(NumberAt(parts, 0), 3600), Scale(NumberAt(parts, 1), 60)),
        Int(OrInt(NumberAt(parts, 2), 0)))
  }

  lemma Pad2Free(n: nat)
    ensures Free(Pad2(n), ':')
    ensures ToNumber(Pad2(n)) == Int(n)
  {
  }

  /** The configured HH:MM alarm string denotes the minute of the day it spells */
  lemma AlarmKeyMinutes(hours: nat, minutes: nat)
    ensures MinutesSinceMidnight(AlarmKey(hours, minutes)) == Int(hours * 60 + minutes)
  {
    Pad2Free(hours);
    Pad2Free(minutes);
    SplitAfter(Pad2(hours), ':', Pad2(minutes));
    SplitFree(Pad2(minutes), ':');
  }

  /** Two HH:MM keys are equal exactly when their hours and minutes are */
  lemma AlarmKeyInjective(h1: nat, m1: nat, h2: nat, m2: nat)
    ensures AlarmKey(h1, m1) == AlarmKey(h2, m2) <==> h1 == h2 && m1 == m2
  {
    if AlarmKey(h1, m1) == AlarmKey(h2, m2) {
      Pad2Free(h1);
      Pad2Free(m1);
      Pad2Free(h2);
      Pad2Free(m2);
      SplitAfter(Pad2(h1), ':', Pad2(m1));
      SplitFree(Pad2(m1), ':');
      SplitAfter(Pad2(h2), ':', Pad2(m2));
      SplitFree(Pad2(m2), ':');
      assert Split(AlarmKey(h1, m1), ':') == [Pad2(h1), Pad2(m1)];
      assert Split(AlarmKey(h2, m2), ':') == [Pad2(h2), Pad2(m2)];
      Pad2Injective(h1, h2);
      Pad2Injective(m1, m2);
    }
  }

  /** A stopwatch alarm given as HH:MM:SS is that many seconds */
  lemma StopwatchAlarmSecondsOfKey(h: nat, m: nat, s: nat)
    ensures StopwatchAlarmSeconds(AlarmKey(h, m) + ":" + Pad2(s)) == Int(h * 3600 + m * 60 + s)
  {
    var key := AlarmKey(h, m) + ":" + Pad2(s);
    Pad2Free(h);
    Pad2Free(m);
    Pad2Free(s);
    var tail := Pad2(m) + [':'] + Pad2(s);
    assert Split(tail, ':') == [Pad2(m)] + [Pad2(s)] by {
      SplitAfter(Pad2(m), ':', Pad2(s));
      SplitFree(Pad2(s), ':');
    }
    assert Split(key, ':') == [Pad2(h)] + Split(tail, ':') by {
      assert key == Pad2(h) + [':'] + tail;
      SplitAfter(Pad2(h), ':', tail);
    }
  }

  /** A stopwatch alarm given as HH:MM has no seconds part, which counts as 0 */
  lemma StopwatchAlarmSecondsOfShortKey(h: nat, m: nat)
    ensures StopwatchAlarmSeconds(AlarmKey(h, m)) == Int(h * 3600 + m * 60)
  {
    Pad2Free(h);
    Pad2Free(m);
    SplitAfter(Pad2(h), ':', Pad2(m));
    SplitFree(Pad2(m), ':');
  }

  /** The stopwatch display of t, read back as a stopwatch alarm time, is t */
  lemma CounterTextRoundTrip(t: nat)
    ensures StopwatchAlarmSeconds(CounterText(t)) == Int(t)
  {
    var r := SplitSeconds(t);
    assert CounterText(t) == AlarmKey(r.hours, r.minutes) + ":" + Pad2(r.seconds);
    StopwatchAlarmSecondsOfKey(r.hours, r.minutes, r.seconds);
  }
}
