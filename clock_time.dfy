/**
 * Reading the start and end of an activity as `HH:MM` and the logged
 * duration `(end - start).seconds / 60` (production_tracker.py:131-134).
 */
module ClockTime {
  import opened Wrappers
  import opened Text

  const MinutesPerDay: nat := 1440
  const SecondsPerDay: nat := 86400

  /** What `datetime.strptime(s, "%H:%M")` keeps of the input: the time of day. */
  datatype Clock = Clock(hour: nat, minute: nat)

  predicate ValidClock(c: Clock) {
    c.hour < 24 && c.minute < 60
  }

  /** One `%H` or `%M` field: one or two ASCII digits whose value does not exceed `max`. */
  function ParseField(s: string, max: nat): Option<nat> {
    if |s| == 1 && IsDigit(s[0]) && DigitValue(s[0]) <= max then
      Some(DigitValue(s[0]))
    else if |s| == 2 && IsDigit(s[0]) && IsDigit(s[1]) && 10 * DigitValue(s[0]) + DigitValue(s[1]) <= max then
      Some(10 * DigitValue(s[0]) + DigitValue(s[1]))
    else
      None
  }

  /**
   * `strptime(s, "%H:%M")`: the hour field is one digit or two digits up to 23,
   * then a colon, then a minute field of one digit or two digits up to 59, and
   * nothing after it. `None` stands for the `ValueError`.
   */
  function ParseClock(s: string): (r: Option<Clock>)
    ensures r.Some? ==> ValidClock(r.value)
  {
    var colon := if |s| >= 2 && s[1] == ':' then 1 else if |s| >= 3 && s[2] == ':' then 2 else 0;
    if colon == 0 then None
    else
      match (ParseField(s[..colon], 23), ParseField(s[colon + 1..], 59))
      case (Some(h), Some(m)) => Some(Clock(h, m))
      case _ => None
  }

  /** Two-digit, zero-padded rendering, as in the form's defaults `08:00` and `09:00`. */
  function Pad2(n: nat): (s: string)
    requires n < 100
    ensures |s| == 2 && IsDigit(s[0]) && IsDigit(s[1])
    ensures 10 * DigitValue(s[0]) + DigitValue(s[1]) == n
  {
    [DigitChar(n / 10), DigitChar(n % 10)]
  }

  function FormatClock(c: Clock): string
    requires c.hour < 100 && c.minute < 100
  {
    Pad2(c.hour) + ":" + Pad2(c.minute)
  }

  /** A zero-padded `HH:MM` is accepted exactly when it names a time of day, and reads back as that time. */
  lemma PaddedParse(c: Clock)
    requires c.hour < 100 && c.minute < 100
    ensures ParseClock(FormatClock(c)).Some? <==> ValidClock(c)
    ensures ValidClock(c) ==> ParseClock(FormatClock(c)) == Some(c)
  {
  }

  /** Hours and minutes without padding (`8:5`) are accepted as well. */
  lemma UnpaddedParse(c: Clock)
    requires ValidClock(c)
    ensures ParseClock(Decimal(c.hour) + ":" + Decimal(c.minute)) == Some(c)
  {
  }

  /** The ways a field may spell `n`: plain decimal (`8`) or zero-padded to two digits (`08`). */
  predicate RendersField(f: string, n: nat)
    requires n < 100
  {
    f == Decimal(n) || f == Pad2(n)
  }

  /** `s` spells the time `c`, each field plain or zero-padded. */
  predicate Renders(s: string, c: Clock)
    requires c.hour < 100 && c.minute < 100
  {
    || s == Decimal(c.hour) + ":" + Decimal(c.minute)
    || s == Decimal(c.hour) + ":" + Pad2(c.minute)
    || s == Pad2(c.hour) + ":" + Decimal(c.minute)
    || s == Pad2(c.hour) + ":" + Pad2(c.minute)
  }

  /** A field is read exactly when it spells a value not above `max`. */
  lemma FieldShape(f: string, max: nat, n: nat)
    requires max < 100 && n < 100
    ensures ParseField(f, max) == Some(n) <==> n <= max && RendersField(f, n)
  {
    if n >= 10 {
      assert Decimal(n) == Decimal(n / 10) + [DigitChar(n % 10)];
      assert Decimal(n) == Pad2(n);
    }
    if |f| == 2 && IsDigit(f[0]) && IsDigit(f[1]) {
      var v := 10 * DigitValue(f[0]) + DigitValue(f[1]);
      assert v / 10 == DigitValue(f[0]) && v % 10 == DigitValue(f[1]);
      assert Pad2(v) == f;
    }
  }

  /**
   * `strptime(s, "%H:%M")` succeeds exactly on the strings that spell a time of
   * day, each field plain or zero-padded, with nothing before or after; what it
   * reads is that time.
   */
  lemma ParseIffRendering(s: string, c: Clock)
    requires c.hour < 100 && c.minute < 100
    ensures ParseClock(s) == Some(c) <==> ValidClock(c) && Renders(s, c)
  {
    if ParseClock(s) == Some(c) {
      ParsedIsRendering(s);
    }
    if ValidClock(c) && Renders(s, c) {
      RenderingParses(s, c);
    }
  }

  /** An accepted string spells the time it yields: malformed input is a `ValueError`. */
  lemma ParsedIsRendering(s: string)
    requires ParseClock(s).Some?
    ensures Renders(s, ParseClock(s).value)
  {
    var c := ParseClock(s).value;
    var colon := if s[1] == ':' then 1 else 2;
    FieldShape(s[..colon], 23, c.hour);
    FieldShape(s[colon + 1..], 59, c.minute);
    assert s == s[..colon] + ":" + s[colon + 1..];
  }

  /** Every spelling of a time of day, padded or not in either field, is accepted as that time. */
  lemma RenderingParses(s: string, c: Clock)
    requires ValidClock(c) && Renders(s, c)
    ensures ParseClock(s) == Some(c)
  {
    var h, m := c.hour, c.minute;
    if s == Decimal(h) + ":" + Decimal(m) {
      FieldsParse(Decimal(h), Decimal(m), c);
    } else if s == Decimal(h) + ":" + Pad2(m) {
      FieldsParse(Decimal(h), Pad2(m), c);
    } else if s == Pad2(h) + ":" + Decimal(m) {
      FieldsParse(Pad2(h), Decimal(m), c);
    } else {
      FieldsParse(Pad2(h), Pad2(m), c);
    }
  }

  lemma FieldsParse(hs: string, ms: string, c: Clock)
    requires ValidClock(c) && RendersField(hs, c.hour) && RendersField(ms, c.minute)
    ensures ParseClock(hs + ":" + ms) == Some(c)
  {
    FieldShape(hs, 23, c.hour);
    FieldShape(ms, 59, c.minute);
    ParseJoined(hs, ms);
  }

  /** With a one- or two-digit hour field in front, the colon is found right after it. */
  lemma ParseJoined(hs: string, ms: string)
    requires 1 <= |hs| <= 2 && forall i :: 0 <= i < |hs| ==> IsDigit(hs[i])
    ensures ParseClock(hs + ":" + ms) ==
              match (ParseField(hs, 23), ParseField(ms, 59))
              case (Some(h), Some(m)) => Some(Clock(h, m))
              case _ => None
  {
    var s := hs + ":" + ms;
    assert s[..|hs|] == hs && s[|hs|] == ':' && s[|hs| + 1..] == ms;
    if |hs| == 2 {
      assert s[1] == hs[1];
    }
  }

  function MinuteOfDay(c: Clock): nat {
    60 * c.hour + c.minute
  }

  /**
   * The `seconds` field of a `timedelta` of `diff` seconds: Python normalises the
   * days part to absorb the rest, so the field is `diff` taken modulo one day.
   */
  function TimedeltaSeconds(diff: int): (s: nat)
    ensures s < SecondsPerDay
    ensures (diff - s) % SecondsPerDay == 0
  {
    diff % SecondsPerDay
  }

  /** The logged duration: `(end - start).seconds / 60`, both times on the same date. */
  function DurationMinutes(start: Clock, end: Clock): (d: nat)
    ensures d < MinutesPerDay
    ensures 60 * d == TimedeltaSeconds(60 * (MinuteOfDay(end) - MinuteOfDay(start)))
  {
    var diff := MinuteOfDay(end) - MinuteOfDay(start);
    SecondsOfWholeMinutes(diff);
    TimedeltaSeconds(60 * diff) / 60
  }

  /** A whole number of minutes reduces modulo a day to a whole number of minutes. */
  lemma SecondsOfWholeMinutes(x: int)
    ensures (60 * x) % SecondsPerDay == 60 * (x % MinutesPerDay)
  {
    var q, r := x / MinutesPerDay, x % MinutesPerDay;
    assert x == MinutesPerDay * q + r && 0 <= r < MinutesPerDay;
    assert 60 * x == SecondsPerDay * q + 60 * r;
  }

  /**
   * The duration is the forward distance from start to end on a 24-hour clock:
   * an end earlier than the start wraps past midnight, and the division by 60 is exact.
   */
  lemma DurationIsForwardDistance(start: Clock, end: Clock)
    ensures TimedeltaSeconds(60 * (MinuteOfDay(end) - MinuteOfDay(start))) % 60 == 0
    ensures DurationMinutes(start, end) == (MinuteOfDay(end) - MinuteOfDay(start)) % MinutesPerDay
  {
  }

  /** The duration never goes negative, stays under a day and is `end - start` when no midnight lies between. */
  lemma DurationBounds(start: Clock, end: Clock)
    requires ValidClock(start) && ValidClock(end)
    ensures DurationMinutes(start, end) < MinutesPerDay
    ensures MinuteOfDay(start) <= MinuteOfDay(end) ==> DurationMinutes(start, end) == MinuteOfDay(end) - MinuteOfDay(start)
    ensures MinuteOfDay(end) < MinuteOfDay(start) ==> DurationMinutes(start, end) == MinuteOfDay(end) - MinuteOfDay(start) + MinutesPerDay
    ensures start == end ==> DurationMinutes(start, end) == 0
  {
  }

  /** Going forward from the start by the duration lands on the end, and no other count under a day does. */
  lemma DurationReachesEnd(start: Clock, end: Clock, k: nat)
    requires ValidClock(start) && ValidClock(end)
    ensures (MinuteOfDay(start) + DurationMinutes(start, end)) % MinutesPerDay == MinuteOfDay(end)
    ensures k < MinutesPerDay && (MinuteOfDay(start) + k) % MinutesPerDay == MinuteOfDay(end) ==> k == DurationMinutes(start, end)
  {
    DurationBounds(start, end);
    var d := DurationMinutes(start, end);
    WrapOnce(MinuteOfDay(start) + d);
    WrapOnce(MinuteOfDay(start) + k);
  }

  /** A count under two days reduces modulo a day by at most one subtraction. */
  lemma WrapOnce(x: int)
    requires 0 <= x
    ensures x < 2 * MinutesPerDay ==> x % MinutesPerDay == (if x < MinutesPerDay then x else x - MinutesPerDay)
  {
  }
}
