/** Model of backend/app/utils/timezone.py: conversion of datetimes to Korea Standard Time,
    a fixed offset of UTC+9, and the ISO-8601 text of the current KST time. */
module Timezone {
  import opened Wrappers
  import Text

  const HourSeconds: int := 3600
  const DaySeconds: int := 86400

  /** KST is the fixed offset UTC+9, in seconds. */
  const KstOffset: int := 9 * HourSeconds

  /** A Python datetime at one-second resolution: `wall` is the reading of its own clock in
      seconds since 1970-01-01T00:00:00 of that clock, `offset` its UTC offset in seconds
      (None for a naive datetime). */
  datatype DateTime = DateTime(wall: int, offset: Option<int>)

  /** Every datetime Python can build: a UTC offset, when present, lies strictly within one day. */
  type IsoDateTime = dt: DateTime | dt.offset.Some? ==> -DaySeconds < dt.offset.value < DaySeconds
    witness DateTime(0, None)

  predicate Aware(dt: DateTime) {
    dt.offset.Some?
  }

  /** The absolute instant, in UTC seconds since the epoch, that an aware datetime denotes. */
  function Instant(dt: DateTime): int
    requires Aware(dt)
  {
    dt.wall - dt.offset.value
  }

  /** `dt.astimezone(tz)` on an aware datetime, for the fixed offset `tz`. */
  function AsTimezone(dt: DateTime, tz: int): (r: DateTime)
    requires Aware(dt)
    ensures Aware(r) && r.offset == Some(tz)
    ensures Instant(r) == Instant(dt)
  {
    DateTime(Instant(dt) + tz, Some(tz))
  }

  /** `to_kst`: a naive input is first read as UTC, then the instant is shown on the KST clock. */
  function ToKst(dt: DateTime): (r: DateTime)
    ensures r.offset == Some(KstOffset)
    ensures Aware(dt) ==> Instant(r) == Instant(dt)
    ensures !Aware(dt) ==> Instant(r) == dt.wall && r.wall == dt.wall + KstOffset
  {
    var utc := if dt.offset.None? then DateTime(dt.wall, Some(0)) else dt;
    AsTimezone(utc, KstOffset)
  }

  /** Converting twice is converting once. */
  lemma ToKstIdempotent(dt: DateTime)
    ensures ToKst(ToKst(dt)) == ToKst(dt)
  {
  }

  /** `now_kst`: the current instant (a parameter: the clock is outside the model) on the KST clock. */
  function NowKst(nowUtc: int): (r: DateTime)
    ensures r.offset == Some(KstOffset) && Instant(r) == nowUtc
  {
    DateTime(nowUtc + KstOffset, Some(KstOffset))
  }

  // ---- ISO-8601 text, as datetime.isoformat() writes it at one-second resolution ----

  function DigitChar(d: int): char
    requires 0 <= d < 10
  {
    ('0' as int + d) as char
  }

  function Digits(n: nat): (r: string)
    ensures |r| >= 1
    decreases n
  {
    if n < 10 then [DigitChar(n)] else Digits(n / 10) + [DigitChar(n % 10)]
  }

  /** Decimal text of n, left-padded with zeros to at least `width` digits. */
  function Pad(n: int, width: nat): string {
    var sign := if n < 0 then "-" else "";
    var ds := Digits(if n < 0 then -n else n);
    sign + seq(if |ds| < width then width - |ds| else 0, _ => '0') + ds
  }

  function Pad2(n: int): (r: string)
    requires 0 <= n < 100
    ensures |r| == 2 && r == [DigitChar(n / 10), DigitChar(n % 10)]
  {
    [DigitChar(n / 10), DigitChar(n % 10)]
  }

  /** Proleptic Gregorian (year, month, day) of a day count since 1970-01-01
      (the civil-from-days algorithm on 400-year eras). */
  function CivilFromDays(days: int): (int, int, int) {
    var z := days + 719468;
    var era := z / 146097;
    var doe := z - era * 146097;
    var yoe := (doe - doe / 1460 + doe / 36524 - doe / 146096) / 365;
    var doy := doe - (365 * yoe + yoe / 4 - yoe / 100);
    var mp := (5 * doy + 2) / 153;
    var d := doy - (153 * mp + 2) / 5 + 1;
    var m := if mp < 10 then mp + 3 else mp - 9;
    var y := yoe + era * 400 + (if m <= 2 then 1 else 0);
    (y, m, d)
  }

  /** The "+HH:MM" (or "+HH:MM:SS") suffix of an aware datetime. */
  function OffsetText(offset: int): (r: string)
    requires -DaySeconds < offset < DaySeconds
    ensures |r| == 6 || |r| == 9
  {
    var a := if offset < 0 then -offset else offset;
    var hm := [if offset < 0 then '-' else '+'] + Pad2(a / HourSeconds) + ":" + Pad2(a % HourSeconds / 60);
    if a % 60 == 0 then hm else hm + ":" + Pad2(a % 60)
  }

  function DigitValue(c: char): int {
    c as int - '0' as int
  }

  predicate IsDigit(c: char) {
    '0' <= c <= '9'
  }

  /** Reads back an offset suffix of the "+HH:MM" form. */
  function ParseOffset(s: string): Option<int> {
    if |s| == 6 && (s[0] == '+' || s[0] == '-') && s[3] == ':'
       && IsDigit(s[1]) && IsDigit(s[2]) && IsDigit(s[4]) && IsDigit(s[5])
    then
      var a := (DigitValue(s[1]) * 10 + DigitValue(s[2])) * HourSeconds
               + (DigitValue(s[4]) * 10 + DigitValue(s[5])) * 60;
      Some(if s[0] == '-' then -a else a)
    else None
  }

  lemma Pad2Reads(n: int)
    requires 0 <= n < 100
    ensures IsDigit(Pad2(n)[0]) && IsDigit(Pad2(n)[1])
    ensures DigitValue(Pad2(n)[0]) * 10 + DigitValue(Pad2(n)[1]) == n
  {
  }

  /** Offsets in whole minutes survive a round trip through their text. */
  lemma OffsetTextRoundTrip(offset: int)
    requires -DaySeconds < offset < DaySeconds && offset % 60 == 0
    ensures ParseOffset(OffsetText(offset)) == Some(offset)
  {
    var a := if offset < 0 then -offset else offset;
    var h, m := a / HourSeconds, a % HourSeconds / 60;
    MinuteSplit(a);
    Pad2Reads(h);
    Pad2Reads(m);
    var s := OffsetText(offset);
    assert s == [if offset < 0 then '-' else '+'] + Pad2(h) + ":" + Pad2(m);
    assert s[1..3] == Pad2(h) && s[4..6] == Pad2(m);
  }

  /** A whole number of minutes below a day splits into hours and minutes. */
  lemma MinuteSplit(a: int)
    requires 0 <= a < DaySeconds && a % 60 == 0
    ensures a / HourSeconds < 24 && a % HourSeconds / 60 < 60
    ensures a / HourSeconds * HourSeconds + a % HourSeconds / 60 * 60 == a
  {
  }

  /** `dt.isoformat()`: date, 'T', time of day, and the offset when the datetime is aware. */
  function IsoText(dt: DateTime): (r: string)
    requires dt.offset.Some? ==> -DaySeconds < dt.offset.value < DaySeconds
  {
    var days := dt.wall / DaySeconds;
    var secs := dt.wall % DaySeconds;
    var (y, m, d) := CivilFromDays(days);
    var date := Pad(y, 4) + "-" + Pad(m, 2) + "-" + Pad(d, 2);
    var time := Pad2(secs / HourSeconds) + ":" + Pad2(secs % HourSeconds / 60) + ":" + Pad2(secs % 60);
    date + "T" + time + (if dt.offset.Some? then OffsetText(dt.offset.value) else "")
  }

  /** `now_kst_iso`: ISO text of the current KST time, always ending in the "+09:00" offset. */
  function NowKstIso(nowUtc: int): (r: string)
    ensures Text.EndsWith(r, "+09:00")
    ensures ParseOffset(r[|r| - 6..]) == Some(KstOffset)
  {
    KstOffsetText();
    OffsetTextRoundTrip(KstOffset);
    IsoText(NowKst(nowUtc))
  }

  lemma KstOffsetText()
    ensures OffsetText(KstOffset) == "+09:00"
  {
    assert Pad2(9) == "09";
    assert Pad2(0) == "00";
  }
}
