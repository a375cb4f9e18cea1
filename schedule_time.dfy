/** The "schedule" delivery mode of the broadcast and quiz pages: the time
    picker's `h:mm AM` text is read with `split` and `parseInt` and turned
    into a 24-hour clock time set with `setHours`. The date input's text is
    kept as text; `new Date` reads it as midnight UTC while `setHours` works
    in local time, so the calendar day the time lands on is `SetHoursDay`,
    the day before the chosen one west of UTC. */
module ScheduleTime {
  import opened Wrappers
  import opened Text

  /** The date input's text and the local time handed to
      `setHours(hour, minute, 0, 0)`. */
  datatype LocalTime = LocalTime(date: string, hour: int, minute: int)

  /** The submit handlers' rule: PM adds 12 except at 12, and 12 AM is 0. */
  function To24Hour(hour: int, period: string): int {
    if period == "PM" && hour != 12 then hour + 12
    else if period == "AM" && hour == 12 then 0
    else hour
  }

  predicate IsClockHour(hour: int, period: string) {
    1 <= hour <= 12 && (period == "AM" || period == "PM")
  }

  /** The 12-hour reading of a 24-hour clock hour. */
  function To12Hour(h: int): (r: (int, string))
    requires 0 <= h < 24
    ensures IsClockHour(r.0, r.1)
  {
    if h == 0 then (12, "AM")
    else if h < 12 then (h, "AM")
    else if h == 12 then (12, "PM")
    else (h - 12, "PM")
  }

  /** Hours 1..12 AM/PM land in 0..23, AM before noon and PM after. */
  lemma ClockHourRange(hour: int, period: string)
    requires IsClockHour(hour, period)
    ensures 0 <= To24Hour(hour, period) < 24
    ensures period == "AM" <==> To24Hour(hour, period) < 12
  {
  }

  /** Each 24-hour clock hour has exactly one 12-hour spelling: converting
      back and forth is the identity in both directions. */
  lemma ClockHourRoundTrip(hour: int, period: string, h: int)
    requires IsClockHour(hour, period) && 0 <= h < 24
    ensures To12Hour(To24Hour(hour, period)) == (hour, period)
    ensures To24Hour(To12Hour(h).0, To12Hour(h).1) == h
  {
  }

  /** The local calendar day `setHours` works on, in days since the epoch:
      `new Date("YYYY-MM-DD")` is midnight UTC of day `utcDay`, and the
      browser's clock is `offsetMinutes` ahead of UTC (negative west of it,
      less than a day either way). East of UTC it is the chosen day; west of
      UTC it is the day before, so the broadcast is scheduled a day early. */
  function SetHoursDay(utcDay: int, offsetMinutes: int): (day: int)
    requires -1440 < offsetMinutes < 1440
    ensures offsetMinutes >= 0 ==> day == utcDay
    ensures offsetMinutes < 0 ==> day == utcDay - 1
  {
    (utcDay * 1440 + offsetMinutes) / 1440
  }

  /** `scheduleTime.split(' ')` then `time.split(':')` and `parseInt` on the
      parts; a part that is missing or has no digits makes `setHours` give
      an invalid date, on which `toISOString` throws. */
  function ReadScheduleTime(date: string, scheduleTime: string): (r: Result<LocalTime, string>)
    ensures r.Ok? ==> r.value.date == date
  {
    var parts := Split(scheduleTime, ' ');
    var period := if |parts| > 1 then parts[1] else [];
    var clock := Split(parts[0], ':');
    var hour := ParseInt(clock[0]);
    var minute := if |clock| > 1 then ParseInt(clock[1]) else None;
    if hour.None? || minute.None? then Err("Invalid time value")
    else Ok(LocalTime(date, To24Hour(hour.value, period), minute.value))
  }

  lemma ParseIntDigits(d: string)
    requires AllDigits(d) && d != []
    ensures ParseInt(d) == Some(DigitsValue(d))
  {
    assert !IsSpace(d[0]) && d[0] != '-' && d[0] != '+';
    assert d[SpaceRun(d)..] == d;
    DigitRunOf(d, []);
    assert d + [] == d;
    assert d[..|d|] == d;
  }

  lemma Join2(a: string, b: string, sep: char)
    ensures Join([a, b], sep) == a + [sep] + b
  {
    assert [a, b][1..] == [b];
  }

  /** A picker value `hh:mm AM` or `hh:mm PM` (digits of any width) reads as
      its hour converted to the 24-hour clock and its minutes. */
  lemma PickerValueReads(date: string, hh: string, mm: string, period: string)
    requires AllDigits(hh) && hh != [] && AllDigits(mm) && mm != []
    requires period == "AM" || period == "PM"
    ensures ReadScheduleTime(date, hh + ":" + mm + " " + period)
         == Ok(LocalTime(date, To24Hour(DigitsValue(hh), period), DigitsValue(mm)))
  {
    var clock := hh + ":" + mm;
    ClockPieces(hh, mm);
    Join2(clock, period, ' ');
    SplitJoin([clock, period], ' ');
    assert clock + [' '] + period == hh + ":" + mm + " " + period;
    Join2(hh, mm, ':');
    SplitJoin([hh, mm], ':');
    ParseIntDigits(hh);
    ParseIntDigits(mm);
  }

  /** Digit runs hold neither separator, so `hh:mm` has no space. */
  lemma ClockPieces(hh: string, mm: string)
    requires AllDigits(hh) && AllDigits(mm)
    ensures ' ' !in hh + ":" + mm && ':' !in hh && ':' !in mm
  {
    var clock := hh + ":" + mm;
    forall k | 0 <= k < |clock| ensures clock[k] != ' ' {
      if k < |hh| { assert clock[k] == hh[k]; }
      else if k > |hh| { assert clock[k] == mm[k - |hh| - 1]; }
    }
    forall k | 0 <= k < |hh| ensures hh[k] != ':' { assert IsDigit(hh[k]); }
    forall k | 0 <= k < |mm| ensures mm[k] != ':' { assert IsDigit(mm[k]); }
  }

  /** The picker's default `12:00 PM` is noon. */
  lemma DefaultIsNoon(date: string)
    ensures ReadScheduleTime(date, "12:00 PM") == Ok(LocalTime(date, 12, 0))
  {
    DefaultParts();
    PickerValueReads(date, "12", "00", "PM");
  }

  lemma DefaultParts()
    ensures AllDigits("12") && AllDigits("00")
    ensures DigitsValue("12") == 12 && DigitsValue("00") == 0
    ensures "12" + ":" + "00" + " " + "PM" == "12:00 PM"
  {
    assert "12"[..1] == "1" && "00"[..1] == "0";
  }
}
