/*
 * The clock widget's provider: the last reading of the wall clock, the
 * 12/24-hour choice, the time text shown and the period of the day.
 *
 * The wall clock is a parameter of `UpdateTime`; a reading carries the
 * day (as a day number) and the time to the millisecond, as a Qt date-time
 * does.
 */
module ClockProvider {
  import opened Common

  datatype Reading = Reading(day: int, hour: int, minute: int, second: int, msec: int)

  predicate ValidReading(r: Reading)
  {
    0 <= r.hour < 24 && 0 <= r.minute < 60 && 0 <= r.second < 60 && 0 <= r.msec < 1000
  }

  /** A wall-clock reading, always a valid time. */
  type WallClock = r: Reading | ValidReading(r) witness Reading(0, 0, 0, 0, 0)

  /** The time-of-day part of a reading, the part Qt's `time()` compares (to the millisecond). */
  datatype TimeOfDay = TimeOfDay(hour: int, minute: int, second: int, msec: int)

  function TimeOf(r: Reading): TimeOfDay
  {
    TimeOfDay(r.hour, r.minute, r.second, r.msec)
  }

  /**
   * `period`: the part of the day an hour falls in. An hour of -1 (no
   * reading yet) is "Night".
   */
  function Period(hour: int): (r: string)
    ensures r == "Morning" <==> 5 <= hour < 12
    ensures r == "Afternoon" <==> 12 <= hour < 17
    ensures r == "Evening" <==> 17 <= hour < 21
    ensures r == "Night" <==> hour < 5 || hour >= 21
  {
    if hour >= 5 && hour < 12 then "Morning"
    else if hour >= 12 && hour < 17 then "Afternoon"
    else if hour >= 17 && hour < 21 then "Evening"
    else "Night"
  }

  /** The clock-face hour of the "hh ... AP" format: 12 for midnight and noon, 1..11 otherwise. */
  function Hour12(hour: int): (h: int)
    requires 0 <= hour < 24
    ensures 1 <= h <= 12
  {
    if hour % 12 == 0 then 12 else hour % 12
  }

  /** The "AP" marker. */
  function Meridiem(hour: int): (r: string)
    ensures r == "PM" <==> hour >= 12
    ensures r == "AM" <==> hour < 12
  {
    if hour < 12 then "AM" else "PM"
  }

  /** The hour read back from a 12-hour face and its marker. */
  function HourFrom12(h: int, pm: bool): int
  {
    if pm then (if h == 12 then 12 else h + 12) else (if h == 12 then 0 else h)
  }

  /** The 12-hour text loses nothing: the face hour and the marker give back the hour. */
  lemma TwelveHourRecoversHour(hour: int)
    requires 0 <= hour < 24
    ensures HourFrom12(Hour12(hour), Meridiem(hour) == "PM") == hour
  {
  }

  /**
   * `timeString`: "HH:mm:ss" in 24-hour mode, "hh:mm:ss AP" otherwise; the
   * empty text before the first reading.
   */
  function TimeString(current: Option<TimeOfDay>, is24Hour: bool): (r: string)
    requires current.Some? ==> 0 <= current.value.hour < 24 && 0 <= current.value.minute < 60 && 0 <= current.value.second < 60
    ensures current.None? ==> r == ""
    ensures current.Some? ==> |r| == if is24Hour then 8 else 11
    ensures current.Some? ==>
      r[2] == ':' && r[5] == ':' && r[3..5] == Pad2(current.value.minute) && r[6..8] == Pad2(current.value.second)
    ensures current.Some? && is24Hour ==> r[..2] == Pad2(current.value.hour)
    ensures current.Some? && !is24Hour ==>
      r[..2] == Pad2(Hour12(current.value.hour)) && r[8..] == " " + Meridiem(current.value.hour)
  {
    if current.None? then ""
    else
      var t := current.value;
      if is24Hour then Pad2(t.hour) + ":" + Pad2(t.minute) + ":" + Pad2(t.second)
      else Pad2(Hour12(t.hour)) + ":" + Pad2(t.minute) + ":" + Pad2(t.second) + " " + Meridiem(t.hour)
  }

  /** In either mode, two readings that print alike have the same hour, minute and second. */
  lemma TimeStringInjective(a: TimeOfDay, b: TimeOfDay, is24Hour: bool)
    requires 0 <= a.hour < 24 && 0 <= a.minute < 60 && 0 <= a.second < 60
    requires 0 <= b.hour < 24 && 0 <= b.minute < 60 && 0 <= b.second < 60
    requires TimeString(Some(a), is24Hour) == TimeString(Some(b), is24Hour)
    ensures a.hour == b.hour && a.minute == b.minute && a.second == b.second
  {
    var ra, rb := TimeString(Some(a), is24Hour), TimeString(Some(b), is24Hour);
    assert Pad2(a.minute) == ra[3..5] == rb[3..5] == Pad2(b.minute);
    assert Pad2(a.second) == ra[6..8] == rb[6..8] == Pad2(b.second);
    if is24Hour {
      assert Pad2(a.hour) == ra[..2] == rb[..2] == Pad2(b.hour);
    } else {
      assert Pad2(Hour12(a.hour)) == ra[..2] == rb[..2] == Pad2(Hour12(b.hour));
      assert (Meridiem(a.hour) == "PM") == (ra[9] == 'P') == (rb[9] == 'P') == (Meridiem(b.hour) == "PM");
      TwelveHourRecoversHour(a.hour);
      TwelveHourRecoversHour(b.hour);
    }
  }

  datatype Signal = TimeChanged | DateChanged | FormatChanged

  class Clock {
    /** The time part of the last reading; None before the first. */
    var currentTime: Option<TimeOfDay>
    /** The date of the last reading; None before the first. */
    var currentDate: Option<int>
    var is24HourFormat: bool
    var signals: seq<Signal>

    ghost predicate Valid()
      reads this
    {
      currentTime.Some? ==> (0 <= currentTime.value.hour < 24 && 0 <= currentTime.value.minute < 60
                             && 0 <= currentTime.value.second < 60)
    }

    /** The constructor: 12-hour format, and one reading of the clock right away. */
    constructor(now: WallClock)
      ensures Valid()
      ensures currentTime == Some(TimeOf(now)) && currentDate == Some(now.day)
      ensures !is24HourFormat
      ensures signals == [TimeChanged, DateChanged]
    {
      currentTime := None;
      currentDate := None;
      is24HourFormat := false;
      signals := [];
      new;
      UpdateTime(now);
    }

    /** The hour of the last reading, -1 before the first. */
    function Hours(): int
      reads this
    {
      if currentTime.Some? then currentTime.value.hour else -1
    }

    function TimeText(): string
      requires Valid()
      reads this
    {
      TimeString(currentTime, is24HourFormat)
    }

    function PeriodText(): string
      reads this
    {
      Period(Hours())
    }

    /** `set24HourFormat`: a different choice is stored and announced; the same one changes nothing. */
    method Set24HourFormat(format: bool)
      modifies this
      ensures is24HourFormat == format
      ensures signals == old(signals) + (if old(is24HourFormat) != format then [FormatChanged, TimeChanged] else [])
      ensures currentTime == old(currentTime) && currentDate == old(currentDate)
    {
      if is24HourFormat != format {
        is24HourFormat := format;
        signals := signals + [FormatChanged, TimeChanged];
      }
    }

    /** `updateTime`: take the reading; announce the time iff it differs, the date iff it differs. */
    method UpdateTime(now: WallClock)
      modifies this
      ensures Valid()
      ensures currentTime == Some(TimeOf(now)) && currentDate == Some(now.day)
      ensures signals == old(signals)
        + (if old(currentTime) != Some(TimeOf(now)) then [TimeChanged] else [])
        + (if old(currentDate) != Some(now.day) then [DateChanged] else [])
      ensures is24HourFormat == old(is24HourFormat)
    {
      var timeChangedFlag := currentTime != Some(TimeOf(now));
      var dateChangedFlag := currentDate != Some(now.day);
      currentTime := Some(TimeOf(now));
      currentDate := Some(now.day);
      if timeChangedFlag {
        signals := signals + [TimeChanged];
      }
      if dateChangedFlag {
        signals := signals + [DateChanged];
      }
    }
  }
}
