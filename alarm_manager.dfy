/*
 * The device's alarm table: the alarm record and its QVariantMap codec, the
 * trigger rule, and the manager that keeps the table in sync with the
 * backend and fires at most one alarm per check.
 *
 * Dates are julian day numbers (what `QDate` stores); the current moment is
 * passed in by the caller instead of being read from the clock.
 */
module AlarmManager {
  import opened Common

  /** A `QTime`: invalid, or an hour, minute and second in range. */
  datatype ClockTime = Invalid | At(hour: int, minute: int, second: int)

  type QTime = t: ClockTime | t.Invalid? || (0 <= t.hour < 24 && 0 <= t.minute < 60 && 0 <= t.second < 60)
    witness Invalid

  /** `QTime::hour()`: -1 for an invalid time. */
  function HourOf(t: QTime): int
  {
    if t.At? then t.hour else -1
  }

  /** `QTime::minute()`: -1 for an invalid time. */
  function MinuteOf(t: QTime): int
  {
    if t.At? then t.minute else -1
  }

  /** `QTime::toString("HH:mm:ss")`: "" for an invalid time. */
  function FormatTime(t: QTime): (r: string)
    ensures t.Invalid? <==> r == ""
    ensures t.At? ==> |r| == 8 && r[2] == ':' && r[5] == ':'
  {
    if t.Invalid? then "" else Pad2(t.hour) + ":" + Pad2(t.minute) + ":" + Pad2(t.second)
  }

  /** The two-digit number at `s[i..i+2]`. */
  function TwoDigitsAt(s: string, i: nat): int
    requires i + 2 <= |s|
  {
    DigitValue(s[i]) * 10 + DigitValue(s[i + 1])
  }

  predicate DigitsAt(s: string, i: nat)
    requires i + 2 <= |s|
  {
    IsDigit(s[i]) && IsDigit(s[i + 1])
  }

  /** `QTime::fromString(s, "HH:mm:ss")`: exactly two digits per field, in range, else invalid. */
  function ParseTime(s: string): (r: QTime)
    ensures r.At? ==> FormatTime(r) == s
  {
    if |s| == 8 && s[2] == ':' && s[5] == ':' && DigitsAt(s, 0) && DigitsAt(s, 3) && DigitsAt(s, 6)
    then
      var h, m, sec := TwoDigitsAt(s, 0), TwoDigitsAt(s, 3), TwoDigitsAt(s, 6);
      if h < 24 && m < 60 && sec < 60 then
        var r := At(h, m, sec);
        assert FormatTime(r) == s by {
          assert Pad2(h) == s[0..2] && Pad2(m) == s[3..5] && Pad2(sec) == s[6..8];
        }
        r
      else Invalid
    else Invalid
  }

  lemma TimeRoundTrip(t: QTime)
    ensures ParseTime(FormatTime(t)) == t
  {
    if t.At? {
      var s := FormatTime(t);
      assert s[0..2] == Pad2(t.hour) && s[3..5] == Pad2(t.minute) && s[6..8] == Pad2(t.second);
    }
  }

  /** `QDate::dayOfWeek()` of a julian day: 1 = Monday … 7 = Sunday. */
  function DayOfWeek(julianDay: int): (d: int)
    ensures 1 <= d <= 7
  {
    julianDay % 7 + 1
  }

  datatype Instant = Instant(date: int, hour: int, minute: int, second: int)

  /** The current moment (`QDateTime::currentDateTime()`): a julian day and a valid time of day. */
  type Moment = m: Instant | 0 <= m.hour < 24 && 0 <= m.minute < 60 && 0 <= m.second < 60
    witness Instant(0, 0, 0, 0)

  /** Whether `year` is a leap year of the proleptic Gregorian calendar `QDate` counts in. */
  predicate IsLeapYear(year: int)
  {
    year % 4 == 0 && (year % 100 != 0 || year % 400 == 0)
  }

  /** `QDate::daysInMonth()`. */
  function DaysInMonth(year: int, month: int): (r: int)
    requires 1 <= month <= 12
    ensures 28 <= r <= 31
    ensures r == 29 <==> month == 2 && IsLeapYear(year)
  {
    if month == 2 then (if IsLeapYear(year) then 29 else 28)
    else if month == 4 || month == 6 || month == 9 || month == 11 then 30
    else 31
  }

  /** A `QDateTime` in local time: a calendar date, a time of day and its milliseconds. */
  datatype Stamp = Stamp(year: int, month: int, day: int, time: QTime, msec: int)

  /** A valid `QDateTime` whose year has four digits. */
  type DateTime = s: Stamp | 1 <= s.year <= 9999 && 1 <= s.month <= 12 && 1 <= s.day <= DaysInMonth(s.year, s.month)
    && s.time.At? && 0 <= s.msec < 1000
    witness Stamp(2000, 1, 1, At(0, 0, 0), 0)

  /** `QDate::toString(Qt::ISODate)`: "yyyy-MM-dd". */
  function FormatDate(year: int, month: int, day: int): (r: string)
    requires 1 <= year <= 9999 && 1 <= month <= 12 && 1 <= day <= 31
    ensures |r| == 10 && r[4] == '-' && r[7] == '-'
  {
    Pad2(year / 100) + Pad2(year % 100) + "-" + Pad2(month) + "-" + Pad2(day)
  }

  /** `QDateTime::toString(Qt::ISODate)`: "yyyy-MM-ddTHH:mm:ss"; the milliseconds are not written. */
  function FormatIso(dt: DateTime): (r: string)
    ensures |r| == 19 && r[10] == 'T'
    ensures r[..10] == FormatDate(dt.year, dt.month, dt.day) && r[11..] == FormatTime(dt.time)
  {
    FormatDate(dt.year, dt.month, dt.day) + "T" + FormatTime(dt.time)
  }

  /** The four-digit number at `s[i..i+4]`. */
  function FourDigitsAt(s: string, i: nat): int
    requires i + 4 <= |s|
  {
    TwoDigitsAt(s, i) * 100 + TwoDigitsAt(s, i + 2)
  }

  /** `QDate::fromString(s, Qt::ISODate)`: "yyyy-MM-dd" naming a day that exists, at midnight; else None. */
  function ParseDate(s: string): (r: Option<DateTime>)
    ensures r.Some? ==> r.value.time == At(0, 0, 0) && r.value.msec == 0
    ensures r.Some? ==> FormatDate(r.value.year, r.value.month, r.value.day) == s
  {
    if |s| == 10 && s[4] == '-' && s[7] == '-' && DigitsAt(s, 0) && DigitsAt(s, 2) && DigitsAt(s, 5) && DigitsAt(s, 8)
    then
      var y, m, d := FourDigitsAt(s, 0), TwoDigitsAt(s, 5), TwoDigitsAt(s, 8);
      if 1 <= y && 1 <= m <= 12 && 1 <= d <= DaysInMonth(y, m) then
        DateText(s);
        Option<DateTime>.Some(Stamp(y, m, d, At(0, 0, 0), 0))
      else None
    else None
  }

  /** A well-formed date text is what formatting its own fields gives. */
  lemma DateText(s: string)
    requires |s| == 10 && s[4] == '-' && s[7] == '-' && DigitsAt(s, 0) && DigitsAt(s, 2) && DigitsAt(s, 5) && DigitsAt(s, 8)
    requires 1 <= FourDigitsAt(s, 0) && 1 <= TwoDigitsAt(s, 5) <= 12 && 1 <= TwoDigitsAt(s, 8) <= 31
    ensures FormatDate(FourDigitsAt(s, 0), TwoDigitsAt(s, 5), TwoDigitsAt(s, 8)) == s
  {
    CenturySplit(TwoDigitsAt(s, 0), TwoDigitsAt(s, 2));
    DigitPairText(s, 0);
    DigitPairText(s, 2);
    DigitPairText(s, 5);
    DigitPairText(s, 8);
    assert s == s[0..2] + s[2..4] + "-" + s[5..7] + "-" + s[8..10];
  }

  /** Two digits read as a number and padded again give the same two characters. */
  lemma DigitPairText(s: string, i: nat)
    requires i + 2 <= |s| && DigitsAt(s, i)
    ensures Pad2(TwoDigitsAt(s, i)) == s[i..i + 2]
  {
  }

  /** A four-digit number splits back into its century and its last two digits. */
  lemma CenturySplit(hi: int, lo: int)
    requires 0 <= hi < 100 && 0 <= lo < 100
    ensures (hi * 100 + lo) / 100 == hi && (hi * 100 + lo) % 100 == lo
  {
  }

  /**
   * `QDateTime::fromString(text, Qt::ISODate)` for the forms "yyyy-MM-dd"
   * (midnight), "yyyy-MM-ddTHH:mm:ss" and "yyyy-MM-ddTHH:mm:ss.zzz"; None,
   * an invalid `QDateTime`, for any other text.
   */
  function ParseIso(text: string): (r: Option<DateTime>)
    ensures r.Some? ==> |text| == 10 || |text| == 19 || |text| == 23
    ensures r.Some? && |text| == 10 ==> FormatIso(r.value) == text + "T00:00:00"
    ensures r.Some? && |text| >= 19 ==> FormatIso(r.value) == text[..19]
    ensures r.Some? && |text| < 23 ==> r.value.msec == 0
  {
    if |text| != 10 && |text| != 19 && |text| != 23 then None
    else
      var date := ParseDate(text[..10]);
      if date.None? then None
      else if |text| == 10 then date
      else if text[10] != 'T' then None
      else
        var t := ParseTime(text[11..19]);
        var fractionOk := |text| == 19 || (text[19] == '.' && IsDigit(text[20]) && DigitsAt(text, 21));
        if t.Invalid? || !fractionOk then None
        else
          var ms := if |text| == 19 then 0 else DigitValue(text[20]) * 100 + TwoDigitsAt(text, 21);
          var dt: DateTime := date.value.(time := t, msec := ms);
          IsoText(text, dt);
          Some(dt)
  }

  /** The ISO form of a date and time read from `text` is the start of `text`. */
  lemma IsoText(text: string, dt: DateTime)
    requires |text| >= 19 && text[10] == 'T'
    requires FormatDate(dt.year, dt.month, dt.day) == text[..10] && FormatTime(dt.time) == text[11..19]
    ensures FormatIso(dt) == text[..19]
  {
    assert text[..19] == text[..10] + "T" + text[11..19];
  }

  /** A timestamp written in ISO form reads back as itself, without its milliseconds. */
  lemma IsoRoundTrip(dt: DateTime)
    ensures ParseIso(FormatIso(dt)) == Option<DateTime>.Some(dt.(msec := 0))
  {
    var text := FormatIso(dt);
    DateRoundTrip(dt.year, dt.month, dt.day);
    TimeRoundTrip(dt.time);
    assert text[11..19] == FormatTime(dt.time);
  }

  lemma DateRoundTrip(year: int, month: int, day: int)
    requires 1 <= year <= 9999 && 1 <= month <= 12 && 1 <= day <= DaysInMonth(year, month)
    ensures ParseDate(FormatDate(year, month, day)) == Option<DateTime>.Some(Stamp(year, month, day, At(0, 0, 0), 0))
  {
    var s := FormatDate(year, month, day);
    assert s[0..2] == Pad2(year / 100) && s[2..4] == Pad2(year % 100);
    assert s[5..7] == Pad2(month) && s[8..10] == Pad2(day);
    assert FourDigitsAt(s, 0) == year;
  }

  /** `AlarmManager::dayOfWeekToString`: the upper-case English name of days 1..7, else "". */
  function DayName(day: int): (r: string)
    ensures r != "" <==> 1 <= day <= 7
  {
    match day
    case 1 => "MONDAY"
    case 2 => "TUESDAY"
    case 3 => "WEDNESDAY"
    case 4 => "THURSDAY"
    case 5 => "FRIDAY"
    case 6 => "SATURDAY"
    case 7 => "SUNDAY"
    case _ => ""
  }

  /** `AlarmManager::parseDayOfWeek`: the day number of an upper-case English name, else 0. */
  function ParseDay(name: string): (r: int)
    ensures 0 <= r <= 7
    ensures r != 0 ==> DayName(r) == name
    ensures r == 0 ==> forall d :: 1 <= d <= 7 ==> DayName(d) != name
  {
    if name == "MONDAY" then 1
    else if name == "TUESDAY" then 2
    else if name == "WEDNESDAY" then 3
    else if name == "THURSDAY" then 4
    else if name == "FRIDAY" then 5
    else if name == "SATURDAY" then 6
    else if name == "SUNDAY" then 7
    else 0
  }

  /** Day codes survive a round trip through their names. */
  lemma DayCodesRoundTrip(day: int)
    requires 1 <= day <= 7
    ensures ParseDay(DayName(day)) == day
  {
  }

  /** The seven day codes the device understands. */
  const Week: set<int> := set d | 1 <= d <= 7

  /**
   * An alarm record. `createdAt` is its creation time (None when unset or invalid) and
   * `lastTriggered` the julian day it last fired, if any.
   */
  datatype Alarm = Alarm(
    alarmId: int,
    deviceId: int,
    alarmName: string,
    alarmTime: QTime,
    repeatDays: set<int>,
    isActive: bool,
    createdAt: Option<DateTime>,
    lastTriggered: Option<int>)

  /** The names of the days of `days` from `from` to 7, in week order. */
  function DayNamesFrom(days: set<int>, from: int): seq<Value>
    requires 1 <= from <= 8
    decreases 8 - from
  {
    if from == 8 then []
    else (if from in days then [Str(DayName(from))] else []) + DayNamesFrom(days, from + 1)
  }

  /** The day numbers named in a list, unknown names skipped. */
  function ParseDays(names: seq<Value>): (r: set<int>)
    ensures r <= Week
  {
    if |names| == 0 then {}
    else
      var d := ParseDay(ToStr(names[0]));
      (if d > 0 then {d} else {}) + ParseDays(names[1..])
  }

  /** Parsing a concatenation parses each part. */
  lemma {:induction false} ParseDaysAppend(a: seq<Value>, b: seq<Value>)
    ensures ParseDays(a + b) == ParseDays(a) + ParseDays(b)
    decreases |a|
  {
    if |a| > 0 {
      assert (a + b)[1..] == a[1..] + b;
      assert (a + b)[0] == a[0];
      var first := ParseDay(ToStr(a[0]));
      var one: set<int> := if first > 0 then {first} else {};
      assert ParseDays(a + b) == one + ParseDays(a[1..] + b);
      assert ParseDays(a) == one + ParseDays(a[1..]);
      ParseDaysAppend(a[1..], b);
    } else {
      assert a + b == b;
    }
  }

  /** One step of listing: the first day, if present, is parsed back to itself. */
  lemma ParseDayNamesStep(days: set<int>, from: int)
    requires 1 <= from < 8
    ensures ParseDays(DayNamesFrom(days, from)) ==
      (if from in days then {from} else {}) + ParseDays(DayNamesFrom(days, from + 1))
  {
    var head: seq<Value> := if from in days then [Str(DayName(from))] else [];
    var rest := DayNamesFrom(days, from + 1);
    assert DayNamesFrom(days, from) == head + rest;
    ParseDaysAppend(head, rest);
    if from in days {
      DayCodesRoundTrip(from);
      assert head[1..] == [];
    }
  }

  /** The members of `days` from `from` to 7. */
  function DaysFrom(days: set<int>, from: int): set<int>
  {
    set d | d in days && from <= d <= 7
  }

  /** `DaysFrom` splits into its first day and the rest. */
  lemma DaysFromSplit(days: set<int>, from: int)
    ensures DaysFrom(days, from) == (if from in days && from <= 7 then {from} else {}) + DaysFrom(days, from + 1)
  {
    var all := DaysFrom(days, from);
    var rest := (if from in days && from <= 7 then {from} else {}) + DaysFrom(days, from + 1);
    forall x | x in all ensures x in rest {
      if x != from {
        assert x in DaysFrom(days, from + 1);
      }
    }
    forall x | x in rest ensures x in all {
    }
  }

  /** Counting from Monday keeps exactly the valid day codes. */
  lemma DaysFromOne(days: set<int>)
    ensures DaysFrom(days, 1) == days * Week
  {
    forall x | x in days * Week ensures x in DaysFrom(days, 1) {
      assert 1 <= x <= 7;
    }
  }

  lemma {:induction false} ParseDayNamesFrom(days: set<int>, from: int)
    requires 1 <= from <= 8
    ensures ParseDays(DayNamesFrom(days, from)) == DaysFrom(days, from)
    decreases 8 - from
  {
    if from < 8 {
      DaysFromSplit(days, from);
      ParseDayNamesStep(days, from);
      ParseDayNamesFrom(days, from + 1);
    } else {
      assert DaysFrom(days, from) == {} by {
        forall x | x in DaysFrom(days, from) ensures false {
        }
      }
    }
  }

  /** `Alarm::toVariantMap`: lastTriggered is not written; only days 1..7 are listed. */
  function ToVariantMap(a: Alarm): (r: map<string, Value>)
    ensures r.Keys == {"alarmId", "deviceId", "alarmName", "alarmTime", "repeatDays", "isActive", "createdAt"}
  {
    map[
      "alarmId" := Int(a.alarmId),
      "deviceId" := Int(a.deviceId),
      "alarmName" := Str(a.alarmName),
      "alarmTime" := Str(FormatTime(a.alarmTime)),
      "repeatDays" := List(DayNamesFrom(a.repeatDays, 1)),
      "isActive" := Bool(a.isActive),
      "createdAt" := Str(CreatedAtText(a.createdAt))]
  }

  /**
   * `Alarm::fromVariantMap`: a missing "isActive" reads as false, an
   * unparsable time as invalid, and unknown day names are skipped.
   */
  function FromVariantMap(m: map<string, Value>): (r: Alarm)
    ensures r.repeatDays <= Week
    ensures r.lastTriggered.None?
    ensures "isActive" !in m ==> !r.isActive
  {
    Alarm(
      ToInt(Get(m, "alarmId")),
      ToInt(Get(m, "deviceId")),
      ToStr(Get(m, "alarmName")),
      ParseTime(ToStr(Get(m, "alarmTime"))),
      ParseDays(ToList(Get(m, "repeatDays"))),
      ToBool(Get(m, "isActive")),
      ParseCreatedAt(ToStr(Get(m, "createdAt"))),
      None)
  }

  /** The written creation time: its ISO form, or "" for an invalid one. */
  function CreatedAtText(c: Option<DateTime>): (r: string)
    ensures c.None? <==> r == ""
  {
    if c.Some? then FormatIso(c.value) else ""
  }

  /** The creation time read back: unset for "", else what the ISO parser makes of the text. */
  function ParseCreatedAt(text: string): (r: Option<DateTime>)
    ensures r.Some? ==> CreatedAtText(r) == text || |text| == 10 || |text| == 23
    ensures r.Some? ==> CreatedAtText(r) == text || CreatedAtText(r)[..10] == text[..10]
  {
    if text == "" then None else ParseIso(text)
  }

  /** A creation time without its milliseconds, which the ISO form does not carry. */
  function WholeSeconds(c: Option<DateTime>): (r: Option<DateTime>)
    ensures r.Some? <==> c.Some?
    ensures r.Some? ==> r.value.msec == 0 && r.value.(msec := c.value.msec) == c.value
  {
    if c.Some? then Option<DateTime>.Some(c.value.(msec := 0)) else None
  }

  /**
   * Reading a creation time and writing it again: text the parser rejects
   * comes back as "", a date alone as its midnight, and a fraction of a
   * second is dropped.
   */
  lemma CreatedAtRewritten(text: string)
    ensures ParseIso(text).None? ==> CreatedAtText(ParseCreatedAt(text)) == ""
    ensures ParseIso(text).Some? && |text| == 10 ==> CreatedAtText(ParseCreatedAt(text)) == text + "T00:00:00"
    ensures ParseIso(text).Some? && |text| >= 19 ==> CreatedAtText(ParseCreatedAt(text)) == text[..19]
  {
    if text == "" {
      assert ParseIso(text).None?;
    }
  }

  /** Each key of the written map holds its own field. */
  lemma VariantMapEntries(a: Alarm)
    ensures Get(ToVariantMap(a), "alarmId") == Int(a.alarmId)
    ensures Get(ToVariantMap(a), "deviceId") == Int(a.deviceId)
    ensures Get(ToVariantMap(a), "alarmName") == Str(a.alarmName)
    ensures Get(ToVariantMap(a), "alarmTime") == Str(FormatTime(a.alarmTime))
    ensures Get(ToVariantMap(a), "repeatDays") == List(DayNamesFrom(a.repeatDays, 1))
    ensures Get(ToVariantMap(a), "isActive") == Bool(a.isActive)
    ensures Get(ToVariantMap(a), "createdAt") == Str(CreatedAtText(a.createdAt))
  {
  }

  /**
   * Writing an alarm out and reading it back keeps every field except the
   * out-of-range repeat days, the milliseconds of the creation time and the
   * last-triggered date.
   */
  lemma VariantMapRoundTrip(a: Alarm)
    ensures FromVariantMap(ToVariantMap(a))
         == a.(repeatDays := a.repeatDays * Week, createdAt := WholeSeconds(a.createdAt), lastTriggered := None)
  {
    if a.createdAt.Some? {
      IsoRoundTrip(a.createdAt.value);
    }
    VariantMapEntries(a);
    TimeRoundTrip(a.alarmTime);
    ParseDayNamesFrom(a.repeatDays, 1);
    DaysFromOne(a.repeatDays);
  }

  /** `Alarm::shouldTrigger`. */
  function ShouldTrigger(a: Alarm, now: Moment): (r: bool)
    ensures r ==> a.isActive && a.lastTriggered != Some(now.date)
    ensures r ==> a.alarmTime.At? && a.alarmTime.hour == now.hour && a.alarmTime.minute == now.minute
    ensures r ==> a.repeatDays == {} || DayOfWeek(now.date) in a.repeatDays
  {
    if !a.isActive then false
    else if a.lastTriggered.Some? && a.lastTriggered.value == now.date then false
    else if HourOf(a.alarmTime) != now.hour || MinuteOf(a.alarmTime) != now.minute then false
    else a.repeatDays == {} || DayOfWeek(now.date) in a.repeatDays
  }

  /** The seconds of the current moment play no part in the decision. */
  lemma ShouldTriggerIgnoresSeconds(a: Alarm, now: Moment, second: int)
    requires 0 <= second < 60
    ensures ShouldTrigger(a, now) == ShouldTrigger(a, now.(second := second))
  {
  }

  /** An active alarm, not yet fired today, fires at its hour and minute on a repeat day. */
  lemma ShouldTriggerWhenDue(a: Alarm, now: Moment)
    requires a.isActive && a.lastTriggered != Some(now.date)
    requires a.alarmTime.At? && a.alarmTime.hour == now.hour && a.alarmTime.minute == now.minute
    requires a.repeatDays == {} || DayOfWeek(now.date) in a.repeatDays
    ensures ShouldTrigger(a, now)
  {
  }

  /** Once stamped with today's date an alarm does not fire again today. */
  lemma NotTwiceADay(a: Alarm, now: Moment, later: Moment)
    requires later.date == now.date
    ensures !ShouldTrigger(a.(lastTriggered := Some(now.date)), later)
  {
  }

  /** Every key is a positive id and names the alarm stored under it. */
  ghost predicate WellKeyed(alarms: map<int, Alarm>)
  {
    forall id :: id in alarms ==> id > 0 && alarms[id].alarmId == id
  }

  /** One list entry as the manager reads it: a non-object reads as an empty map, hence id 0. */
  function DecodeEntry(v: Value): (r: Alarm)
    ensures r.alarmId == EntryId(v)
  {
    FromVariantMap(ToObject(v))
  }

  /** The id a list entry carries: its "alarmId" read as a number. */
  function EntryId(v: Value): int
  {
    ToInt(Get(ToObject(v), "alarmId"))
  }

  /** The table built from a list: entries with a positive id, later ones winning. */
  function AlarmsFromList(list: seq<Value>): (r: map<int, Alarm>)
    ensures WellKeyed(r)
  {
    if |list| == 0 then map[]
    else
      var m := AlarmsFromList(list[..|list| - 1]);
      var id := EntryId(list[|list| - 1]);
      if id > 0 then m[id := DecodeEntry(list[|list| - 1])] else m
  }

  /** Every entry of the list with a positive id has a place in the table. */
  lemma {:induction false} AlarmsFromListComplete(list: seq<Value>, i: int)
    requires 0 <= i < |list| && EntryId(list[i]) > 0
    ensures EntryId(list[i]) in AlarmsFromList(list)
    decreases |list|
  {
    var init := list[..|list| - 1];
    if i < |init| {
      assert list[i] == init[i];
      AlarmsFromListComplete(init, i);
    }
  }

  /** Every id in the table comes from an entry of the list. */
  lemma {:induction false} AlarmsFromListSound(list: seq<Value>, id: int)
    requires id in AlarmsFromList(list)
    ensures exists i :: 0 <= i < |list| && EntryId(list[i]) == id
    decreases |list|
  {
    var init := list[..|list| - 1];
    if id != EntryId(list[|list| - 1]) {
      AlarmsFromListSound(init, id);
      var i :| 0 <= i < |init| && EntryId(init[i]) == id;
      assert list[i] == init[i];
    }
  }

  /** The alarm that a check at `now` fires: the least id whose alarm is due. */
  ghost predicate IsFirstDue(alarms: map<int, Alarm>, now: Moment, id: int)
  {
    id in alarms && ShouldTrigger(alarms[id], now)
    && forall j :: j in alarms && j < id ==> !ShouldTrigger(alarms[j], now)
  }

  /** `/devices/<id>/request/alarms`, the topic on which the device asks for its alarm list. */
  function RequestAlarmsTopic(deviceUniqueId: string): string
  {
    "/devices/" + deviceUniqueId + "/request/alarms"
  }

  datatype Event =
    | AlarmsChanged
    | AlarmUpdated(id: int)
    | AlarmDeleted(id: int)
    | AlarmTriggered(alarm: map<string, Value>)
    | TriggeredStateChanged
    | CurrentAlarmChanged
    | Saved(table: map<int, Alarm>)
    | PublishMqttRequest(topic: string, payload: string)

  class Manager {
    var alarms: map<int, Alarm>
    var isAlarmTriggered: bool
    var currentAlarmName: string
    var currentAlarmId: int
    /** Signals emitted and table snapshots written to the storage file, in order. */
    var events: seq<Event>

    ghost predicate Valid()
      reads this
    {
      WellKeyed(alarms)
      && (!isAlarmTriggered ==> currentAlarmName == "" && currentAlarmId == 0)
    }

    constructor()
      ensures Valid()
      ensures alarms == map[] && !isAlarmTriggered && currentAlarmName == "" && currentAlarmId == 0
      ensures events == []
    {
      alarms := map[];
      isAlarmTriggered := false;
      currentAlarmName := "";
      currentAlarmId := 0;
      events := [];
    }

    /** The table is replaced by the one built from `list`; nothing else changes. */
    method ReplaceAll(list: seq<Value>)
      modifies this
      ensures alarms == AlarmsFromList(list)
      ensures isAlarmTriggered == old(isAlarmTriggered) && currentAlarmName == old(currentAlarmName)
      ensures currentAlarmId == old(currentAlarmId) && events == old(events)
    {
      alarms := map[];
      var i := 0;
      while i < |list|
        invariant 0 <= i <= |list|
        invariant alarms == AlarmsFromList(list[..i])
        invariant isAlarmTriggered == old(isAlarmTriggered) && currentAlarmName == old(currentAlarmName)
        invariant currentAlarmId == old(currentAlarmId) && events == old(events)
      {
        var a := DecodeEntry(list[i]);
        if a.alarmId > 0 {
          alarms := alarms[a.alarmId := a];
        }
        assert list[..i + 1][..i] == list[..i];
        i := i + 1;
      }
      assert list[..i] == list;
    }

    /**
     * `loadFromFile`: `doc` is the parsed storage file, None when it is
     * missing, unreadable or not JSON. Anything but an array is refused
     * with the table untouched.
     */
    method LoadFromFile(doc: Option<Value>) returns (ok: bool)
      requires Valid()
      modifies this
      ensures Valid()
      ensures ok <==> doc.Some? && doc.value.List?
      ensures ok ==> alarms == AlarmsFromList(doc.value.items) && events == old(events) + [AlarmsChanged]
      ensures !ok ==> alarms == old(alarms) && events == old(events)
      ensures isAlarmTriggered == old(isAlarmTriggered) && currentAlarmName == old(currentAlarmName)
      ensures currentAlarmId == old(currentAlarmId)
    {
      if doc.None? || !doc.value.List? {
        return false;
      }
      ReplaceAll(doc.value.items);
      events := events + [AlarmsChanged];
      return true;
    }

    /** `handleAlarmUpsert`: store the alarm under its id, or ignore it when the id is not positive. */
    method HandleAlarmUpsert(data: map<string, Value>)
      requires Valid()
      modifies this
      ensures Valid()
      ensures var a := FromVariantMap(data);
        if a.alarmId <= 0 then alarms == old(alarms) && events == old(events)
        else (alarms == old(alarms)[a.alarmId := a]
              && events == old(events) + [Saved(alarms), AlarmUpdated(a.alarmId), AlarmsChanged])
      ensures isAlarmTriggered == old(isAlarmTriggered) && currentAlarmName == old(currentAlarmName)
      ensures currentAlarmId == old(currentAlarmId)
    {
      var a := FromVariantMap(data);
      if a.alarmId <= 0 {
        return;
      }
      alarms := alarms[a.alarmId := a];
      events := events + [Saved(alarms), AlarmUpdated(a.alarmId), AlarmsChanged];
    }

    /** `handleAlarmDelete`: remove the alarm with the given id, if the id is positive and known. */
    method HandleAlarmDelete(data: map<string, Value>)
      requires Valid()
      modifies this
      ensures Valid()
      ensures var id := ToInt(Get(data, "alarmId"));
        if id <= 0 || id !in old(alarms) then alarms == old(alarms) && events == old(events)
        else (alarms == old(alarms) - {id}
              && events == old(events) + [Saved(alarms), AlarmDeleted(id), AlarmsChanged])
      ensures isAlarmTriggered == old(isAlarmTriggered) && currentAlarmName == old(currentAlarmName)
      ensures currentAlarmId == old(currentAlarmId)
    {
      var id := ToInt(Get(data, "alarmId"));
      if id <= 0 || id !in alarms {
        return;
      }
      alarms := alarms - {id};
      events := events + [Saved(alarms), AlarmDeleted(id), AlarmsChanged];
    }

    /** `handleAlarmList`: the backend's list replaces the whole table. */
    method HandleAlarmList(list: seq<Value>)
      requires Valid()
      modifies this
      ensures Valid()
      ensures alarms == AlarmsFromList(list)
      ensures events == old(events) + [Saved(alarms), AlarmsChanged]
      ensures isAlarmTriggered == old(isAlarmTriggered) && currentAlarmName == old(currentAlarmName)
      ensures currentAlarmId == old(currentAlarmId)
    {
      ReplaceAll(list);
      events := events + [Saved(alarms), AlarmsChanged];
    }

    /** `requestAlarmsFromBackend`: ask for the list on the request topic, unless the id is empty. */
    method RequestAlarmsFromBackend(deviceUniqueId: string)
      modifies this
      ensures deviceUniqueId == "" ==> events == old(events)
      ensures deviceUniqueId != "" ==> events == old(events) + [PublishMqttRequest(RequestAlarmsTopic(deviceUniqueId), "")]
      ensures alarms == old(alarms) && isAlarmTriggered == old(isAlarmTriggered)
      ensures currentAlarmName == old(currentAlarmName) && currentAlarmId == old(currentAlarmId)
    {
      if deviceUniqueId == "" {
        return;
      }
      events := events + [PublishMqttRequest(RequestAlarmsTopic(deviceUniqueId), "")];
    }

    /**
     * `checkAlarms`: while no alarm is showing, and only at second 0, fire the
     * due alarm with the least id (the table iterates in ascending id order)
     * and stamp it with today's date.
     */
    method CheckAlarms(now: Moment) returns (fired: Option<int>)
      requires Valid()
      modifies this
      ensures Valid()
      ensures fired.Some? ==> !old(isAlarmTriggered) && now.second == 0 && IsFirstDue(old(alarms), now, fired.value)
      ensures fired.None? ==>
        (old(isAlarmTriggered) || now.second != 0
         || forall id :: id in old(alarms) ==> !ShouldTrigger(old(alarms)[id], now))
      ensures fired.None? ==>
        (alarms == old(alarms) && events == old(events)
         && isAlarmTriggered == old(isAlarmTriggered) && currentAlarmName == old(currentAlarmName)
         && currentAlarmId == old(currentAlarmId))
      ensures fired.Some? ==>
        (var a := old(alarms)[fired.value];
         alarms == old(alarms)[fired.value := a.(lastTriggered := Some(now.date))]
         && isAlarmTriggered && currentAlarmName == a.alarmName && currentAlarmId == a.alarmId
         && events == old(events) + [AlarmTriggered(ToVariantMap(a)), TriggeredStateChanged, CurrentAlarmChanged])
    {
      if isAlarmTriggered {
        return None;
      }
      var table := alarms;
      var keys := table.Keys;
      var best: Option<int> := None;
      while keys != {}
        invariant keys <= table.Keys
        invariant alarms == table && events == old(events) && !isAlarmTriggered
        invariant currentAlarmName == old(currentAlarmName) && currentAlarmId == old(currentAlarmId)
        invariant best.Some? ==> best.value in table && best.value !in keys && ShouldTrigger(table[best.value], now)
        invariant forall j :: j in table && j !in keys && ShouldTrigger(table[j], now) ==> best.Some? && best.value <= j
        decreases keys
      {
        var k := PickKey(keys);
        if ShouldTrigger(table[k], now) && (best.None? || k < best.value) {
          best := Some(k);
        }
        keys := keys - {k};
      }
      if best.None? || now.second != 0 {
        return None;
      }
      var id := best.value;
      var a := alarms[id];
      TriggerAlarm(a);
      alarms := alarms[id := a.(lastTriggered := Some(now.date))];
      return Some(id);
    }

    /** `triggerAlarm`: show the alarm and announce it. */
    method TriggerAlarm(a: Alarm)
      modifies this
      ensures isAlarmTriggered && currentAlarmName == a.alarmName && currentAlarmId == a.alarmId
      ensures events == old(events) + [AlarmTriggered(ToVariantMap(a)), TriggeredStateChanged, CurrentAlarmChanged]
      ensures alarms == old(alarms)
    {
      isAlarmTriggered := true;
      currentAlarmName := a.alarmName;
      currentAlarmId := a.alarmId;
      events := events + [AlarmTriggered(ToVariantMap(a)), TriggeredStateChanged, CurrentAlarmChanged];
    }

    /** `dismissAlarm`: clear the showing alarm; nothing happens when none is showing. */
    method DismissAlarm()
      requires Valid()
      modifies this
      ensures Valid()
      ensures !isAlarmTriggered && currentAlarmName == "" && currentAlarmId == 0
      ensures old(isAlarmTriggered) ==> events == old(events) + [TriggeredStateChanged, CurrentAlarmChanged]
      ensures !old(isAlarmTriggered) ==> events == old(events)
      ensures alarms == old(alarms)
    {
      if !isAlarmTriggered {
        return;
      }
      isAlarmTriggered := false;
      currentAlarmName := "";
      currentAlarmId := 0;
      events := events + [TriggeredStateChanged, CurrentAlarmChanged];
    }
  }
}
