/*
 * The app's alarm screen: the repeat-day summary shown on each alarm, the
 * edit modal's state and the requests it issues (update, create, delete
 * and the active switch). The alarm API calls are recorded as requests;
 * the current time arrives as a parameter.
 */
module AlarmScreen {
  import opened Common
  import opened DayOfWeekConverter

  // ---------------------------------------------------------------------
  // Repeat days
  // ---------------------------------------------------------------------

  /** The one-syllable Korean label of each day. */
  function DayLabel(d: DayOfWeek): (text: string)
    ensures |text| == 1 && text[0] != ','
  {
    match d
    case MONDAY => "월"
    case TUESDAY => "화"
    case WEDNESDAY => "수"
    case THURSDAY => "목"
    case FRIDAY => "금"
    case SATURDAY => "토"
    case SUNDAY => "일"
  }

  /** Distinct days have distinct labels. */
  lemma DayLabelInjective(d: DayOfWeek, e: DayOfWeek)
    requires DayLabel(d) == DayLabel(e)
    ensures d == e
  {
  }

  const Everyday := "매일"
  const Weekdays := "평일"
  const NoRepeat := "반복 안함"

  predicate IsWeekday(d: DayOfWeek)
  {
    d != SATURDAY && d != SUNDAY
  }

  function Labels(days: seq<DayOfWeek>): (r: seq<string>)
    ensures |r| == |days|
    ensures forall k :: 0 <= k < |days| ==> r[k] == DayLabel(days[k])
  {
    if |days| == 0 then [] else [DayLabel(days[0])] + Labels(days[1..])
  }

  /**
   * `formatRepeatDays`: seven entries read "every day", five weekday
   * entries "weekdays", none "no repeat"; any other list is its labels in
   * list order joined with ", ".
   */
  function FormatRepeatDays(days: seq<DayOfWeek>): (r: string)
    ensures |days| == 7 ==> r == Everyday
    ensures |days| == 5 && (forall k :: 0 <= k < 5 ==> IsWeekday(days[k])) ==> r == Weekdays
    ensures |days| == 0 ==> r == NoRepeat
    ensures |days| != 7 && |days| != 0 && !(|days| == 5 && forall k :: 0 <= k < 5 ==> IsWeekday(days[k])) ==>
      |r| == 3 * |days| - 2 && forall k :: 0 <= k < |days| ==> r[3 * k] == DayLabel(days[k])[0]
  {
    if |days| == 7 then Everyday
    else if |days| == 5 && forall k :: 0 <= k < 5 ==> IsWeekday(days[k]) then Weekdays
    else if |days| == 0 then NoRepeat
    else
      JoinLabels(days);
      Join(Labels(days), ", ")
  }

  /** The labels joined with ", " put the k-th day's label at index 3k. */
  lemma {:induction false} JoinLabels(days: seq<DayOfWeek>)
    requires |days| >= 1
    ensures var r := Join(Labels(days), ", ");
      |r| == 3 * |days| - 2 && forall k :: 0 <= k < |days| ==> r[3 * k] == DayLabel(days[k])[0]
    decreases |days|
  {
    if |days| > 1 {
      JoinLabels(days[1..]);
      var rest := Join(Labels(days[1..]), ", ");
      assert Labels(days)[1..] == Labels(days[1..]);
      var r := Join(Labels(days), ", ");
      assert r == DayLabel(days[0]) + ", " + rest;
      forall k | 1 <= k < |days|
        ensures r[3 * k] == DayLabel(days[k])[0]
      {
        assert r[3 * k] == rest[3 * (k - 1)];
      }
    }
  }

  /** No two entries of the list are the same day. */
  predicate Distinct(days: seq<DayOfWeek>)
  {
    forall i, j :: 0 <= i < j < |days| ==> days[i] != days[j]
  }

  function DaySet(days: seq<DayOfWeek>): set<DayOfWeek>
  {
    set k | 0 <= k < |days| :: days[k]
  }

  const AllDays: set<DayOfWeek> := {MONDAY, TUESDAY, WEDNESDAY, THURSDAY, FRIDAY, SATURDAY, SUNDAY}
  const WeekdaySet: set<DayOfWeek> := {MONDAY, TUESDAY, WEDNESDAY, THURSDAY, FRIDAY}

  /** A list without repeats has as many days as entries. */
  lemma {:induction false} DistinctCount(days: seq<DayOfWeek>)
    requires Distinct(days)
    ensures |DaySet(days)| == |days|
    decreases |days|
  {
    if |days| > 0 {
      DistinctCount(days[1..]);
      assert DaySet(days) == {days[0]} + DaySet(days[1..]);
      assert days[0] !in DaySet(days[1..]);
    }
  }

  lemma DayCounts()
    ensures |AllDays| == 7 && |WeekdaySet| == 5
  {
  }

  lemma EveryDay(days: seq<DayOfWeek>)
    ensures DaySet(days) <= AllDays
    ensures (forall k :: 0 <= k < |days| ==> IsWeekday(days[k])) ==> DaySet(days) <= WeekdaySet
  {
    forall d | d in DaySet(days)
      ensures d in AllDays && (IsWeekday(d) ==> d in WeekdaySet)
    {
      match d
      case MONDAY =>
      case TUESDAY =>
      case WEDNESDAY =>
      case THURSDAY =>
      case FRIDAY =>
      case SATURDAY =>
      case SUNDAY =>
    }
  }

  /**
   * For a list without repeats, as the repeat-day toggle keeps it, the
   * summary reads "every day" exactly when every day is in it, "weekdays"
   * exactly when the days are Monday to Friday, and "no repeat" exactly
   * when it is empty.
   */
  /** A subset as large as its superset is all of it. */
  lemma SubsetOfSameSize(a: set<DayOfWeek>, b: set<DayOfWeek>)
    requires a <= b && |a| == |b|
    ensures a == b
  {
    assert b == a + (b - a);
    assert a * (b - a) == {};
    assert |b - a| == 0;
  }

  lemma {:induction false} SummaryMeansDays(days: seq<DayOfWeek>)
    requires Distinct(days)
    ensures FormatRepeatDays(days) == Everyday <==> DaySet(days) == AllDays
    ensures FormatRepeatDays(days) == Weekdays <==> DaySet(days) == WeekdaySet
    ensures FormatRepeatDays(days) == NoRepeat <==> |days| == 0
  {
    DistinctCount(days);
    DayCounts();
    EveryDay(days);
    if |days| == 7 {
      SubsetOfSameSize(DaySet(days), AllDays);
    } else if |days| == 5 && forall k :: 0 <= k < 5 ==> IsWeekday(days[k]) {
      SubsetOfSameSize(DaySet(days), WeekdaySet);
    }
  }

  /**
   * `toggleRepeatDay`: a day already in the list is removed, any other is
   * appended.
   */
  function ToggleDay(days: seq<DayOfWeek>, day: DayOfWeek): (r: seq<DayOfWeek>)
    ensures day in r <==> day !in days
    ensures forall e :: e != day ==> (e in r <==> e in days)
    ensures Distinct(days) ==> Distinct(r)
    ensures day !in days ==> r == days + [day]
  {
    if day in days then Without(days, day) else days + [day]
  }

  /** `filter(d => d !== day)`: the list with every entry of `day` removed, order kept. */
  function Without(days: seq<DayOfWeek>, day: DayOfWeek): (r: seq<DayOfWeek>)
    ensures day !in r
    ensures forall e :: e != day ==> (e in r <==> e in days)
    ensures Distinct(days) ==> Distinct(r)
    ensures |r| <= |days|
  {
    if |days| == 0 then []
    else if days[0] == day then Without(days[1..], day)
    else
      var rest := Without(days[1..], day);
      assert days[0] !in days[1..] ==> days[0] !in rest;
      [days[0]] + rest
  }

  /** Toggling a day in and out again restores the list exactly. */
  lemma {:induction false} ToggleTwiceRestores(days: seq<DayOfWeek>, day: DayOfWeek)
    requires day !in days
    ensures ToggleDay(ToggleDay(days, day), day) == days
  {
    WithoutLast(days, day);
  }

  lemma {:induction false} WithoutLast(days: seq<DayOfWeek>, day: DayOfWeek)
    requires day !in days
    ensures Without(days + [day], day) == days
    decreases |days|
  {
    if |days| == 0 {
      assert Without([day], day) == Without([], day);
    } else {
      assert (days + [day])[1..] == days[1..] + [day];
      WithoutLast(days[1..], day);
      assert [days[0]] + days[1..] == days;
    }
  }

  /** Toggling a day that is in a list without repeats and back keeps the same days. */
  lemma ToggleTwiceSameDays(days: seq<DayOfWeek>, day: DayOfWeek)
    requires day in days
    ensures DaySet(ToggleDay(ToggleDay(days, day), day)) == DaySet(days)
  {
    var r := ToggleDay(ToggleDay(days, day), day);
    forall e
      ensures e in DaySet(r) <==> e in DaySet(days)
    {
      assert e in DaySet(r) <==> e in r;
      assert e in DaySet(days) <==> e in days;
    }
  }

  // ---------------------------------------------------------------------
  // Times
  // ---------------------------------------------------------------------

  /** Number of leading decimal digits. */
  function DigitRun(s: string): (n: nat)
    ensures n <= |s|
    ensures forall i :: 0 <= i < n ==> IsDigit(s[i])
    ensures n < |s| ==> !IsDigit(s[n])
  {
    if |s| == 0 || !IsDigit(s[0]) then 0 else 1 + DigitRun(s[1..])
  }

  /** Number of leading white-space characters. */
  function SpaceRun(s: string): (n: nat)
    ensures n <= |s|
    ensures n < |s| ==> !IsJsWhitespace(s[n])
  {
    if |s| == 0 || !IsJsWhitespace(s[0]) then 0 else 1 + SpaceRun(s[1..])
  }

  /**
   * `parseInt(s, 10)`: leading white space skipped, an optional sign, then
   * the longest run of digits; no digits at all is NaN (None).
   */
  function ParseInt(s: string): (r: Option<int>)
    ensures |s| > 0 && (forall i :: 0 <= i < |s| ==> IsDigit(s[i])) ==> r == Some(ParseNat(s))
    ensures |s| == 0 ==> r.None?
  {
    var t := s[SpaceRun(s)..];
    var negative := |t| > 0 && t[0] == '-';
    var body := if |t| > 0 && (t[0] == '-' || t[0] == '+') then t[1..] else t;
    var n := DigitRun(body);
    if n == 0 then None
    else
      assert (forall i :: 0 <= i < |s| ==> IsDigit(s[i])) ==> body[..n] == s;
      Some(if negative then -(ParseNat(body[..n]) as int) else ParseNat(body[..n]))
  }

  /** Minutes in a day. */
  const DayMinutes := 1440

  /**
   * Where a `Date` set with `setHours(h)` and then `setMinutes(m)` lands,
   * as minutes since midnight: out-of-range fields roll over into the next
   * field, and a NaN field makes the date invalid (None).
   */
  function SetClock(hours: Option<int>, minutes: Option<int>): (clock: Option<int>)
    ensures clock.Some? <==> hours.Some? && minutes.Some?
    ensures clock.Some? ==> 0 <= clock.value < DayMinutes
    ensures hours.Some? && minutes.Some? && 0 <= hours.value < 24 && 0 <= minutes.value < 60 ==>
      clock == Some(hours.value * 60 + minutes.value)
  {
    if hours.None? || minutes.None? then None
    else Some((hours.value * 60 + minutes.value) % DayMinutes)
  }

  /** The edit modal's time for a stored "HH:MM:SS": its first two fields read with `parseInt`. */
  function ClockOf(alarmTime: string): (clock: Option<int>)
  {
    var parts := SplitAll(alarmTime, ':');
    SetClock(ParseInt(parts[0]), if |parts| >= 2 then ParseInt(parts[1]) else None)
  }

  /**
   * The time text `handleSaveAlarm` sends: hours and minutes padded to two
   * digits, then ":00". An invalid date prints NaN in both fields.
   */
  function FormatTime(clock: Option<int>): (r: string)
    requires clock.Some? ==> 0 <= clock.value < DayMinutes
    ensures clock.None? ==> r == "NaN:NaN:00"
    ensures clock.Some? ==> |r| == 8 && r[2] == ':' && r[5] == ':' && r[6..] == "00"
    ensures clock.Some? ==> IsDigit(r[0]) && IsDigit(r[1]) && IsDigit(r[3]) && IsDigit(r[4])
    ensures clock.Some? ==> DigitValue(r[0]) * 10 + DigitValue(r[1]) == clock.value / 60 < 24
    ensures clock.Some? ==> DigitValue(r[3]) * 10 + DigitValue(r[4]) == clock.value % 60
  {
    if clock.None? then "NaN:NaN:00"
    else Pad2(clock.value / 60) + ":" + Pad2(clock.value % 60) + ":00"
  }

  lemma ParsePad2(n: int)
    requires 0 <= n < 100
    ensures ParseInt(Pad2(n)) == Some(n)
  {
    var r := Pad2(n);
    assert r[..1] == [r[0]];
    assert ParseNat(r) == ParseNat(r[..1]) * 10 + DigitValue(r[1]);
  }

  lemma SplitFormatted(clock: int)
    requires 0 <= clock < DayMinutes
    ensures SplitAll(FormatTime(Some(clock)), ':') == [Pad2(clock / 60), Pad2(clock % 60), "00"]
  {
    var h := Pad2(clock / 60);
    var m := Pad2(clock % 60);
    assert FormatTime(Some(clock)) == h + [':'] + (m + [':'] + "00");
    SplitAllFront(h, ':', m + [':'] + "00");
    SplitAllFront(m, ':', "00");
    SplitAllNoSeparator("00", ':');
  }

  /** A clock splits into hours and minutes that set it back. */
  lemma ClockFromParts(clock: int)
    requires 0 <= clock < DayMinutes
    ensures 0 <= clock / 60 < 100 && 0 <= clock % 60 < 100
    ensures SetClock(Some(clock / 60), Some(clock % 60)) == Some(clock)
  {
    assert clock / 60 * 60 + clock % 60 == clock;
  }

  /**
   * Opening an alarm whose time was saved by the modal reads back the
   * saved time, so saving it again sends the same time text.
   */
  lemma EditKeepsTime(clock: int)
    requires 0 <= clock < DayMinutes
    ensures ClockOf(FormatTime(Some(clock))) == Some(clock)
  {
    var h, m := clock / 60, clock % 60;
    ClockFromParts(clock);
    var parts := SplitAll(FormatTime(Some(clock)), ':');
    SplitFormatted(clock);
    ParsePad2(h);
    ParsePad2(m);
    calc {
      ClockOf(FormatTime(Some(clock)));
      SetClock(ParseInt(parts[0]), ParseInt(parts[1]));
      { assert parts[0] == Pad2(h) && parts[1] == Pad2(m); }
      SetClock(Some(h), Some(m));
      Some(clock);
    }
  }

  // ---------------------------------------------------------------------
  // The modal and its requests
  // ---------------------------------------------------------------------

  /** An alarm as the server returns it. */
  datatype Alarm = Alarm(alarmId: int, alarmName: string, alarmTime: string, repeatDays: seq<DayOfWeek>, isActive: bool)

  /** The alarm API calls the screen makes. */
  datatype AlarmRequest =
    | Update(alarmId: int, name: string, time: string, days: seq<DayOfWeek>, active: bool)
    | Create(deviceId: int, name: string, time: string, days: seq<DayOfWeek>, active: bool)
    | Delete(id: int)

  const NewAlarmName := "새로운 알람"

  /**
   * `handleToggleSwitch`: an update of the same alarm with only its active
   * flag flipped.
   */
  function SwitchRequest(alarm: Alarm): (r: AlarmRequest)
    ensures r.Update? && r.alarmId == alarm.alarmId && r.active == !alarm.isActive
    ensures r.name == alarm.alarmName && r.time == alarm.alarmTime && r.days == alarm.repeatDays
  {
    Update(alarm.alarmId, alarm.alarmName, alarm.alarmTime, alarm.repeatDays, !alarm.isActive)
  }

  /** Two flips of the switch put the alarm back as it was. */
  lemma SwitchTwice(alarm: Alarm)
    ensures var r := SwitchRequest(alarm);
      SwitchRequest(Alarm(r.alarmId, r.name, r.time, r.days, r.active)) ==
        Update(alarm.alarmId, alarm.alarmName, alarm.alarmTime, alarm.repeatDays, alarm.isActive)
  {
  }

  class AlarmModal {
    /** The screen's device: the first of the user's devices. */
    const deviceId: int
    var visible: bool
    var editing: Option<Alarm>
    var name: string
    /** The picked time, minutes since midnight; None for an invalid date. */
    var clock: Option<int>
    var repeatDays: seq<DayOfWeek>
    var isActive: bool
    /** The alarm requests made, in order. */
    var requests: seq<AlarmRequest>

    ghost predicate Valid()
      reads this
    {
      clock.Some? ==> 0 <= clock.value < DayMinutes
    }

    constructor (deviceId0: int, now: int)
      requires 0 <= now < DayMinutes
      ensures Valid() && deviceId == deviceId0
      ensures !visible && editing.None? && name == "" && clock == Some(now)
      ensures repeatDays == [] && isActive && requests == []
    {
      deviceId := deviceId0;
      visible := false;
      editing := None;
      name := "";
      clock := Some(now);
      repeatDays := [];
      isActive := true;
      requests := [];
    }

    /**
     * `openAlarmModal`: an existing alarm fills the form from its fields
     * and its time text; none starts a new alarm named "새로운 알람" at the
     * current time, repeating on no day and active.
     */
    method OpenAlarmModal(alarm: Option<Alarm>, now: int)
      requires 0 <= now < DayMinutes
      modifies this`visible, this`editing, this`name, this`clock, this`repeatDays, this`isActive
      ensures Valid() && visible && editing == alarm
      ensures alarm.Some? ==>
        name == alarm.value.alarmName && clock == ClockOf(alarm.value.alarmTime) &&
        repeatDays == alarm.value.repeatDays && isActive == alarm.value.isActive
      ensures alarm.None? ==>
        name == NewAlarmName && clock == Some(now) && repeatDays == [] && isActive
    {
      editing := alarm;
      if alarm.Some? {
        name := alarm.value.alarmName;
        clock := ClockOf(alarm.value.alarmTime);
        repeatDays := alarm.value.repeatDays;
        isActive := alarm.value.isActive;
      } else {
        name := NewAlarmName;
        clock := Some(now);
        repeatDays := [];
        isActive := true;
      }
      visible := true;
    }

    /** A tap on a day chip toggles that day. */
    method ToggleRepeatDay(day: DayOfWeek)
      modifies this`repeatDays
      ensures repeatDays == ToggleDay(old(repeatDays), day)
    {
      repeatDays := ToggleDay(repeatDays, day);
    }

    /**
     * `handleSaveAlarm`: an update carrying the edited alarm's id when one
     * is being edited, otherwise a create carrying the screen's device;
     * either way with the form's fields and the formatted time. The modal
     * closes.
     */
    method HandleSaveAlarm()
      requires Valid()
      modifies this`requests, this`visible
      ensures !visible
      ensures var time := FormatTime(clock);
        requests == old(requests) + [
          if editing.Some? then Update(editing.value.alarmId, name, time, repeatDays, isActive)
          else Create(deviceId, name, time, repeatDays, isActive)]
    {
      var time := FormatTime(clock);
      if editing.Some? {
        requests := requests + [Update(editing.value.alarmId, name, time, repeatDays, isActive)];
      } else {
        requests := requests + [Create(deviceId, name, time, repeatDays, isActive)];
      }
      visible := false;
    }

    /** `handleToggleSwitch`. */
    method HandleToggleSwitch(alarm: Alarm)
      modifies this`requests
      ensures requests == old(requests) + [SwitchRequest(alarm)]
    {
      requests := requests + [SwitchRequest(alarm)];
    }

    /** `handleDeleteAlarm`: a delete only once the user confirms. */
    method HandleDeleteAlarm(alarmId: int, confirmed: bool)
      modifies this`requests
      ensures requests == old(requests) + (if confirmed then [Delete(alarmId)] else [])
    {
      if confirmed {
        requests := requests + [Delete(alarmId)];
      }
    }
  }
}
