/**
 * The time arithmetic of src/utils/notifications.ts: reading a class's start hour from its
 * label, naming its weekday, moving back by the lead minutes and finding the next weekly
 * occurrence after "now".
 *
 * Time is measured in whole minutes on a week timeline: instant 0 is midnight at the start
 * of the Sunday of the current week, so `weekday * 1440 + minuteOfDay` is a moment of this
 * week and larger values lie in later weeks. JavaScript's `Date.setHours` normalises an
 * hour or minute outside its range by carrying into neighbouring days, which this timeline
 * does by plain addition.
 */
module ReminderTiming {
  import opened Wrappers
  import opened JsText
  import opened Schedule
  import Helpers

  const MinutesPerDay := 1440
  const MinutesPerWeek := 10080

  type Weekday = d: int | 0 <= d < 7
  type MinuteOfDay = m: int | 0 <= m < 1440

  /** The moment `new Date()` reads: its weekday (0 = Sunday) and minute of the day. */
  datatype WeekTime = WeekTime(weekday: Weekday, minuteOfDay: MinuteOfDay)

  /** A wall-clock hour and minute; either may lie outside its usual range. */
  datatype ClockTime = ClockTime(hour: int, minute: int)

  function Instant(now: WeekTime): (t: int)
    ensures 0 <= t < MinutesPerWeek
  {
    now.weekday * MinutesPerDay + now.minuteOfDay
  }

  /** The number the start label begins with: `parseInt(time.split("-")[0], 10)`. */
  function StartNumber(timeText: string): Option<nat>
  {
    ParseInt(Split(timeText, '-')[0])
  }

  /**
   * `parseTimeString`: hours below 8 are afternoon hours, and classes start on the hour.
   * `None` is the `NaN` hour of a label that does not begin with a digit.
   */
  function ParseTimeString(timeText: string): (r: Option<ClockTime>)
    ensures r.None? <==> StartNumber(timeText).None?
    ensures r.Some? ==> r.value.minute == 0 && r.value.hour >= 8
    ensures r.Some? ==> var n := StartNumber(timeText).value;
      (r.value.hour == n || r.value.hour == n + 12) && (r.value.hour == n <==> n >= 8)
  {
    match StartNumber(timeText)
    case None => None
    case Some(n) => Some(ClockTime(if n < 8 then n + 12 else n, 0))
  }

  /** The start number of a label is the run of digits before its first dash. */
  lemma StartNumberOfLabel(digits: string, rest: string)
    requires digits != [] && AllDigits(digits)
    ensures StartNumber(digits + "-" + rest) == Some(DigitsValue(digits))
  {
    assert '-' !in digits by {
      forall i | 0 <= i < |digits| ensures digits[i] != '-' { assert IsDigit(digits[i]); }
    }
    assert digits + "-" + rest == digits + ("-" + rest);
    SplitFirstPiece(digits, '-', "-" + rest);
    assert digits + "" == digits;
    ParseIntDigitsThen(digits, "");
  }

  /** A label that starts with digits and a dash reads as those digits, moved to the afternoon when below 8. */
  lemma ParseTimeLabel(digits: string, rest: string)
    requires digits != [] && AllDigits(digits)
    ensures var v := DigitsValue(digits);
      ParseTimeString(digits + "-" + rest) == Some(ClockTime(if v < 8 then v + 12 else v, 0))
  {
    StartNumberOfLabel(digits, rest);
  }

  /** The day labels in `getDay()` order: position `i` is weekday `i`. */
  const WeekLabels := ["SUN", "MON", "TUE", "WED", "THU", "FRI", "SAT"]

  /** `getWeekdayNumber`: a label's weekday, Monday for any unknown label. */
  function WeekdayNumber(dayLabel: string): Weekday
  {
    if dayLabel == "SUN" then 0
    else if dayLabel == "MON" then 1
    else if dayLabel == "TUE" then 2
    else if dayLabel == "WED" then 3
    else if dayLabel == "THU" then 4
    else if dayLabel == "FRI" then 5
    else if dayLabel == "SAT" then 6
    else 1
  }

  /**
   * The label `getCurrentDay` reports for a `getDay()` value is the one `getWeekdayNumber` maps
   * back to that same weekday, and it is Sunday's label exactly on Sunday.
   */
  lemma CurrentDayRoundTrip(jsDay: int)
    requires 0 <= jsDay <= 6
    ensures Helpers.GetCurrentDay(jsDay).day == WeekLabels[jsDay]
    ensures WeekdayNumber(Helpers.GetCurrentDay(jsDay).day) == jsDay
    ensures Helpers.GetCurrentDay(jsDay).day == "SUN" <==> jsDay == 0
  {
  }

  /** Each of the seven labels names its own weekday, and any other label is read as Monday. */
  lemma WeekdayNumberLabels(dayLabel: string)
    ensures dayLabel in WeekLabels ==> WeekLabels[WeekdayNumber(dayLabel)] == dayLabel
    ensures dayLabel !in WeekLabels ==> WeekdayNumber(dayLabel) == 1
  {
  }

  /**
   * The hour and minute `scheduleClassNotification` hands on after taking `lead` minutes off
   * the class start: one hour is borrowed when the minute goes negative, and a negative hour
   * wraps to the previous day's clock.
   */
  function ReminderAt(start: ClockTime, lead: int): (r: ClockTime)
    ensures start.hour >= 1 ==> r.hour * 60 + r.minute == start.hour * 60 + start.minute - lead
    ensures start.hour >= 1 ==> r.hour == start.hour || r.hour == start.hour - 1
    ensures 0 <= start.minute - lead + 60 && start.minute - lead < 60 ==> 0 <= r.minute < 60
    ensures start.minute - lead < -60 ==> r.minute < 0
  {
    var borrowed := if start.minute - lead < 0
      then ClockTime(start.hour - 1, start.minute - lead + 60)
      else ClockTime(start.hour, start.minute - lead);
    if borrowed.hour < 0 then ClockTime(borrowed.hour + 24, borrowed.minute) else borrowed
  }

  /** The lead adjustment as the source performs it, on two local variables. */
  method AdjustForLead(start: ClockTime, lead: int) returns (notificationHour: int, notificationMinute: int)
    ensures ClockTime(notificationHour, notificationMinute) == ReminderAt(start, lead)
  {
    notificationMinute := start.minute - lead;
    notificationHour := start.hour;
    if notificationMinute < 0 {
      notificationMinute := notificationMinute + 60;
      notificationHour := notificationHour - 1;
    }
    if notificationHour < 0 {
      notificationHour := notificationHour + 24;
    }
  }

  /**
   * The instant `getNextOccurrence(targetDay, h, m)` returns, where `timeOfDay = h * 60 + m`:
   * the target weekday of this week on or after today, moved a week on when it is today and
   * the time is not later than now.
   */
  function NextOccurrenceAt(targetDay: Weekday, timeOfDay: int, now: WeekTime): int
  {
    var daysUntil := if targetDay - now.weekday < 0 then targetDay - now.weekday + 7 else targetDay - now.weekday;
    var target := (now.weekday + daysUntil) * MinutesPerDay + timeOfDay;
    if daysUntil == 0 && target <= Instant(now) then target + MinutesPerWeek else target
  }

  /** `getNextOccurrence`, stepping a date forward as the source does. */
  method GetNextOccurrence(targetDay: Weekday, targetHour: int, targetMinute: int, now: WeekTime)
    returns (targetDate: int)
    ensures targetDate == NextOccurrenceAt(targetDay, targetHour * 60 + targetMinute, now)
  {
    var currentDay := now.weekday;
    var daysUntilTarget := targetDay - currentDay;
    if daysUntilTarget < 0 {
      daysUntilTarget := daysUntilTarget + 7;
    }
    var dayStart := (currentDay + daysUntilTarget) * MinutesPerDay;
    targetDate := dayStart + targetHour * 60 + targetMinute;
    if daysUntilTarget == 0 && targetDate <= Instant(now) {
      targetDate := targetDate + MinutesPerWeek;
    }
  }

  /** `t` is the given weekday at the given time of day, in some week. */
  predicate IsWeeklyOccurrence(t: int, weekday: Weekday, timeOfDay: int)
  {
    (t - weekday * MinutesPerDay - timeOfDay) % MinutesPerWeek == 0
  }

  /** Two instants of the same weekly occurrence are a whole number of weeks apart. */
  lemma OccurrencesWeeksApart(t: int, u: int, weekday: Weekday, timeOfDay: int)
    requires IsWeeklyOccurrence(t, weekday, timeOfDay) && IsWeeklyOccurrence(u, weekday, timeOfDay)
    requires t < u
    ensures u - t >= MinutesPerWeek
  {
    var a := t - weekday * MinutesPerDay - timeOfDay;
    var b := u - weekday * MinutesPerDay - timeOfDay;
    assert a == MinutesPerWeek * (a / MinutesPerWeek);
    assert b == MinutesPerWeek * (b / MinutesPerWeek);
    assert b - a == MinutesPerWeek * (b / MinutesPerWeek - a / MinutesPerWeek);
    assert b / MinutesPerWeek - a / MinutesPerWeek >= 1;
  }

  /**
   * For a time of day within the day, the next occurrence is the target weekday at that time,
   * strictly after now, at most a week after now, and no earlier occurrence lies in between.
   */
  lemma NextOccurrenceIsNext(targetDay: Weekday, timeOfDay: int, now: WeekTime)
    requires 0 <= timeOfDay < MinutesPerDay
    ensures var r := NextOccurrenceAt(targetDay, timeOfDay, now);
      && IsWeeklyOccurrence(r, targetDay, timeOfDay)
      && Instant(now) < r <= Instant(now) + MinutesPerWeek
      && forall t :: Instant(now) < t < r ==> !IsWeeklyOccurrence(t, targetDay, timeOfDay)
  {
    var r := NextOccurrenceAt(targetDay, timeOfDay, now);
    var k := if targetDay < now.weekday || r - targetDay * MinutesPerDay - timeOfDay == MinutesPerWeek then 1 else 0;
    assert r - targetDay * MinutesPerDay - timeOfDay == k * MinutesPerWeek;
    forall t | Instant(now) < t < r ensures !IsWeeklyOccurrence(t, targetDay, timeOfDay) {
      if IsWeeklyOccurrence(t, targetDay, timeOfDay) {
        OccurrencesWeeksApart(t, r, targetDay, timeOfDay);
      }
    }
  }

  /** The instant a slot's reminder is set for, or `None` when its label yields no hour. */
  function SlotTrigger(slot: ScheduleSlot, lead: int, now: WeekTime): Option<int>
  {
    match ParseTimeString(slot.time)
    case None => None
    case Some(start) =>
      var reminder := ReminderAt(start, lead);
      Some(NextOccurrenceAt(WeekdayNumber(slot.day), reminder.hour * 60 + reminder.minute, now))
  }

  /**
   * For a class that starts within the day and a lead of at most an hour, the reminder fires
   * exactly `lead` minutes before the class, on the class's weekday, within the coming week.
   */
  lemma SlotTriggerBeforeClass(slot: ScheduleSlot, lead: int, now: WeekTime)
    requires ParseTimeString(slot.time).Some? && ParseTimeString(slot.time).value.hour < 24
    requires 0 < lead <= 60
    ensures var start := ParseTimeString(slot.time).value;
      var at := start.hour * 60 - lead;
      && 0 <= at < MinutesPerDay
      && SlotTrigger(slot, lead, now) == Some(NextOccurrenceAt(WeekdayNumber(slot.day), at, now))
      && IsWeeklyOccurrence(SlotTrigger(slot, lead, now).value, WeekdayNumber(slot.day), at)
      && Instant(now) < SlotTrigger(slot, lead, now).value <= Instant(now) + MinutesPerWeek
  {
    var start := ParseTimeString(slot.time).value;
    NextOccurrenceIsNext(WeekdayNumber(slot.day), start.hour * 60 - lead, now);
  }
}
