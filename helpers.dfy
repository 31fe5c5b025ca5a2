/** utils/helpers.ts: the current day, the current time slot and the academic year. */
module Helpers {
  import opened Wrappers
  import opened JsText

  /**
   * `DAYS`, the week labels Monday first. utils/constants.ts is not part of this model; this
   * order is the one `getCurrentDay` assumes when it sends Sunday to index 6.
   */
  const DAYS: seq<string> := ["MON", "TUE", "WED", "THU", "FRI", "SAT", "SUN"]

  /** A calendar date as `getFullYear()` and `getMonth() + 1` (1 = January) report it. */
  datatype CalendarDate = CalendarDate(year: int, month: int)

  /** The result of `getCurrentDay`. */
  datatype CurrentDay = CurrentDay(day: string, dayIndex: int)

  /** Monday-first index of a `getDay()` value (0 = Sunday). */
  function DayIndex(jsDay: int): (i: int)
    requires 0 <= jsDay <= 6
    ensures 0 <= i <= 6
    ensures (i + 1) % 7 == jsDay
  {
    if jsDay == 0 then 6 else jsDay - 1
  }

  /** `getCurrentDay()` with `jsDay` the clock's `getDay()`. */
  function GetCurrentDay(jsDay: int): (r: CurrentDay)
    requires 0 <= jsDay <= 6
    ensures 0 <= r.dayIndex <= 6 && r.day == DAYS[r.dayIndex]
    ensures r.dayIndex == DayIndex(jsDay)
  {
    var i := DayIndex(jsDay);
    CurrentDay(DAYS[i], i)
  }

  /** `DayIndex` is a bijection from Sunday-first to Monday-first numbering. */
  lemma DayIndexInjective(a: int, b: int)
    requires 0 <= a <= 6 && 0 <= b <= 6
    requires DayIndex(a) == DayIndex(b)
    ensures a == b
  {
  }

  /**
   * Start of a `TIME_SLOTS` slotText ("HH:MM-HH:MM") in minutes after midnight: the part before
   * the first '-' split at ':' and read with `Number`; `None` when either number is NaN.
   */
  function SlotStartMinute(slotText: string): Option<int>
  {
    var hm := Split(Split(slotText, '-')[0], ':');
    var h := NumberOf(hm[0]);
    var m := if |hm| > 1 then NumberOf(hm[1]) else None;
    if h.Some? && m.Some? then Some(h.value * 60 + m.value) else None
  }

  /** The slot labelled `slotText` is running at minute `now` of the day. */
  predicate Covers(slotText: string, now: int)
  {
    var start := SlotStartMinute(slotText);
    start.Some? && start.value <= now < start.value + 60
  }

  /**
   * `getCurrentTimeSlot()` with `timeSlots` the `TIME_SLOTS` table and the clock's hour and
   * minute: the first slot that covers now, or `None` for `null`.
   */
  method GetCurrentTimeSlot(timeSlots: seq<string>, hour: int, minute: int) returns (r: Option<string>)
    ensures r.None? <==> forall i | 0 <= i < |timeSlots| :: !Covers(timeSlots[i], hour * 60 + minute)
    ensures r.Some? ==> exists i | 0 <= i < |timeSlots| ::
      (timeSlots[i] == r.value
       && Covers(timeSlots[i], hour * 60 + minute)
       && forall j | 0 <= j < i :: !Covers(timeSlots[j], hour * 60 + minute))
  {
    var currentTime := hour * 60 + minute;
    for i := 0 to |timeSlots|
      invariant forall j | 0 <= j < i :: !Covers(timeSlots[j], currentTime)
    {
      var slotStartTime := SlotStartMinute(timeSlots[i]);
      if slotStartTime.Some? && currentTime >= slotStartTime.value && currentTime < slotStartTime.value + 60 {
        return Some(timeSlots[i]);
      }
    }
    return None;
  }

  /** `parseInt('20' + rollNumber.substring(0, 2))`. */
  function AdmissionYear(roll: string): int
  {
    ParseInt("20" + roll[..if |roll| < 2 then |roll| else 2]).value
  }

  /** For a roll starting with two digits the admission year is 2000 plus those digits. */
  lemma AdmissionYearOfTwoDigits(roll: string)
    requires |roll| >= 2 && IsDigit(roll[0]) && IsDigit(roll[1])
    ensures AdmissionYear(roll) == 2000 + 10 * DigitValue(roll[0]) + DigitValue(roll[1])
  {
    var s := "20" + roll[..2];
    assert s + "" == s;
    assert AllDigits(s);
    ParseIntDigitsThen(s, "");
    assert s[..3] == ['2', '0', roll[0]] && s[..3][..2] == "20";
    assert ['2', '0'][..1] == "2" && "2"[..0] == "";
    assert DigitsValue("20") == 20;
    assert DigitsValue(s[..3]) == 200 + DigitValue(roll[0]);
  }

  /** `calculateAcademicYear(rollNumber)` on the date `today`. */
  function AcademicYear(roll: string, today: CalendarDate): int
  {
    var academicYear := today.year - AdmissionYear(roll);
    if today.month >= 7 then academicYear + 1 else academicYear
  }

  /** For a fixed date, a later admission year never gives a higher academic year. */
  lemma AcademicYearAntitone(older: string, newer: string, today: CalendarDate)
    requires AdmissionYear(older) <= AdmissionYear(newer)
    ensures AcademicYear(newer, today) <= AcademicYear(older, today)
  {
  }

  /** The academic year rises by one between June and July of the same year. */
  lemma AcademicYearJulyStep(roll: string, year: int)
    ensures AcademicYear(roll, CalendarDate(year, 7)) == AcademicYear(roll, CalendarDate(year, 6)) + 1
  {
  }

  /** ... and stays put from July to the next June: exactly one step per calendar year. */
  lemma AcademicYearSteady(roll: string, year: int, m1: int, m2: int)
    requires 7 <= m1 <= 12 && 1 <= m2 <= 6
    ensures AcademicYear(roll, CalendarDate(year + 1, m2)) == AcademicYear(roll, CalendarDate(year, m1))
  {
  }
}
