/**
 * src/components/Timetable.tsx: the week view. It picks the timetable of the roll query or the
 * sections query, shows a skeleton while loading and a failure text on error, and otherwise
 * one tab per day from Monday to Saturday, each day's classes sorted by their numeric time key.
 */
module TimetableView {
  import opened Wrappers
  import opened Schedule
  import Helpers
  import Queries

  const NoClassesText := "No Classes Today"
  const LoadFailedText := "Failed to load timetable"

  /** The tab opened first: Sunday, which has no tab, opens Monday. */
  function InitialTab(dayIndex: int): (tab: int)
    requires 0 <= dayIndex <= 6
    ensures 0 <= tab < |Routes()|
    ensures dayIndex < 6 ==> Routes()[tab] == Helpers.DAYS[dayIndex]
    ensures dayIndex == 6 ==> Routes()[tab] == "MON"
  {
    RoutesAreMondayToSaturday();
    if dayIndex == 6 then 0 else dayIndex
  }

  /** `days.filter(day => day !== "SUN")`. */
  function WithoutSunday(days: seq<string>): (r: seq<string>)
    ensures forall d :: d in r <==> d in days && d != "SUN"
    ensures |r| <= |days|
  {
    if days == [] then []
    else (if days[0] == "SUN" then [] else [days[0]]) + WithoutSunday(days[1..])
  }

  /** The tab keys: the week labels without Sunday, in their order. */
  function Routes(): seq<string>
  {
    WithoutSunday(Helpers.DAYS)
  }

  /** The tabs run from Monday to Saturday, which are the first six week labels. */
  lemma RoutesAreMondayToSaturday()
    ensures Routes() == Helpers.DAYS[..6]
    ensures Routes() == ["MON", "TUE", "WED", "THU", "FRI", "SAT"]
  {
    var days := Helpers.DAYS;
    assert days[6..] == ["SUN"];
    assert WithoutSunday(days[6..]) == [];
    assert WithoutSunday(days[5..]) == ["SAT"];
    assert WithoutSunday(days[4..]) == ["FRI", "SAT"];
    assert WithoutSunday(days[3..]) == ["THU", "FRI", "SAT"];
    assert WithoutSunday(days[2..]) == ["WED", "THU", "FRI", "SAT"];
    assert WithoutSunday(days[1..]) == ["TUE", "WED", "THU", "FRI", "SAT"];
  }

  /** Every day opens on its own tab when the day is read from the clock's weekday `jsDay`. */
  lemma InitialTabIsToday(jsDay: int)
    requires 0 <= jsDay <= 6
    ensures var today := Helpers.GetCurrentDay(jsDay);
      Routes()[InitialTab(today.dayIndex)] == if jsDay == 0 then "MON" else today.day
  {
  }

  /** The state a query reports to the view. */
  datatype QueryView = QueryView(data: Option<Grouped>, isLoading: bool, error: Option<string>)

  /** `(rollNumber ? ttByRoll : ttBySections) ?? {}`. */
  function DisplayedTimetable(rollNumber: Option<string>, byRoll: QueryView, bySections: QueryView): (t: Grouped)
    ensures Queries.Truthy(rollNumber) ==> t == byRoll.data.GetOr([])
    ensures !Queries.Truthy(rollNumber) ==> t == bySections.data.GetOr([])
  {
    (if Queries.Truthy(rollNumber) then byRoll.data else bySections.data).GetOr([])
  }

  /** What the view shows. */
  datatype Screen = Skeleton | LoadFailed | DayTabs(timetable: Grouped, initialTab: int)

  /** The view for the two queries' states, on the day with Monday-first index `dayIndex`. */
  function Render(rollNumber: Option<string>, byRoll: QueryView, bySections: QueryView, dayIndex: int): (s: Screen)
    requires 0 <= dayIndex <= 6
    ensures s.Skeleton? <==> byRoll.isLoading || bySections.isLoading
    ensures s.LoadFailed? <==> !byRoll.isLoading && !bySections.isLoading
                               && (byRoll.error.Some? || bySections.error.Some?)
    ensures s.DayTabs? ==> s.timetable == DisplayedTimetable(rollNumber, byRoll, bySections)
                           && 0 <= s.initialTab < |Routes()|
  {
    if byRoll.isLoading || bySections.isLoading then Skeleton
    else if byRoll.error.Some? || bySections.error.Some? then LoadFailed
    else DayTabs(DisplayedTimetable(rollNumber, byRoll, bySections), InitialTab(dayIndex))
  }

  /** The classes are in ascending order of their time key. */
  predicate SortedByTime(slots: seq<ScheduleSlot>)
  {
    forall x, y | 0 <= x < y < |slots| :: slots[x].timeSort <= slots[y].timeSort
  }

  /** Sorted up to index `n` inclusive, except that the element at `j` may be out of place to its left. */
  predicate SortedBut(s: seq<ScheduleSlot>, n: int, j: int)
  {
    forall x, y | 0 <= x < y <= n && y < |s| && y != j :: s[x].timeSort <= s[y].timeSort
  }

  /** Exchanges the elements at `j - 1` and `j`. */
  method Swap(a: array<ScheduleSlot>, j: int)
    requires 0 < j < a.Length
    modifies a
    ensures a[..] == old(a[..])[j - 1 := old(a[j])][j := old(a[j - 1])]
    ensures multiset(a[..]) == multiset(old(a[..]))
  {
    a[j - 1], a[j] := a[j], a[j - 1];
  }

  /** Moves the element at `i` left past every larger key, so that `a[..i + 1]` is sorted. */
  method InsertAt(a: array<ScheduleSlot>, i: int)
    requires 0 <= i < a.Length && SortedByTime(a[..i])
    modifies a
    ensures SortedByTime(a[..i + 1])
    ensures multiset(a[..]) == multiset(old(a[..]))
  {
    var j := i;
    while j > 0 && a[j - 1].timeSort > a[j].timeSort
      invariant 0 <= j <= i
      invariant SortedBut(a[..], i, j)
      invariant multiset(a[..]) == multiset(old(a[..]))
    {
      Swap(a, j);
      j := j - 1;
    }
  }

  /** `daySchedule.sort((a, b) => a.Time_Sort - b.Time_Sort)`, in place. */
  method SortByTime(a: array<ScheduleSlot>)
    modifies a
    ensures SortedByTime(a[..])
    ensures multiset(a[..]) == multiset(old(a[..]))
  {
    for i := 0 to a.Length
      invariant SortedByTime(a[..i])
      invariant multiset(a[..]) == multiset(old(a[..]))
    {
      InsertAt(a, i);
    }
    assert a[..a.Length] == a[..];
  }

  /** One day's tab: the message for a missing or empty day, otherwise its classes in time order. */
  datatype DayScene = NoClasses | Classes(slots: seq<ScheduleSlot>)

  /** The scene of the tab `day`; the day's classes are copied into an array and sorted there. */
  method RenderDay(timetable: Grouped, day: string) returns (scene: DayScene)
    ensures scene.NoClasses? <==> Lookup(timetable, day).None? || Lookup(timetable, day).value == []
    ensures scene.Classes? ==>
      SortedByTime(scene.slots) && multiset(scene.slots) == multiset(Lookup(timetable, day).value)
  {
    var daySchedule := Lookup(timetable, day);
    if daySchedule.None? || daySchedule.value == [] {
      return NoClasses;
    }
    var slots := daySchedule.value;
    var a := new ScheduleSlot[|slots|](i requires 0 <= i < |slots| => slots[i]);
    assert a[..] == slots;
    SortByTime(a);
    return Classes(a[..]);
  }
}
