/**
 * components/TimetableComponent.tsx: the week view of the earlier app. It shows the earlier
 * store's timetable, with a message in place of the tabs when the timetable has no day at all.
 * The tabs, the first tab and each day's scene follow the same rules as the current view.
 */
module LegacyTimetableView {
  import opened Schedule
  import Helpers
  import TimetableApi
  import TimetableView

  const NoDataText := "No timetable data available"

  datatype Screen = NoTimetableData | DayTabs(timetable: Grouped, initialTab: int)

  /** The view of the store's `timetable` on the day with Monday-first index `dayIndex`. */
  function Render(timetable: Grouped, dayIndex: int): (s: Screen)
    requires 0 <= dayIndex <= 6
    ensures s.NoTimetableData? <==> |timetable| == 0
    ensures s.DayTabs? ==> s.timetable == timetable && 0 <= s.initialTab < |TimetableView.Routes()|
  {
    if |timetable| == 0 then NoTimetableData
    else DayTabs(timetable, TimetableView.InitialTab(dayIndex))
  }

  /** A timetable the store took from a successful fetch always shows the tabs. */
  lemma FetchedTimetableShowsTabs(roll: string, today: Helpers.CalendarDate,
                                  rpc: (string, int) -> TimetableApi.Reply<ScheduleSlot>, dayIndex: int)
    requires 0 <= dayIndex <= 6
    requires TimetableApi.RollTimetable(roll, today, rpc).Success?
    ensures Render(TimetableApi.RollTimetable(roll, today, rpc).value, dayIndex).DayTabs?
  {
  }
}
