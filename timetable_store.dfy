/**
 * store/timetableStore.ts: the older roll-number store that holds the grouped timetable
 * itself, its loading and error flags, the roll number and the reminder lead, persisting
 * three of them.
 */
module LegacyTimetableStore {
  import opened Wrappers
  import opened Schedule
  import opened Persistence
  import Helpers
  import TimetableApi
  import Notifications

  /** Every field of the store's state. `error` is `None` for `null`. */
  datatype StoreState = StoreState(
    timetable: Grouped, isLoading: bool, error: Option<string>,
    rollNumber: Option<string>, notificationTime: int)

  /** The fields `partialize` keeps. */
  datatype PersistedTimetable = PersistedTimetable(timetable: Grouped, rollNumber: Option<string>, notificationTime: int)

  const Initial := StoreState([], false, None, None, 0)

  /** `partialize`: the persisted subset of a state. */
  function Partialize(s: StoreState): (p: PersistedTimetable)
    ensures p.timetable == s.timetable && p.rollNumber == s.rollNumber && p.notificationTime == s.notificationTime
  {
    PersistedTimetable(s.timetable, s.rollNumber, s.notificationTime)
  }

  /** The persisted fields merged over the current state, as rehydration does. */
  function Restore(s: StoreState, p: PersistedTimetable): StoreState
  {
    StoreState(p.timetable, s.isLoading, s.error, p.rollNumber, p.notificationTime)
  }

  /**
   * Saving and restoring round-trips the persisted fields and nothing else: restoring what was
   * saved from `t` into `s` gives `t`'s timetable, roll and lead with `s`'s transient flags.
   */
  lemma PersistRoundTrip(s: StoreState, t: StoreState)
    ensures var r := Restore(s, Partialize(t));
      && Partialize(r) == Partialize(t)
      && r.isLoading == s.isLoading && r.error == s.error
  {
  }

  /** The state after rehydration and the stored-settings reconciliation that follows it. */
  function Rehydrated(s: StoreState, h: Hydration<PersistedTimetable>, settings: Notifications.NotificationSettings): (r: StoreState)
    ensures h.HydrationFailed? ==> r == s
    ensures h.Hydrated? ==> r.notificationTime == settings.minutesBefore
    ensures h.Hydrated? && h.saved.Some? ==>
      r.timetable == h.saved.value.timetable && r.rollNumber == h.saved.value.rollNumber
    ensures h.Hydrated? && h.saved.None? ==> r.timetable == s.timetable && r.rollNumber == s.rollNumber
    ensures r.isLoading == s.isLoading && r.error == s.error
  {
    match h
    case HydrationFailed => s
    case Hydrated(saved) =>
      var merged := if saved.Some? then Restore(s, saved.value) else s;
      if settings.minutesBefore != merged.notificationTime
      then merged.(notificationTime := settings.minutesBefore)
      else merged
  }

  class TimetableStore {
    var timetable: Grouped
    var isLoading: bool
    var error: Option<string>
    var rollNumber: Option<string>
    var notificationTime: int

    function State(): StoreState
      reads this
    {
      StoreState(timetable, isLoading, error, rollNumber, notificationTime)
    }

    /** The store as created: empty timetable, idle, no error, no roll, reminders off. */
    constructor ()
      ensures State() == Initial
    {
      timetable := [];
      isLoading := false;
      error := None;
      rollNumber := None;
      notificationTime := 0;
    }

    /** `setRollNumber(roll)`. */
    method SetRollNumber(roll: string)
      modifies this
      ensures State() == old(State()).(rollNumber := Some(roll))
    {
      rollNumber := Some(roll);
    }

    /**
     * `setNotificationTime(minutes)`: records the lead, then reschedules reminders only when a
     * timetable with at least one day is loaded; a failure of that update is passed on.
     */
    method SetNotificationTime(minutes: int, center: Notifications.NotificationCenter, env: Notifications.Env)
      returns (r: Outcome<string>)
      modifies this, center
      ensures State() == old(State()).(notificationTime := minutes)
      ensures |old(timetable)| > 0 ==>
        (center.State(), r) == Notifications.UpdateEffect(old(center.State()), center.loadedAt, minutes, Some(old(timetable)), env)
      ensures |old(timetable)| == 0 ==> center.State() == old(center.State()) && r == Pass
    {
      var current := timetable;
      notificationTime := minutes;
      if |current| > 0 {
        r := center.UpdateNotificationSettings(minutes, Some(current), env);
      } else {
        r := Pass;
      }
    }

    /**
     * `fetchTimetable(roll)` on the date `today`, `rpc` being the backend's answer. On success the
     * timetable and roll are replaced; on failure the message is recorded and both are kept.
     * Either way the store ends idle.
     */
    method FetchTimetable(roll: string, today: Helpers.CalendarDate, rpc: (string, int) -> TimetableApi.Reply<ScheduleSlot>)
      modifies this
      ensures !isLoading && notificationTime == old(notificationTime)
      ensures var reply := rpc(roll, Helpers.AcademicYear(roll, today));
        match TimetableApi.CheckRows(reply, TimetableApi.NoRollTimetable)
        case Success(rows) =>
          timetable == TimetableApi.Group(rows) && |timetable| > 0 && rollNumber == Some(roll) && error.None?
        case Failure(message) =>
          timetable == old(timetable) && rollNumber == old(rollNumber) && error == Some(message)
    {
      isLoading := true;
      error := None;
      var result := TimetableApi.FetchTimetableByRoll(roll, today, rpc);
      match result {
        case Success(grouped) =>
          timetable := grouped;
          rollNumber := Some(roll);
          isLoading := false;
        case Failure(message) =>
          error := Some(message);
          isLoading := false;
      }
    }

    /**
     * `clearTimetable()`: turns reminders off (a failure there is swallowed), then resets every
     * field to its initial value.
     */
    method ClearTimetable(center: Notifications.NotificationCenter, env: Notifications.Env)
      modifies this, center
      ensures State() == Initial
      ensures center.State() == Notifications.UpdateEffect(old(center.State()), center.loadedAt, 0, Some([]), env).0
      ensures center.reminders == []
    {
      isLoading := true;
      var cleared := center.UpdateNotificationSettings(0, Some([]), env);
      timetable := [];
      rollNumber := None;
      error := None;
      isLoading := false;
      notificationTime := 0;
    }

    /** `partialize`. */
    function Persisted(): PersistedTimetable
      reads this
    {
      Partialize(State())
    }

    /**
     * Rehydration at start-up: the saved fields are merged in, then the stored reminder
     * settings overwrite the lead when they disagree with it.
     */
    method Rehydrate(h: Hydration<PersistedTimetable>, center: Notifications.NotificationCenter)
      modifies this
      ensures State() == Rehydrated(old(State()), h, Notifications.LoadSettings(center.stored, center.loadedAt))
    {
      match h {
        case HydrationFailed =>
        case Hydrated(saved) =>
          if saved.Some? {
            timetable := saved.value.timetable;
            rollNumber := saved.value.rollNumber;
            notificationTime := saved.value.notificationTime;
          }
          var settings := center.GetNotificationSettings();
          if settings.minutesBefore != notificationTime {
            notificationTime := settings.minutesBefore;
          }
      }
    }
  }
}
