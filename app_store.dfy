/**
 * src/store/appStore.ts: the preference store of the current app. It keeps only the user's
 * choices (roll number, or sections and year) and the reminder lead; timetables live in the
 * query cache.
 */
module PreferenceStore {
  import opened Wrappers
  import opened Persistence
  import Notifications

  /** Every field of the store's state. */
  datatype Preferences = Preferences(
    rollNumber: Option<string>, notificationTime: int,
    selectedSections: seq<string>, selectedYear: Option<string>)

  const Initial := Preferences(None, 0, [], None)

  /** `clearTimetable`: every field back to its initial value. */
  function Cleared(p: Preferences): Preferences
  {
    Preferences(None, 0, [], None)
  }

  /** Clearing restores the initial state, so clearing twice is clearing once. */
  lemma ClearIdempotent(p: Preferences)
    ensures Cleared(p) == Initial && Cleared(Cleared(p)) == Cleared(p)
  {
  }

  /** The fields `partialize` keeps: all four. */
  function Partialize(p: Preferences): (saved: Preferences)
    ensures saved == p
  {
    Preferences(p.rollNumber, p.notificationTime, p.selectedSections, p.selectedYear)
  }

  /** The state after rehydration and the stored-settings reconciliation that follows it. */
  function Rehydrated(p: Preferences, h: Hydration<Preferences>, settings: Notifications.NotificationSettings): (r: Preferences)
    ensures h.HydrationFailed? ==> r == p
    ensures h.Hydrated? ==> r.notificationTime == settings.minutesBefore
    ensures h.Hydrated? ==> var base := h.saved.GetOr(p);
      r.rollNumber == base.rollNumber && r.selectedSections == base.selectedSections
      && r.selectedYear == base.selectedYear
  {
    match h
    case HydrationFailed => p
    case Hydrated(saved) =>
      var merged := saved.GetOr(p);
      if settings.minutesBefore != merged.notificationTime
      then merged.(notificationTime := settings.minutesBefore)
      else merged
  }

  class AppStore {
    var rollNumber: Option<string>
    var notificationTime: int
    var selectedSections: seq<string>
    var selectedYear: Option<string>

    function State(): Preferences
      reads this
    {
      Preferences(rollNumber, notificationTime, selectedSections, selectedYear)
    }

    /** The store as created: no roll, reminders off, no sections, no year. */
    constructor ()
      ensures State() == Initial
    {
      rollNumber := None;
      notificationTime := 0;
      selectedSections := [];
      selectedYear := None;
    }

    method SetRollNumber(roll: string)
      modifies this
      ensures State() == old(State()).(rollNumber := Some(roll))
    {
      rollNumber := Some(roll);
    }

    method SetSelectedSections(sections: seq<string>)
      modifies this
      ensures State() == old(State()).(selectedSections := sections)
    {
      selectedSections := sections;
    }

    method SetSelectedYear(year: Option<string>)
      modifies this
      ensures State() == old(State()).(selectedYear := year)
    {
      selectedYear := year;
    }

    /** Records the lead only; rescheduling is left to the notification provider. */
    method SetNotificationTime(minutes: int)
      modifies this
      ensures State() == old(State()).(notificationTime := minutes)
    {
      notificationTime := minutes;
    }

    method ClearTimetable()
      modifies this
      ensures State() == Cleared(old(State()))
    {
      rollNumber := None;
      notificationTime := 0;
      selectedSections := [];
      selectedYear := None;
    }

    /** `partialize`. */
    function Persisted(): Preferences
      reads this
    {
      Partialize(State())
    }

    /**
     * Rehydration at start-up: the saved fields replace the current ones, then the stored
     * reminder settings overwrite the lead when they disagree with it.
     */
    method Rehydrate(h: Hydration<Preferences>, center: Notifications.NotificationCenter)
      modifies this
      ensures State() == Rehydrated(old(State()), h, Notifications.LoadSettings(center.stored, center.loadedAt))
    {
      match h {
        case HydrationFailed =>
        case Hydrated(saved) =>
          if saved.Some? {
            rollNumber := saved.value.rollNumber;
            notificationTime := saved.value.notificationTime;
            selectedSections := saved.value.selectedSections;
            selectedYear := saved.value.selectedYear;
          }
          var settings := center.GetNotificationSettings();
          if settings.minutesBefore != notificationTime {
            notificationTime := settings.minutesBefore;
          }
      }
    }
  }
}
