/**
 * src/components/NotificationProvider.tsx: the effect that reschedules reminders. It runs when
 * the roll number, the selected sections, the selected year or the lead changes; it reads the
 * query cache without subscribing to it, so a timetable replaced under an unchanged key goes
 * unnoticed until one of those changes. It looks the timetable up under the roll key first,
 * then under the sections key, and remembers the lead and the timetable object it last acted on.
 */
module NotificationProvider {
  import opened Wrappers
  import opened JsText
  import opened Schedule
  import Queries
  import Notifications
  import PreferenceStore
  import Persistence

  /** The timetable object the effect settled on: a cached object, or the literal `{}`, new on every run. */
  datatype Seen = Cached(timetable: Grouped, ref: nat) | EmptyLiteral

  /** The data of the object. */
  function Contents(seen: Seen): Grouped
  {
    match seen
    case Cached(timetable, _) => timetable
    case EmptyLiteral => []
  }

  /** `a === b` on objects: the same cached object; two `{}` literals are never the same. */
  predicate SameObject(a: Seen, b: Seen)
  {
    a.Cached? && b.Cached? && a.ref == b.ref
  }

  /** `prevRef.current`: the lead and the timetable of the last run that acted. */
  datatype Record = Record(notificationTime: int, timetable: Seen)

  /** The roll key, when the roll number is set. */
  function RollKeyOf(p: PreferenceStore.Preferences): Option<Queries.QueryKey>
  {
    if Queries.Truthy(p.rollNumber) then Some(Queries.RollKey(p.rollNumber)) else None
  }

  /** The sections key as the effect builds it: the selection in the order it was made. */
  function SectionsKeyAsWritten(p: PreferenceStore.Preferences): Option<Queries.QueryKey>
  {
    if Queries.Truthy(p.selectedYear) && |p.selectedSections| > 0
    then Some(Queries.SectionsKey(p.selectedSections, p.selectedYear))
    else None
  }

  /** The sections key sorted, as every writer of the cache and the start screen build it. */
  function SectionsKeySorted(p: PreferenceStore.Preferences): Option<Queries.QueryKey>
  {
    if Queries.Truthy(p.selectedYear) && |p.selectedSections| > 0
    then Some(Queries.SectionsQueryKey(p.selectedSections, p.selectedYear))
    else None
  }

  /** The cached timetable under `key`, if the key is set and holds one. */
  function Find(entries: map<Queries.QueryKey, Queries.CacheEntry>, key: Option<Queries.QueryKey>): (r: Option<Seen>)
    ensures r.Some? <==> key.Some? && Queries.TimetableAt(entries, key.value).Some?
    ensures r.Some? ==> var e := entries[key.value];
      r.value == Cached(e.value.timetable, e.ref)
  {
    if key.Some? && Queries.TimetableAt(entries, key.value).Some? then
      var e := entries[key.value];
      Some(Cached(e.value.timetable, e.ref))
    else None
  }

  /** `cachedByRoll || cachedBySections || {}`. */
  function Choose(entries: map<Queries.QueryKey, Queries.CacheEntry>,
                  byRoll: Option<Queries.QueryKey>, bySections: Option<Queries.QueryKey>): (r: Seen)
    ensures Find(entries, byRoll).Some? ==> r == Find(entries, byRoll).value
    ensures Find(entries, byRoll).None? && Find(entries, bySections).Some? ==> r == Find(entries, bySections).value
    ensures r.EmptyLiteral? <==> Find(entries, byRoll).None? && Find(entries, bySections).None?
  {
    var roll := Find(entries, byRoll);
    if roll.Some? then roll.value
    else
      var sections := Find(entries, bySections);
      if sections.Some? then sections.value else EmptyLiteral
  }

  /** The timetable the effect picks, as written: the sections key is not sorted. */
  function ChooseTimetableAsWritten(p: PreferenceStore.Preferences,
                                    entries: map<Queries.QueryKey, Queries.CacheEntry>): (r: Seen)
    ensures !Queries.Truthy(p.rollNumber) && Queries.Truthy(p.selectedYear) && |p.selectedSections| > 0 ==>
      (r.Cached? <==> Queries.TimetableAt(entries, Queries.SectionsKey(p.selectedSections, p.selectedYear)).Some?)
  {
    Choose(entries, RollKeyOf(p), SectionsKeyAsWritten(p))
  }

  /** The timetable the effect picks, with the sections key sorted as the writers sort it. */
  function ChooseTimetable(p: PreferenceStore.Preferences,
                           entries: map<Queries.QueryKey, Queries.CacheEntry>): (r: Seen)
    ensures !Queries.Truthy(p.rollNumber) && Queries.Truthy(p.selectedYear) && |p.selectedSections| > 0 ==>
      (r.Cached? <==> Queries.TimetableAt(entries, Queries.SectionsQueryKey(p.selectedSections, p.selectedYear)).Some?)
    ensures Queries.Truthy(p.rollNumber) && Queries.TimetableAt(entries, Queries.RollKey(p.rollNumber)).Some? ==>
      r == Cached(entries[Queries.RollKey(p.rollNumber)].value.timetable, entries[Queries.RollKey(p.rollNumber)].ref)
  {
    Choose(entries, RollKeyOf(p), SectionsKeySorted(p))
  }

  /** Every sections key in the cache lists its sections sorted. */
  predicate SortedSectionKeys(entries: map<Queries.QueryKey, Queries.CacheEntry>)
  {
    forall k | k in entries && k.SectionsKey? :: SortedStrings(k.sections)
  }

  /** Writing under a sorted key, or under any key that is not a sections key, keeps the cache's sections keys sorted. */
  lemma WrittenKeepsSortedKeys(entries: map<Queries.QueryKey, Queries.CacheEntry>, newRef: nat,
                               key: Queries.QueryKey, value: Queries.CacheValue)
    requires SortedSectionKeys(entries)
    requires key.SectionsKey? ==> SortedStrings(key.sections)
    ensures SortedSectionKeys(Queries.Written(entries, newRef, key, value))
  {
  }

  /**
   * As written, a selection made out of sorted order never finds its cached timetable: every
   * sections key in the cache is sorted, and the effect asks for the unsorted one.
   */
  lemma AsWrittenMissesUnsorted(p: PreferenceStore.Preferences, entries: map<Queries.QueryKey, Queries.CacheEntry>)
    requires SortedSectionKeys(entries)
    requires !Queries.Truthy(p.rollNumber) && !SortedStrings(p.selectedSections)
    ensures ChooseTimetableAsWritten(p, entries) == EmptyLiteral
  {
  }

  /** With the key sorted, a timetable cached for the same sections in any order is found. */
  lemma SortedFindsAnyOrder(p: PreferenceStore.Preferences, entries: map<Queries.QueryKey, Queries.CacheEntry>,
                            sections: seq<string>)
    requires !Queries.Truthy(p.rollNumber) && Queries.Truthy(p.selectedYear)
    requires multiset(sections) == multiset(p.selectedSections) && |sections| > 0
    requires Queries.TimetableAt(entries, Queries.SectionsQueryKey(sections, p.selectedYear)).Some?
    ensures ChooseTimetable(p, entries).Cached?
    ensures ChooseTimetable(p, entries).timetable
      == entries[Queries.SectionsQueryKey(sections, p.selectedYear)].value.timetable
  {
    Queries.SectionsKeyIgnoresOrder(sections, p.selectedSections, p.selectedYear);
    assert |p.selectedSections| > 0 by {
      assert sections[0] in multiset(p.selectedSections);
    }
  }

  /** Sorting the selection IT-1, CSE-1 puts CSE-1 first. */
  lemma SortedExampleKey()
    ensures Queries.SectionsQueryKey(["IT-1", "CSE-1"], Some("3")) == Queries.SectionsKey(["CSE-1", "IT-1"], Some("3"))
  {
    var picked := ["IT-1", "CSE-1"];
    var sorted := ["CSE-1", "IT-1"];
    assert LexLe(sorted[0], sorted[1]) by {
      assert sorted[0][0] == 'C' && sorted[1][0] == 'I';
    }
    assert multiset(picked) == multiset(sorted);
    SortedUnique(SortStrings(picked), sorted);
  }

  /**
   * The two sections picked in the order IT-1, CSE-1 for year 3: the prefetch cached the
   * timetable under the sorted key, and the effect as written sees `{}` where the corrected
   * one finds the timetable.
   */
  lemma AsWrittenCounterexample(timetable: Grouped)
    requires timetable != []
    ensures var p := PreferenceStore.Preferences(None, 15, ["IT-1", "CSE-1"], Some("3"));
      var entries := map[Queries.SectionsKey(["CSE-1", "IT-1"], Some("3"))
                           := Queries.CacheEntry(Queries.TimetableData(timetable), 0)];
      && ChooseTimetableAsWritten(p, entries) == EmptyLiteral
      && ChooseTimetable(p, entries) == Cached(timetable, 0)
  {
    SortedExampleKey();
    var picked: seq<string> := ["IT-1", "CSE-1"];
    var sorted: seq<string> := ["CSE-1", "IT-1"];
    assert picked != sorted by {
      assert picked[0][0] == 'I' && sorted[0][0] == 'C';
    }
  }

  /** Whether the effect sees a change: no earlier record, another lead, or another object. */
  predicate Changed(prev: Option<Record>, time: int, seen: Seen)
  {
    prev.None? || prev.value.notificationTime != time || !SameObject(prev.value.timetable, seen)
  }

  /**
   * What one run of the effect does: the lead it passes to `updateNotificationSettings`, if it
   * calls it, and the record it leaves.
   */
  function Decide(prev: Option<Record>, time: int, seen: Seen): (r: (Option<int>, Option<Record>))
    ensures r.0.Some? <==> Changed(prev, time, seen) && (|Contents(seen)| > 0 || time == 0)
    ensures r.0.Some? ==> r.0.value == time && r.1 == Some(Record(time, seen))
    ensures r.0.None? ==> r.1 == prev
  {
    var changed := Changed(prev, time, seen);
    if changed && |Contents(seen)| > 0 then (Some(time), Some(Record(time, seen)))
    else if changed && |Contents(seen)| == 0 && time == 0 then (Some(0), Some(Record(time, seen)))
    else (None, prev)
  }

  /** After acting on a cached timetable, a run that sees the same lead and the same object does nothing. */
  lemma DecideSettles(prev: Option<Record>, time: int, timetable: Grouped, ref: nat)
    requires timetable != []
    ensures var (call, record) := Decide(prev, time, Cached(timetable, ref));
      call == Some(time) || record == prev
    ensures var record := Decide(prev, time, Cached(timetable, ref)).1;
      record.Some? && record.value.timetable == Cached(timetable, ref) ==>
        Decide(record, time, Cached(timetable, ref)) == (None, record)
  {
  }

  /** With no timetable and reminders off, every run clears again: `{}` is never the object it saw before. */
  lemma EmptyAlwaysClears(prev: Option<Record>)
    ensures Decide(prev, 0, EmptyLiteral) == (Some(0), Some(Record(0, EmptyLiteral)))
  {
  }

  /** With no timetable and a positive lead, the effect does nothing. */
  lemma EmptyWithLeadIsIdle(prev: Option<Record>, time: int)
    requires time != 0
    ensures Decide(prev, time, EmptyLiteral) == (None, prev)
  {
  }

  /** The mounted provider and its `prevRef`. */
  class Provider {
    var prev: Option<Record>

    constructor ()
      ensures prev.None?
    {
      prev := None;
    }

    /**
     * One run of the effect for the store's state and the cache's entries. The rescheduling
     * call's outcome is only logged by the source; it is returned here. When a run happens is
     * left to the caller.
     */
    method Run(store: PreferenceStore.AppStore, cache: Queries.QueryCache,
               center: Notifications.NotificationCenter, env: Notifications.Env)
      returns (update: Option<Outcome<string>>)
      modifies this, center
      ensures var seen := ChooseTimetable(store.State(), cache.entries);
        var (call, record) := Decide(old(prev), store.notificationTime, seen);
        && prev == record
        && (update.Some? <==> call.Some?)
        && (call.Some? ==>
              (center.State(), update.value)
                == Notifications.UpdateEffect(old(center.State()), center.loadedAt, call.value, Some(Contents(seen)), env))
        && (call.None? ==> center.State() == old(center.State()))
    {
      var p := store.State();
      var seen := ChooseTimetable(p, cache.entries);
      var (call, record) := Decide(prev, p.notificationTime, seen);
      update := None;
      if call.Some? {
        var o := center.UpdateNotificationSettings(call.value, Some(Contents(seen)), env);
        update := Some(o);
      }
      prev := record;
    }
  }

  /**
   * `useClearTimetable` followed by the run of the mounted provider that the reset preferences
   * set off. With no roll number, no sections and a lead of 0 the provider sees `{}` and turns
   * reminders off, saving a lead of 0, so the next start rehydrates a lead of 0 as well.
   */
  method ClearThenSettle(provider: Provider, cache: Queries.QueryCache, store: PreferenceStore.AppStore,
                         center: Notifications.NotificationCenter, env: Notifications.Env)
    returns (update: Option<Outcome<string>>)
    modifies provider, cache, store, center
    ensures update == Some(Pass)
    ensures store.State() == PreferenceStore.Initial && center.reminders == []
    ensures cache.entries == Queries.WithoutTimetables(old(cache.entries))
    ensures var settings := Notifications.LoadSettings(center.stored, center.loadedAt);
      !settings.enabled && settings.minutesBefore == 0
    ensures PreferenceStore.Rehydrated(PreferenceStore.Initial, Persistence.Hydrated(Some(store.State())),
              Notifications.LoadSettings(center.stored, center.loadedAt)) == PreferenceStore.Initial
  {
    Queries.ClearTimetable(cache, store, center);
    EmptyAlwaysClears(provider.prev);
    ghost var before := center.State();
    update := provider.Run(store, cache, center, env);
    Notifications.UpdateToZeroClears(before, center.loadedAt, Some([]), env);
  }
}
