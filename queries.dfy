/**
 * src/hooks/queries.ts: the query keys under which timetables and section lists are cached, the
 * query functions, the two prefetch mutations and the clear mutation. The query client's cache
 * is a class whose entries map keys to data; each stored value carries the identity of the
 * object it is, since the notification provider compares timetables by reference.
 */
module Queries {
  import opened Wrappers
  import opened JsText
  import opened Schedule
  import Helpers
  import TimetableApi
  import SectionLists
  import Notifications
  import PreferenceStore
  import Persistence

  /**
   * The query keys: `["timetable", "roll", rollNumber]`,
   * `["timetable", "sections", { sections, year }]` and `["sections", year, search]`.
   */
  datatype QueryKey =
    | RollKey(roll: Option<string>)
    | SectionsKey(sections: seq<string>, year: Option<string>)
    | SectionListKey(year: Option<string>, search: string)

  /** Keys under the prefix `["timetable"]`. */
  predicate IsTimetableKey(k: QueryKey)
  {
    k.RollKey? || k.SectionsKey?
  }

  /** Cached data: a grouped timetable or a list of section names. */
  datatype CacheValue = TimetableData(timetable: Grouped) | SectionNames(names: seq<string>)

  /** A cached value together with the identity of the object that holds it. */
  datatype CacheEntry = CacheEntry(value: CacheValue, ref: nat)

  /** JavaScript truthiness of a string that may be null or undefined. */
  predicate Truthy(s: Option<string>)
  {
    s.Some? && s.value != ""
  }

  /** The key of `useTimetableBySections(sections, year)`: the sections sorted. */
  function SectionsQueryKey(sections: seq<string>, year: Option<string>): QueryKey
  {
    SectionsKey(if |sections| > 0 then SortStrings(sections) else sections, year)
  }

  /** The key lists the sections in sorted order and loses none of them. */
  lemma SectionsKeySorted(sections: seq<string>, year: Option<string>)
    ensures var k := SectionsQueryKey(sections, year);
      k.SectionsKey? && k.year == year
      && SortedStrings(k.sections) && multiset(k.sections) == multiset(sections)
  {
  }

  /** Two selections of the same sections, picked in any order, share one cache key. */
  lemma SectionsKeyIgnoresOrder(a: seq<string>, b: seq<string>, year: Option<string>)
    requires multiset(a) == multiset(b)
    ensures SectionsQueryKey(a, year) == SectionsQueryKey(b, year)
  {
    if |a| > 0 {
      assert a[0] in multiset(b);
      SortStringsPermutationInvariant(a, b);
    } else {
      assert multiset(b) == multiset{};
    }
  }

  /** `enabled` of `useTimetableBySections`. */
  predicate SectionsQueryEnabled(sections: seq<string>, year: Option<string>)
  {
    Truthy(year) && |sections| > 0
  }

  /** The query function of `useSections(year, search)` given the backend's answer `data`. */
  function SectionsResult(data: Option<seq<string>>, search: string): (r: seq<string>)
    ensures forall x :: x in r <==> x in data.GetOr([]) && MatchesIgnoringCase(x, search)
  {
    var sections := data.GetOr([]);
    if search == "" then
      SectionLists.FilterEmptySearch(sections);
      sections
    else SectionLists.FilterSections(sections, search)
  }

  /** The shortcut for an empty search returns exactly what the filter would. */
  lemma SectionsResultIsFilter(data: Option<seq<string>>, search: string)
    ensures SectionsResult(data, search) == SectionLists.FilterSections(data.GetOr([]), search)
  {
    if search == "" {
      SectionLists.FilterEmptySearch(data.GetOr([]));
    }
  }

  /**
   * `setQueryData(key, value)`: the key now holds `value`. With structural sharing, data equal
   * to what is cached keeps the cached object; otherwise the value is a new object with identity `newRef`.
   */
  function Written(entries: map<QueryKey, CacheEntry>, newRef: nat, key: QueryKey, value: CacheValue)
    : (r: map<QueryKey, CacheEntry>)
    ensures key in r && r[key].value == value
    ensures forall k :: k in r <==> k in entries || k == key
    ensures forall k | k in entries && k != key :: r[k] == entries[k]
    ensures key in entries && entries[key].value == value ==> r[key] == entries[key]
    ensures !(key in entries && entries[key].value == value) ==> r[key].ref == newRef
  {
    if key in entries && entries[key].value == value then entries
    else entries[key := CacheEntry(value, newRef)]
  }

  /** `removeQueries({ queryKey: ["timetable"] })`: every timetable entry is dropped, the rest kept. */
  function WithoutTimetables(entries: map<QueryKey, CacheEntry>): (r: map<QueryKey, CacheEntry>)
    ensures forall k :: k in r <==> k in entries && !IsTimetableKey(k)
    ensures forall k | k in r :: r[k] == entries[k]
  {
    map k | k in entries && !IsTimetableKey(k) :: entries[k]
  }

  /** The timetable cached under `key`, if any (`getQueryData<GroupedSchedule>`). */
  function TimetableAt(entries: map<QueryKey, CacheEntry>, key: QueryKey): (r: Option<CacheEntry>)
    ensures r.Some? <==> key in entries && entries[key].value.TimetableData?
    ensures r.Some? ==> r.value == entries[key]
  {
    if key in entries && entries[key].value.TimetableData? then Some(entries[key]) else None
  }

  /** The query client's cache. */
  class QueryCache {
    var entries: map<QueryKey, CacheEntry>
    /** The identity the next new object receives. */
    var nextRef: nat

    constructor ()
      ensures entries == map[] && nextRef == 0
    {
      entries := map[];
      nextRef := 0;
    }

    method SetQueryData(key: QueryKey, value: CacheValue)
      modifies this
      ensures entries == Written(old(entries), old(nextRef), key, value)
      ensures nextRef == old(nextRef) + 1
    {
      if !(key in entries && entries[key].value == value) {
        entries := entries[key := CacheEntry(value, nextRef)];
      }
      nextRef := nextRef + 1;
    }

    method RemoveTimetableQueries()
      modifies this
      ensures entries == WithoutTimetables(old(entries)) && nextRef == old(nextRef)
    {
      entries := map k | k in entries && !IsTimetableKey(k) :: entries[k];
    }

    /**
     * One run of `useTimetableByRoll(rollNumber)`'s query: nothing when disabled, otherwise
     * `fetchTimetableByRoll(rollNumber || "")`, whose timetable is cached under the roll key.
     */
    method RunTimetableByRoll(rollNumber: Option<string>, today: Helpers.CalendarDate,
                              rpc: (string, int) -> TimetableApi.Reply<ScheduleSlot>)
      returns (r: Option<Result<Grouped, string>>)
      modifies this
      ensures r.Some? <==> Truthy(rollNumber)
      ensures r.Some? ==> r.value == TimetableApi.RollTimetable(rollNumber.value, today, rpc)
      ensures r.Some? && r.value.Success? ==>
        entries == Written(old(entries), old(nextRef), RollKey(rollNumber), TimetableData(r.value.value))
      ensures r.None? || r.value.Failure? ==> entries == old(entries)
    {
      if !Truthy(rollNumber) {
        return None;
      }
      var fetched := TimetableApi.FetchTimetableByRoll(rollNumber.value, today, rpc);
      if fetched.Success? {
        SetQueryData(RollKey(rollNumber), TimetableData(fetched.value));
      }
      return Some(fetched);
    }

    /**
     * One run of `useTimetableBySections(sections, year)`'s query: the fetch sends the sections
     * as selected, while the result is cached under the sorted key.
     */
    method RunTimetableBySections(sections: seq<string>, year: Option<string>,
                                  table: string -> TimetableApi.Reply<ScheduleSlot>)
      returns (r: Option<Result<Grouped, string>>)
      modifies this
      ensures r.Some? <==> SectionsQueryEnabled(sections, year)
      ensures r.Some? ==> r.value == TimetableApi.SectionsTimetable(sections, year.value, table)
      ensures r.Some? && r.value.Success? ==>
        entries == Written(old(entries), old(nextRef), SectionsQueryKey(sections, year), TimetableData(r.value.value))
      ensures r.None? || r.value.Failure? ==> entries == old(entries)
    {
      if !SectionsQueryEnabled(sections, year) {
        return None;
      }
      var fetched := TimetableApi.FetchTimetableBySections(sections, year.value, table);
      if fetched.Success? {
        SetQueryData(SectionsQueryKey(sections, year), TimetableData(fetched.value));
      }
      return Some(fetched);
    }

    /** One run of `useSections(year, search)`'s query; `rpc` answers `get_distinct_sections`. */
    method RunSections(year: Option<string>, search: string, rpc: Option<string> -> Option<seq<string>>)
      returns (r: Option<seq<string>>)
      modifies this
      ensures r.Some? <==> Truthy(year)
      ensures r.Some? ==> r.value == SectionsResult(rpc(year), search)
      ensures r.Some? ==> entries == Written(old(entries), old(nextRef), SectionListKey(year, search), SectionNames(r.value))
      ensures r.None? ==> entries == old(entries)
    {
      if !Truthy(year) {
        return None;
      }
      var names := SectionsResult(rpc(year), search);
      SetQueryData(SectionListKey(year, search), SectionNames(names));
      return Some(names);
    }
  }

  /**
   * `usePrefetchTimetableByRoll` run for `roll`: on success the timetable is cached under the
   * roll key, and when the lead `notificationTime` read at render is positive the reminders are
   * rescheduled for it.
   */
  method PrefetchTimetableByRoll(cache: QueryCache, center: Notifications.NotificationCenter,
                                 notificationTime: int, roll: string, today: Helpers.CalendarDate,
                                 rpc: (string, int) -> TimetableApi.Reply<ScheduleSlot>,
                                 env: Notifications.Env)
    returns (r: Result<Grouped, string>, update: Option<Outcome<string>>)
    modifies cache, center
    ensures r == TimetableApi.RollTimetable(roll, today, rpc)
    ensures r.Failure? ==> cache.entries == old(cache.entries) && center.State() == old(center.State())
    ensures r.Success? ==>
      cache.entries == Written(old(cache.entries), old(cache.nextRef), RollKey(Some(roll)), TimetableData(r.value))
    ensures update.Some? <==> r.Success? && notificationTime > 0
    ensures update.Some? ==>
      (center.State(), update.value)
        == Notifications.UpdateEffect(old(center.State()), center.loadedAt, notificationTime, Some(r.value), env)
    ensures update.None? ==> center.State() == old(center.State())
  {
    r := TimetableApi.FetchTimetableByRoll(roll, today, rpc);
    update := None;
    if r.Success? {
      cache.SetQueryData(RollKey(Some(roll)), TimetableData(r.value));
      if notificationTime > 0 {
        var o := center.UpdateNotificationSettings(notificationTime, Some(r.value), env);
        update := Some(o);
      }
    }
  }

  /**
   * `usePrefetchTimetableBySections` run for `sections` and `year`: the fetch takes the
   * sections as given, the cache key the sorted sections.
   */
  method PrefetchTimetableBySections(cache: QueryCache, center: Notifications.NotificationCenter,
                                     notificationTime: int, sections: seq<string>, year: string,
                                     table: string -> TimetableApi.Reply<ScheduleSlot>,
                                     env: Notifications.Env)
    returns (r: Result<Grouped, string>, update: Option<Outcome<string>>)
    modifies cache, center
    ensures r == TimetableApi.SectionsTimetable(sections, year, table)
    ensures r.Failure? ==> cache.entries == old(cache.entries) && center.State() == old(center.State())
    ensures r.Success? ==>
      cache.entries == Written(old(cache.entries), old(cache.nextRef),
                               SectionsKey(SortStrings(sections), Some(year)), TimetableData(r.value))
    ensures update.Some? <==> r.Success? && notificationTime > 0
    ensures update.Some? ==>
      (center.State(), update.value)
        == Notifications.UpdateEffect(old(center.State()), center.loadedAt, notificationTime, Some(r.value), env)
    ensures update.None? ==> center.State() == old(center.State())
  {
    r := TimetableApi.FetchTimetableBySections(sections, year, table);
    update := None;
    if r.Success? {
      var sortedSections := SortStrings(sections);
      cache.SetQueryData(SectionsKey(sortedSections, Some(year)), TimetableData(r.value));
      if notificationTime > 0 {
        var o := center.UpdateNotificationSettings(notificationTime, Some(r.value), env);
        update := Some(o);
      }
    }
  }

  /**
   * The prefetch caches a timetable exactly where the sections query of the same selection and
   * year looks for it, for every selection: the query skips the sort of an empty list, and
   * sorting it would give the empty list anyway.
   */
  lemma PrefetchKeyIsQueryKey(sections: seq<string>, year: string)
    ensures SectionsKey(SortStrings(sections), Some(year)) == SectionsQueryKey(sections, Some(year))
  {
  }

  /**
   * `useClearTimetable`: cancels every reminder, resets the preference store, then drops every
   * timetable from the cache. The stored reminder settings are not touched.
   */
  method ClearTimetable(cache: QueryCache, store: PreferenceStore.AppStore,
                        center: Notifications.NotificationCenter)
    modifies cache, store, center
    ensures center.reminders == [] && center.stored == old(center.stored) && center.nextId == old(center.nextId)
    ensures store.State() == PreferenceStore.Initial
    ensures cache.entries == WithoutTimetables(old(cache.entries))
  {
    center.CancelAllNotifications();
    store.ClearTimetable();
    PreferenceStore.ClearIdempotent(old(store.State()));
    cache.RemoveTimetableQueries();
  }
}
