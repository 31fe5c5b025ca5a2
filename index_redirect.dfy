/**
 * src/app/index.tsx: the start screen. Once the preference store has hydrated and the query
 * cache has been restored, it redirects to the timetable when a cached timetable or a saved
 * choice exists, and to the roll-number input otherwise.
 */
module IndexRedirect {
  import opened Wrappers
  import opened Schedule
  import Queries
  import PreferenceStore

  /** The only two destinations. */
  datatype RedirectPath = TimetablePath | RollInputPath

  function Href(path: RedirectPath): string
  {
    match path
    case TimetablePath => "/timetable"
    case RollInputPath => "/roll-input"
  }

  /** `hasConfig`: a roll number, or a year together with at least one section. */
  predicate HasConfig(p: PreferenceStore.Preferences)
  {
    Queries.Truthy(p.rollNumber) || (Queries.Truthy(p.selectedYear) && |p.selectedSections| > 0)
  }

  /** `hasNonEmptyTimetable(getQueryData(key))` for a key that may be null. */
  predicate HasNonEmptyTimetable(entries: map<Queries.QueryKey, Queries.CacheEntry>, key: Option<Queries.QueryKey>)
  {
    key.Some? && key.value in entries &&
    match entries[key.value].value
    case TimetableData(timetable) => |timetable| > 0
    case SectionNames(names) => |names| > 0
  }

  /** The roll key, when the roll number is set. */
  function RollKey(p: PreferenceStore.Preferences): Option<Queries.QueryKey>
  {
    if Queries.Truthy(p.rollNumber) then Some(Queries.RollKey(p.rollNumber)) else None
  }

  /** The sections key, built from a sorted copy of the selection. */
  function SectionsKey(p: PreferenceStore.Preferences): Option<Queries.QueryKey>
  {
    if Queries.Truthy(p.selectedYear) && |p.selectedSections| > 0
    then Some(Queries.SectionsQueryKey(p.selectedSections, p.selectedYear))
    else None
  }

  /** `hasCached`. */
  predicate HasCached(p: PreferenceStore.Preferences, entries: map<Queries.QueryKey, Queries.CacheEntry>)
  {
    HasNonEmptyTimetable(entries, RollKey(p)) || HasNonEmptyTimetable(entries, SectionsKey(p))
  }

  /** The destination chosen once the screen is ready. */
  function Destination(p: PreferenceStore.Preferences, entries: map<Queries.QueryKey, Queries.CacheEntry>): RedirectPath
  {
    if HasCached(p, entries) || HasConfig(p) then TimetablePath else RollInputPath
  }

  /**
   * A cached timetable is only looked up under a key that a saved choice produced, so the cache
   * never changes the destination: the timetable opens exactly when a choice is saved.
   */
  lemma DestinationFollowsConfig(p: PreferenceStore.Preferences, entries: map<Queries.QueryKey, Queries.CacheEntry>)
    ensures Destination(p, entries) == TimetablePath <==> HasConfig(p)
    ensures HasCached(p, entries) ==> HasConfig(p)
  {
  }

  /** The screen's `redirect` and `isReady` state. */
  class IndexScreen {
    var redirect: Option<RedirectPath>
    var isReady: bool

    constructor ()
      ensures redirect.None? && !isReady
    {
      redirect := None;
      isReady := false;
    }

    /** What the screen renders: nothing until a redirect is chosen and the screen is ready. */
    function Rendered(): (r: Option<RedirectPath>)
      reads this
      ensures r.Some? <==> redirect.Some? && isReady
      ensures r.Some? ==> r == redirect
    {
      if redirect.Some? && isReady then redirect else None
    }

    /**
     * One run of the effect. `web` is the platform test, `hydrated` the store's hydration flag
     * and `restoring` the query cache's restore flag.
     */
    method Decide(web: bool, hydrated: bool, restoring: bool,
                  p: PreferenceStore.Preferences, entries: map<Queries.QueryKey, Queries.CacheEntry>)
      modifies this
      ensures !(web || hydrated) || restoring ==> redirect == old(redirect) && isReady == old(isReady)
      ensures (web || hydrated) && !restoring ==> redirect == Some(Destination(p, entries)) && isReady
    {
      if !(web || hydrated) {
        return;
      }
      if restoring {
        return;
      }
      var hasConfig := HasConfig(p);
      var hasCached := HasNonEmptyTimetable(entries, RollKey(p)) || HasNonEmptyTimetable(entries, SectionsKey(p));
      if hasCached || hasConfig {
        redirect := Some(TimetablePath);
      } else {
        redirect := Some(RollInputPath);
      }
      isReady := true;
    }
  }
}
