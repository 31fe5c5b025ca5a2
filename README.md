# kiittime timetable core in Dafny

kiittime is a mobile timetable app for university students. A student identifies
themselves either by roll number or by a year together with a set of class sections. The app
then fetches the week's classes from a hosted database and groups them by weekday. It shows
one tab per teaching day and can schedule weekly local reminders a chosen number of minutes
before each class.

The repository carries two generations of the app. The earlier one lives under `app/`,
`components/`, `store/` and `utils/`. It keeps the timetable itself in a persisted store.
The current one lives under `src/`. It keeps only the preferences in a persisted store
(roll number, selected sections, selected year and reminder lead). The fetched timetables
live in a query cache, keyed by roll number or by the sorted section list.

This project models the core of both generations:

- `Schedule` (`schedule.dfy`): the class slot record and the day-keyed schedule object. Keys
  keep their insertion order.
- `JsText` (`js_text.dfy`): the JavaScript string behaviour the core relies on.
  - `parseInt` as a leading-digit prefix, and `split`.
  - ASCII `toLowerCase` and `includes`.
  - The default `Array.prototype.sort` order on strings.
- `Helpers` (`helpers.dfy`): today's weekday index, the current time slot and the academic
  year computed from a roll number.
- `TimetableApi` (`timetable_api.dfy`): the two fetches and `groupByDay`.
- `ReminderTiming` (`reminder_timing.dfy`) and `Notifications` (`notifications.dfy`): the
  reminder service.
  - Settings storage.
  - Start-time parsing, the lead adjustment and the next weekly occurrence.
  - Scheduling one slot and the whole timetable.
  - Cancelling, and `updateNotificationSettings`.
  - The device's notification registry is a class whose state the methods change.
- `LegacyTimetableStore` (`timetable_store.dfy`) and `PreferenceStore` (`app_store.dfy`): the
  two persisted stores, with their persisted subsets and rehydration.
- `Queries` (`queries.dfy`): the query hooks over a query-cache class. An entry carries an
  object reference, so a write of equal data keeps the old object, as React Query's
  structural sharing does.
- `NotificationProvider` (`notification_provider.dfy`): the effect that reschedules reminders
  from the cached timetable and the lead. It runs when the roll number, the selection, the
  year or the lead changes. It reads the cache without subscribing, so a timetable replaced
  under an unchanged key goes unnoticed until one of those changes.
- `IndexRedirect` (`index_redirect.dfy`): the start-up redirect.
- `TimetableView` and `LegacyTimetableView` (`timetable_view.dfy`,
  `legacy_timetable_view.dfy`): what the timetable screens show. This includes the per-day
  sort by `Time_Sort`, done in place on an array.
- `SectionLists`, `SectionSelectionScreen`, `LegacySectionScreen`, `SectionSelector`
  (`section_lists.dfy`, `section_screens.dfy`): picking, removing and filtering sections on
  the three section screens.

Time is a point in the week. It is the weekday (Sunday = 0, as `Date.getDay` reports it)
together with the minute of the day. Instants are minutes from the start of the current
week's Sunday.

The database, the clock, permissions and the notification library's own rejections are
parameters:

- `rpc`/`table` functions return the backend's `{ data, error }` reply.
- An `Env` carries "now", the permission answers, a save stamp, and the set of slots the
  library refuses.

`src/utils/helpers.ts`, `utils/notifications.ts` and `utils/constants.ts` are not part of
this model.
- The current `src/` code imports `calculateAcademicYear` from `src/utils/helpers.ts`. The
  model assumes it matches `utils/helpers.ts`.
- The earlier store calls `utils/notifications.ts`. The model assumes it matches
  `src/utils/notifications.ts`.
- `DAYS` is taken to be the Monday-first list `MON … SUN`, as `getCurrentDay`'s index
  mapping requires.
- `TIME_SLOTS` is a parameter.

## Model

| member | source | states |
|---|---|---|
| Schedule.Lookup | src/store/appState.ts:36-38 | reading a day of the schedule object is undefined exactly when the day is not one of its keys |
| JsText.ParseInt | src/utils/notifications.ts:131-132 | `parseInt` yields a number exactly when the text starts with a digit |
| JsText.ParseIntDigitsThen | src/utils/notifications.ts:131-132 | `parseInt` of digits followed by a non-digit is the value of those digits |
| JsText.Split | src/utils/notifications.ts:131 | `split` gives at least one piece; no piece contains the separator; joining the pieces with it gives the text back |
| JsText.IncludesEmpty | src/hooks/queries.ts:127 | every string includes the empty string |
| JsText.SortStrings | src/hooks/queries.ts:37 | `[...sections].sort()` returns a sorted permutation of its input |
| JsText.SortedUnique | src/hooks/queries.ts:37 | two sorted permutations of the same multiset are equal |
| JsText.SortStringsPermutationInvariant | src/hooks/queries.ts:36-40 | sorting gives the same list for any order of the same sections |
| JsText.LexLeTotal | src/hooks/queries.ts:37 | the default sort order compares every two strings |
| JsText.LexLeTransitive | src/hooks/queries.ts:37 | the default sort order is transitive |
| Helpers.DayIndex | utils/helpers.ts:6-8 | the Monday-first index is in 0..6, and stepping it forward by one day modulo 7 gives back the JavaScript weekday |
| Helpers.DayIndexInjective | utils/helpers.ts:7-8 | distinct weekdays get distinct indices |
| Helpers.GetCurrentTimeSlot | utils/helpers.ts:11-28 | null exactly when no slot's hour covers the current minute; otherwise a covering slot, the first one in list order |
| Helpers.AdmissionYearOfTwoDigits | utils/helpers.ts:32 | the admission year is 2000 plus the roll number's first two digits |
| Helpers.AcademicYearAntitone | utils/helpers.ts:30-49 | a later admission never gives a higher academic year on the same date |
| Helpers.AcademicYearJulyStep | utils/helpers.ts:40-46 | the academic year goes up by one from June to July |
| Helpers.AcademicYearSteady | utils/helpers.ts:40-48 | the academic year stays the same from a July to the following June |
| TimetableApi.CheckRows | src/services/timetable.api.ts:13-15 | a backend error fails with its message; null or empty rows fail with the not-found message; success carries the non-empty rows |
| TimetableApi.GroupByDay | src/services/timetable.api.ts:34-40 | the reduce loop builds the grouping: distinct keys; each day's slots are the input slots of that day in input order; the other days are absent; a permutation of the input |
| TimetableApi.GroupPartitions | src/services/timetable.api.ts:34-40 | grouping partitions the slots by day. Keys are distinct, exactly the input's days, and each has a non-empty array; each array keeps input order; every slot appears once |
| TimetableApi.GroupSize | src/services/timetable.api.ts:34-40 | grouping keeps the number of slots; a non-empty input gives at least one day |
| TimetableApi.GroupRows | src/services/timetable.api.ts:13-16 | an error is passed on unchanged; checked rows are grouped with every slot kept |
| TimetableApi.RollTimetable | src/services/timetable.api.ts:5-17 | succeeds exactly when the backend reports no error and returns a non-empty list, with that list grouped by day; a backend error fails with its message; an empty or missing list fails with "No timetable found for this roll number" |
| TimetableApi.FetchTimetableByRoll | src/services/timetable.api.ts:5-17 | the fetch asks for the roll's computed academic year and yields `RollTimetable` |
| TimetableApi.TableName | src/services/timetable.api.ts:23 | the table name is `year`, then the academic year, then `_tt` |
| TimetableApi.InSections | src/services/timetable.api.ts:27 | the `in("Section", …)` filter keeps exactly the rows whose section is selected |
| TimetableApi.SectionsTimetable | src/services/timetable.api.ts:19-32 | succeeds exactly when the table read has no error and some row is in a selected section, with those rows grouped by day and every such row present; a table error fails with its message; no matching row fails with the not-found message |
| TimetableApi.FetchTimetableBySections | src/services/timetable.api.ts:19-32 | the fetch reads the year's table and yields `SectionsTimetable` |
| ReminderTiming.ParseTimeString | src/utils/notifications.ts:127-141 | a label without a leading number has no start; otherwise the hour is the number, or that plus 12 below 8, at minute 0 |
| ReminderTiming.StartNumberOfLabel | src/utils/notifications.ts:131-132 | the start number of `digits-rest` is the value of the digits |
| ReminderTiming.ParseTimeLabel | src/utils/notifications.ts:127-141 | a label `h-…` starts at h:00, or at (h+12):00 for h below 8 |
| ReminderTiming.WeekdayNumberLabels | src/utils/notifications.ts:146-157 | a known day label maps to its Sunday-first weekday; an unknown one falls back to Monday |
| ReminderTiming.CurrentDayRoundTrip | utils/helpers.ts:4-9 | the current day of a JavaScript weekday is its `DAYS` label, which maps back to the same weekday; it is `SUN` exactly for day 0 |
| ReminderTiming.ReminderAt | src/utils/notifications.ts:199-212 | the reminder is `lead` minutes before the start; the hour borrowed is at most one, so leads over an hour leave a negative minute |
| ReminderTiming.AdjustForLead | src/utils/notifications.ts:199-212 | the hour/minute adjustment computes `ReminderAt` |
| ReminderTiming.GetNextOccurrence | src/utils/notifications.ts:162-187 | the date arithmetic computes `NextOccurrenceAt` |
| ReminderTiming.OccurrencesWeeksApart | src/utils/notifications.ts:221-224 | two firings of the same weekly reminder are at least a week apart |
| ReminderTiming.NextOccurrenceIsNext | src/utils/notifications.ts:162-187 | the next occurrence falls on the target weekday and time, strictly after now, at most a week ahead, and no earlier occurrence lies between |
| ReminderTiming.SlotTriggerBeforeClass | src/utils/notifications.ts:196-224 | with a lead of at most an hour, a slot's reminder fires exactly `lead` minutes before class, on its weekday, within the coming week |
| Notifications.Defaults | src/utils/notifications.ts:26-30 | default settings are enabled with a lead of 0 |
| Notifications.LoadFallsBack | src/utils/notifications.ts:88-99 | missing or unreadable storage reads back as the defaults |
| Notifications.LoadAfterSave | src/utils/notifications.ts:104-121 | after a save, loading gives the patched fields over the previous settings, stamped with the save time |
| Notifications.Added | src/utils/notifications.ts:306-311 | scheduling a slot adds one reminder when it gets a trigger and none otherwise |
| Notifications.PlanShape | src/utils/notifications.ts:300-320 | the batch schedules exactly the slots that get a trigger, in order, with consecutive ids, each at its own trigger instant |
| Notifications.SchedulableMembers | src/utils/notifications.ts:303-318 | a slot is scheduled exactly when it is in the timetable and gets a trigger |
| Notifications.PermissionCheck | src/utils/notifications.ts:282-295 | the batch proceeds exactly when notifications are authorised and, on Android, exact alarms are allowed |
| Notifications.ScheduleAllOutcome | src/utils/notifications.ts:276-331 | a refused permission changes nothing and fails; otherwise the old reminders are replaced by one per schedulable slot in day-then-slot order, their ids are returned, and the settings read back enabled with the new lead |
| Notifications.ScheduleAllFreshIds | src/utils/notifications.ts:307-320 | the returned ids are distinct and newer than every id handed out before |
| Notifications.UpdateToZeroClears | src/utils/notifications.ts:459-463 | a lead of 0 empties the registry and saves disabled with lead 0 |
| Notifications.MergeLaws | src/utils/notifications.ts:92-94 | merging an empty patch keeps the base, a full patch replaces it, and merging the same patch twice is merging it once |
| Notifications.UpdateWithoutTimetableKeepsReminders | src/utils/notifications.ts:465-470 | a non-zero lead with no timetable only saves the lead; the reminders stay |
| Notifications.UpdateWithTimetableReplaces | src/utils/notifications.ts:465-467 | a non-zero lead with a timetable is the full batch; it succeeds exactly when permissions pass |
| Notifications.NotificationCenter.GetNotificationSettings | src/utils/notifications.ts:88-99 | returns the stored settings over the defaults, or the defaults |
| Notifications.NotificationCenter.SaveNotificationSettings | src/utils/notifications.ts:104-121 | stores current settings merged with the patch and the stamp; reminders unchanged |
| Notifications.NotificationCenter.CancelAllNotifications | src/utils/notifications.ts:336-343 | empties the registry and changes nothing else |
| Notifications.NotificationCenter.ScheduleClassNotification | src/utils/notifications.ts:192-271 | adds one reminder at the slot's trigger with a fresh id, or nothing and null when the label has no start or the library refuses |
| Notifications.NotificationCenter.ScheduleDay | src/utils/notifications.ts:303-319 | the inner loop extends the registry by one day's plan and collects its ids |
| Notifications.NotificationCenter.ScheduleAllClassNotifications | src/utils/notifications.ts:276-331 | the new registry, stored settings and result are those of `ScheduleAllEffect` |
| Notifications.NotificationCenter.UpdateNotificationSettings | src/utils/notifications.ts:454-471 | the new registry, stored settings and outcome are those of `UpdateEffect` |
| LegacyTimetableStore.Partialize | store/timetableStore.ts:103-107 | only the timetable, roll number and lead are persisted |
| LegacyTimetableStore.PersistRoundTrip | store/timetableStore.ts:103-107 | restoring a persisted subset gives back those three fields and keeps the transient ones |
| LegacyTimetableStore.Rehydrated | store/timetableStore.ts:111-122 | after a successful rehydration the lead is the saved notification setting; a failed one changes nothing |
| LegacyTimetableStore.TimetableStore.constructor | store/timetableStore.ts:20-24 | the store starts empty, not loading, without error, lead 0 |
| LegacyTimetableStore.TimetableStore.SetRollNumber | store/timetableStore.ts:26-28 | sets only the roll number |
| LegacyTimetableStore.TimetableStore.SetNotificationTime | store/timetableStore.ts:30-38 | sets the lead, and with a timetable present applies `updateNotificationSettings` |
| LegacyTimetableStore.TimetableStore.FetchTimetable | store/timetableStore.ts:40-80 | on success stores the grouped timetable and clears the error; on failure stores the message; loading ends either way |
| LegacyTimetableStore.TimetableStore.ClearTimetable | store/timetableStore.ts:82-97 | the store returns to its initial state and the reminders are turned off |
| LegacyTimetableStore.TimetableStore.Rehydrate | store/timetableStore.ts:111-122 | the state becomes `Rehydrated` of the old state with the stored settings |
| PreferenceStore.ClearIdempotent | src/store/appStore.ts:32-39 | clearing resets every preference and a second clear changes nothing |
| PreferenceStore.Partialize | src/store/appStore.ts:45-50 | all four preferences are persisted |
| PreferenceStore.Rehydrated | src/store/appStore.ts:54-65 | after a successful rehydration the lead is the saved notification setting; a failed one changes nothing |
| PreferenceStore.AppStore.constructor | src/store/appStore.ts:11-14 | the store starts with no roll, no sections, no year and lead 0 |
| PreferenceStore.AppStore.SetRollNumber | src/store/appStore.ts:16-18 | sets only the roll number |
| PreferenceStore.AppStore.SetSelectedSections | src/store/appStore.ts:20-22 | sets only the sections |
| PreferenceStore.AppStore.SetSelectedYear | src/store/appStore.ts:24-26 | sets only the year |
| PreferenceStore.AppStore.SetNotificationTime | src/store/appStore.ts:27-30 | sets only the lead |
| PreferenceStore.AppStore.ClearTimetable | src/store/appStore.ts:32-39 | resets all preferences |
| PreferenceStore.AppStore.Rehydrate | src/store/appStore.ts:54-65 | the state becomes `Rehydrated` of the old state with the stored settings |
| SectionLists.SelectSection | src/app/section-selection.tsx:36-40 | the section is then selected; an already selected one leaves the list as it was; a new one is appended; no duplicates appear |
| SectionLists.RemoveSection | src/app/section-selection.tsx:42-44 | the section is no longer selected and every other selection is kept |
| SectionLists.RemoveConcat | src/app/section-selection.tsx:42-44 | removal filters element by element, so it keeps the order of the rest |
| SectionLists.RemoveAbsent | src/app/section-selection.tsx:42-44 | removing a section that is not selected changes nothing |
| SectionLists.RemoveKeepsNoDuplicates | src/app/section-selection.tsx:42-44 | removal keeps a duplicate-free selection duplicate-free |
| SectionLists.SelectThenRemove | src/app/section-selection.tsx:36-44 | selecting a new section and removing it again restores the selection |
| SectionLists.FilterSections | app/section-selection.tsx:48-53 | the filtered list holds exactly the sections whose lower-cased name includes the lower-cased search |
| SectionLists.FilterConcat | app/section-selection.tsx:49-51 | filtering keeps the order of the list |
| SectionLists.FilterEmptySearch | src/hooks/queries.ts:125-128 | an empty search keeps every section |
| SectionLists.ToLowerIdempotent | src/hooks/queries.ts:127 | lower-casing twice is lower-casing once |
| SectionLists.FilterIgnoresCase | components/SectionSelector.tsx:49-54 | searches that differ only in case filter alike |
| Queries.SectionsKeySorted | src/hooks/queries.ts:36-40 | the sections key holds a sorted permutation of the selection and the given year |
| Queries.SectionsKeyIgnoresOrder | src/hooks/queries.ts:36-40 | selections with the same sections in any order share one cache key |
| Queries.PrefetchKeyIsQueryKey | src/hooks/queries.ts:77-84 | for every selection, the empty one included, the key the prefetch writes is the key the sections query reads |
| Queries.SectionsResult | src/hooks/queries.ts:119-129 | the section list holds exactly the fetched names matching the search, ignoring case; null data counts as no names |
| Queries.SectionsResultIsFilter | src/hooks/queries.ts:124-128 | the query's result is the same filter the earlier screens apply |
| Queries.Written | src/hooks/queries.ts:59 | a cache write sets the key's value and leaves every other entry; equal data keeps the old object, new data gets a new one |
| Queries.WithoutTimetables | src/hooks/queries.ts:108 | removing the timetable queries drops exactly the timetable entries and keeps the rest |
| Queries.QueryCache.constructor | src/lib/queryClient.ts:15 | the cache starts empty |
| Queries.QueryCache.SetQueryData | src/hooks/queries.ts:59 | the entries become `Written` of the old entries |
| Queries.QueryCache.RemoveTimetableQueries | src/hooks/queries.ts:107-108 | the entries become `WithoutTimetables` of the old entries |
| Queries.QueryCache.RunTimetableByRoll | src/hooks/queries.ts:17-26 | runs exactly when a roll number is set, yields the roll fetch, and caches a success under the roll key |
| Queries.QueryCache.RunTimetableBySections | src/hooks/queries.ts:32-47 | runs exactly when a year and sections are set, yields the sections fetch, and caches a success under the sorted key |
| Queries.QueryCache.RunSections | src/hooks/queries.ts:116-135 | runs exactly when a year is set, yields the filtered names, and caches them under the year and search |
| Queries.PrefetchTimetableByRoll | src/hooks/queries.ts:53-65 | on success caches the timetable under the roll key and, with a positive lead, applies `updateNotificationSettings`; on failure nothing changes |
| Queries.PrefetchTimetableBySections | src/hooks/queries.ts:71-90 | on success caches the timetable under the sorted sections key and, with a positive lead, applies `updateNotificationSettings`; on failure nothing changes |
| Queries.ClearTimetable | src/hooks/queries.ts:96-111 | the reminders are cancelled, the preferences reset and the timetable entries removed; saved settings are untouched |
| NotificationProvider.Choose | src/components/NotificationProvider.tsx:62 | the roll timetable wins, then the sections one, else the empty object |
| NotificationProvider.ChooseTimetableAsWritten | src/components/NotificationProvider.tsx:45-62 | with sections and no roll, a timetable is found exactly when one is cached under the selection in picking order |
| NotificationProvider.ChooseTimetable | src/components/NotificationProvider.tsx:45-62 | with sections and no roll, a timetable is found exactly when one is cached under the sorted key the queries use; with a cached roll timetable that one is chosen |
| NotificationProvider.WrittenKeepsSortedKeys | src/hooks/queries.ts:79-84 | writes with sorted keys keep every sections key in the cache sorted |
| NotificationProvider.AsWrittenMissesUnsorted | src/components/NotificationProvider.tsx:46-53 | when the writers keep keys sorted and the selection is not sorted, the as-written lookup finds nothing |
| NotificationProvider.SortedFindsAnyOrder | src/components/NotificationProvider.tsx:46-62 | the sorted lookup finds a cached timetable whatever order the sections were picked in |
| NotificationProvider.SortedExampleKey | src/hooks/queries.ts:79 | the sorted key of `IT-1, CSE-1` is `CSE-1, IT-1` |
| NotificationProvider.AsWrittenCounterexample | src/components/NotificationProvider.tsx:46-62 | for a concrete picking order the as-written provider sees the empty object, while the sorted lookup finds the cached timetable |
| NotificationProvider.Decide | src/components/NotificationProvider.tsx:64-82 | the provider calls `updateNotificationSettings` exactly when lead or timetable object changed and the timetable is non-empty or the lead is 0, and then records both; otherwise the record stays |
| NotificationProvider.DecideSettles | src/components/NotificationProvider.tsx:64-73 | with a non-empty timetable, a run either calls or leaves the record unchanged, and a second run with the same inputs does not call again |
| NotificationProvider.EmptyAlwaysClears | src/components/NotificationProvider.tsx:74-81 | with no timetable and lead 0, the provider always clears |
| NotificationProvider.ClearThenSettle | src/hooks/queries.ts:96-111 | after a clear, the provider's next run clears the reminders and saves lead 0 disabled, so a restart rehydrates the initial preferences |
| NotificationProvider.EmptyWithLeadIsIdle | src/components/NotificationProvider.tsx:69-82 | with no timetable and a non-zero lead, the provider does nothing |
| NotificationProvider.Provider.Run | src/components/NotificationProvider.tsx:44-83 | one run of the effect records its decision and, when it calls, applies `UpdateEffect` to the registry; otherwise the registry is untouched |
| IndexRedirect.DestinationFollowsConfig | src/app/index.tsx:34-76 | start-up goes to the timetable exactly when a roll number or a year with sections is set; a cached timetable implies such a setting |
| IndexRedirect.IndexScreen.constructor | src/app/index.tsx:13-14 | no redirect yet and not ready |
| IndexRedirect.IndexScreen.Rendered | src/app/index.tsx:89-90 | a redirect is rendered exactly when one is set and the screen is ready |
| IndexRedirect.IndexScreen.Decide | src/app/index.tsx:29-79 | before hydration or while the cache restores nothing changes; afterwards the destination is set and the screen is ready |
| TimetableView.InitialTab | src/components/Timetable.tsx:20-22 | the first tab shown is today's weekday, or Monday on Sunday |
| TimetableView.WithoutSunday | src/components/Timetable.tsx:130 | the route list holds every day but Sunday |
| TimetableView.RoutesAreMondayToSaturday | src/components/Timetable.tsx:130-133 | the tabs are Monday to Saturday in order |
| TimetableView.InitialTabIsToday | src/components/Timetable.tsx:20-22 | on a weekday other than Sunday, the initial tab is the current day's label |
| TimetableView.DisplayedTimetable | src/components/Timetable.tsx:41 | the roll query's data is shown when a roll is set, else the sections query's, else nothing |
| TimetableView.Render | src/components/Timetable.tsx:38-54 | a loading query shows the skeleton; otherwise an error shows the failure text; otherwise the tabs show the displayed timetable |
| TimetableView.SortByTime | src/components/Timetable.tsx:81-83 | the in-place sort leaves the day's slots ordered by `Time_Sort` and a permutation of what they were |
| TimetableView.RenderDay | src/components/Timetable.tsx:59-83 | a missing or empty day shows "No Classes Today"; otherwise its slots are shown sorted by `Time_Sort`, each exactly as often as stored |
| LegacyTimetableView.Render | components/TimetableComponent.tsx:65-78 | an empty timetable shows the no-data text; otherwise tabs over that timetable with a valid initial tab |
| LegacyTimetableView.FetchedTimetableShowsTabs | components/TimetableComponent.tsx:65-73 | a successfully fetched timetable never shows the no-data text |
| SectionSelectionScreen.SelectSection | src/app/section-selection.tsx:36-40 | the stored selection gains the section; nothing else in the store changes |
| SectionSelectionScreen.RemoveSection | src/app/section-selection.tsx:42-44 | the stored selection loses the section; nothing else in the store changes |
| SectionSelectionScreen.SelectThenRemoveRestores | src/app/section-selection.tsx:36-44 | picking and then removing a new section restores the preferences |
| LegacySectionScreen.SectionScreen.constructor | app/section-selection.tsx:24-31 | the screen starts with empty lists and search, not fetching, holding the given selection |
| LegacySectionScreen.SectionScreen.FetchSections | app/section-selection.tsx:34-46 | with a year, both lists become the fetched names, or empty when none came back, and fetching ends; without one nothing changes |
| LegacySectionScreen.SectionScreen.ChangeSearch | app/section-selection.tsx:102-105 | sets the search text; every other field stays |
| LegacySectionScreen.SectionScreen.Filter | app/section-selection.tsx:48-53 | the shown list becomes the case-insensitive filter of the fetched list; every other field stays |
| LegacySectionScreen.SectionScreen.SelectSection | app/section-selection.tsx:55-59 | the selection the screen evidently intends gains the section; every other field stays |
| LegacySectionScreen.SectionScreen.RemoveSection | app/section-selection.tsx:61-63 | the intended selection loses the section; every other field stays |
| LegacySectionScreen.SelectedPanelAsWritten | app/section-selection.tsx:114 | the selected-sections guard throws exactly when the selection is `undefined`; otherwise it shows the panel exactly for a non-empty selection |
| LegacySectionScreen.SelectAsWritten | app/section-selection.tsx:26-59 | adding a section throws exactly when the selection is `undefined`; otherwise it adds as the current app does |
| LegacySectionScreen.RemoveAsWritten | app/section-selection.tsx:26-63 | removing a section throws exactly when the selection is `undefined`; otherwise it removes as the current app does |
| LegacySectionScreen.AsWrittenScreenThrows | app/section-selection.tsx:26 | read from the earlier store, the selection is `undefined`, so the render and both handlers throw `TypeError` whatever the store holds |
| SectionSelector.SectionForm.constructor | components/SectionSelector.tsx:26-32 | no year, empty lists, no selection, modal closed, empty search, not fetching |
| SectionSelector.SectionForm.PressYear | components/SectionSelector.tsx:84-93 | while loading the button is disabled and nothing changes; otherwise the year becomes the pressed option from 2, 3 and 4 and nothing else changes |
| SectionSelector.SectionForm.FetchSections | components/SectionSelector.tsx:35-46 | the fetch only logs: with a year, fetching ends and every other field stays; without one nothing changes |
| SectionSelector.SectionForm.OpenModal | components/SectionSelector.tsx:95-99 | the modal opens exactly when a year is chosen and neither the sections nor the owner are loading; nothing else changes |
| SectionSelector.SectionForm.ChangeSearch | components/SectionSelector.tsx:122-125 | sets the search text; every other field stays |
| SectionSelector.SectionForm.Filter | components/SectionSelector.tsx:49-54 | the shown list becomes the case-insensitive filter of the fetched list, which stays empty; every other field stays |
| SectionSelector.SectionForm.SelectSection | components/SectionSelector.tsx:56-60 | the selection gains the section; every other field stays |
| SectionSelector.SectionForm.RemoveSection | components/SectionSelector.tsx:62-64 | the selection loses the section; every other field stays |
| SectionSelector.SectionForm.Done | components/SectionSelector.tsx:66-69 | closes the modal and clears the search; the selection and every other field stay |
| SectionSelector.SectionForm.Submit | components/SectionSelector.tsx:71-75 | submits exactly when sections are selected and a year is chosen, handing over both |

## Left out

- Notification content, channels, Android/iOS presentation options, press handlers,
  `initializeNotificationService`, `setupNotificationListeners` and the debug or test helpers
  are left out. They do not affect which reminders exist or when they fire.
- Permission requests and the library's answers are inputs. The library's refusal of a
  single trigger is an input set. Reminder ids are a counter in place of the library's
  strings.
- Time zones, daylight saving and calendar arithmetic are left out. The week is a fixed
  7 × 1440 minutes. One "now" holds for a whole batch.
- Storage and cancel failures are left out, and so is the `catch` that turns a storage read
  error into the defaults. An unreadable value is modelled as a stored value that is not JSON.
- `parseInt` is modelled as the leading-digit prefix only, with no leading blanks or sign.
  `Number` of a digit string is its value. `toLowerCase` is ASCII only.
- JsText.LexLe: orders strings by Unicode scalar values, whereas the default `sort` compares
  UTF-16 code units. The two agree except between characters above U+FFFF and characters in
  U+E000 to U+FFFF; section names and years are ASCII.
- Notifications.NotificationCenter.ScheduleClassNotification: for a time label with no
  leading digit the source computes a NaN timestamp and hands it to the library. The model
  assumes the library rejects it, so the caller's `catch` (src/utils/notifications.ts:312-317)
  skips the slot. The model skips it without the call; what the library does with a NaN
  timestamp is not modelled.
- The default lead of 15 of `scheduleAllClassNotifications` is never used by a caller. The
  lead is always passed.
- Rehydration's `|| 0` is left out. A stored lead is always a number, and `0 || 0` is `0`.
- Asynchronous ordering is left out. Each awaited step completes before the next one, and
  effects run to completion one at a time.
- The web platform's skipped hydration is left out. The redirect takes `web` and `hydrated`
  as inputs.
- Debounce timing, navigation, toasts and layout are left out. A debounced filter is
  modelled as the filter it finally applies.
- React Query internals are left out: staleness, garbage collection, offline network mode,
  and the refetch after `invalidateQueries`. The last is followed at once by removal of the
  same queries.
- Rehydration writes to the state without notifying subscribers. The model applies the
  write; the missing notification is left out.
- TimetableView.RenderDay: the source sorts the cached day array in place. The model sorts a
  copy, so the reordering of the cached array is not captured. Stability of the sort is not
  stated.
- The "Error loading classes" branch and the "An unknown error occurred" fallback are left
  out. Sorting plain records cannot throw, and the fetches always throw `Error` values.
- ReminderTiming.SlotTriggerBeforeClass: stated only for leads of at most an hour. For
  longer leads the source's hour/minute pair carries a negative minute. `ReminderAt` states
  that case.
- NotificationProvider.Provider.Run: when a run happens is left to the caller. The source
  runs the effect only when the roll number, the selection, the year or the lead changes. A
  background refetch that replaces the timetable under the same key, or a prefetch that lands
  after the effect saw an empty cache, starts no run, so the reminders stay as they were.
- Schedule.Lookup, ReminderTiming.WeekdayNumber and TimetableApi.GroupByDay: day labels are
  assumed not to be names of `Object.prototype` properties such as `constructor` or
  `__proto__`. For such a label `dayMap[day] ?? 1` gives an inherited function, not 1, and
  grouping finds an inherited value and throws on `.push`. The backend's days are MON to SAT.
- The legacy roll-input and roll-input pages, fonts, layout files, privacy policy and
  setup script are outside the modelled core.

## Findings

| source | as written | input that shows it | evidently intended | confidence | as-written member | corrected member |
|---|---|---|---|---|---|---|
| src/components/NotificationProvider.tsx:46-53 | the sections cache key uses the selection in the order the sections were picked | no roll number; sections picked as `IT-1`, then `CSE-1`; year `3`; the prefetch cached the timetable under `CSE-1, IT-1` (src/hooks/queries.ts:79-84) | sort the sections for the key, as src/app/index.tsx:41-53 and src/hooks/queries.ts:37-40 do, so reminders follow the cached timetable | not executed; high | NotificationProvider.ChooseTimetableAsWritten | NotificationProvider.ChooseTimetable |
| app/section-selection.tsx:26 | the earlier screen takes `selectedSections` and `setSelectedSections` from the earlier timetable store (store/timetableState.ts:1-11), which has neither, so both are `undefined` | open the screen with any year and any store state: the render reads `selectedSections.length` (line 114) and throws; so do both handlers (lines 55-63) | the selection lives in a store that has it, as the current store does (src/store/appStore.ts) | not executed; high | LegacySectionScreen.SelectAsWritten | LegacySectionScreen.SectionScreen.SelectSection |

- As written, `NotificationProvider.AsWrittenCounterexample` shows the first row's input. The
  as-written lookup sees the empty object, so no reminders are scheduled for that
  timetable. The sorted lookup finds it.
- `NotificationProvider.AsWrittenMissesUnsorted` shows the miss for every unsorted
  selection.
- `NotificationProvider.SortedFindsAnyOrder` proves the corrected lookup finds the cached
  timetable for every picking order.
- `NotificationProvider.Provider.Run` uses the corrected lookup.
- `LegacySectionScreen.AsWrittenScreenThrows` shows the second row's input: for every state
  of the earlier store, the render and both handlers throw `TypeError`.
- `LegacySectionScreen.SectionScreen` keeps the selection as a field of its own, standing
  for the store field the screen evidently expects; its handlers agree with the as-written
  ones whenever the selection is a real list.
