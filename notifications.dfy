/**
 * The stateful half of src/utils/notifications.ts: the stored reminder settings, the batch
 * that replaces every scheduled reminder, and the settings update that decides between
 * clearing, rescheduling and only recording the lead.
 *
 * The notification library is an abstract registry of reminders with "cancel all" and "add";
 * the settings key of the device storage is a single stored value. Permission answers, the
 * current time and the library's refusal of a particular reminder are inputs.
 */
module Notifications {
  import opened Wrappers
  import opened Schedule
  import opened ReminderTiming

  const PermissionDenied := "Notification permission not granted"
  const ExactAlarmDenied := "Exact alarm permission not granted. Notifications may not work reliably on Android 12+."

  /** `NotificationSettings`. */
  datatype NotificationSettings = NotificationSettings(enabled: bool, minutesBefore: int, lastUpdated: int)

  /** A `Partial<NotificationSettings>`: the fields an object literal or stored JSON supplies. */
  datatype SettingsPatch = SettingsPatch(enabled: Option<bool>, minutesBefore: Option<int>, lastUpdated: Option<int>)

  /** What the settings key holds: nothing, something that cannot be read back, or a parsed JSON object. */
  datatype Stored = NothingStored | Unreadable | StoredJson(patch: SettingsPatch)

  /** `DEFAULT_SETTINGS`, whose time stamp is taken when the module loads. */
  function Defaults(loadedAt: int): (d: NotificationSettings)
    ensures d.enabled && d.minutesBefore == 0
  {
    NotificationSettings(true, 0, loadedAt)
  }

  /** `{ ...base, ...patch }`. */
  function Merge(base: NotificationSettings, patch: SettingsPatch): (r: NotificationSettings)
    ensures r.enabled == patch.enabled.GetOr(base.enabled)
    ensures r.minutesBefore == patch.minutesBefore.GetOr(base.minutesBefore)
    ensures r.lastUpdated == patch.lastUpdated.GetOr(base.lastUpdated)
  {
    NotificationSettings(
      patch.enabled.GetOr(base.enabled),
      patch.minutesBefore.GetOr(base.minutesBefore),
      patch.lastUpdated.GetOr(base.lastUpdated))
  }

  /** An empty patch changes nothing, a full patch replaces every field, and applying a patch twice is applying it once. */
  lemma MergeLaws(base: NotificationSettings, s: NotificationSettings, patch: SettingsPatch)
    ensures Merge(base, SettingsPatch(None, None, None)) == base
    ensures Merge(base, Full(s)) == s
    ensures Merge(Merge(base, patch), patch) == Merge(base, patch)
  {
  }

  /** The patch that writes every field of `s`, as `JSON.stringify` of a full settings object does. */
  function Full(s: NotificationSettings): SettingsPatch
  {
    SettingsPatch(Some(s.enabled), Some(s.minutesBefore), Some(s.lastUpdated))
  }

  /** `getNotificationSettings`: the stored fields over the defaults, or the defaults alone. */
  function LoadSettings(stored: Stored, loadedAt: int): NotificationSettings
  {
    match stored
    case StoredJson(patch) => Merge(Defaults(loadedAt), patch)
    case _ => Defaults(loadedAt)
  }

  /** What `saveNotificationSettings(patch)` at time `stamp` leaves in storage. */
  function SaveSettings(stored: Stored, loadedAt: int, patch: SettingsPatch, stamp: int): Stored
  {
    var current := LoadSettings(stored, loadedAt);
    var updated := Merge(current, patch);
    StoredJson(Full(NotificationSettings(updated.enabled, updated.minutesBefore, stamp)))
  }

  /** Loading falls back to the defaults when nothing is stored or the stored value cannot be read. */
  lemma LoadFallsBack(stored: Stored, loadedAt: int)
    requires !stored.StoredJson?
    ensures var s := LoadSettings(stored, loadedAt); s.enabled && s.minutesBefore == 0 && s.lastUpdated == loadedAt
  {
  }

  /**
   * Saving overwrites exactly the supplied fields of what loading returned before, and
   * refreshes the time stamp, whatever the patch says about it.
   */
  lemma LoadAfterSave(stored: Stored, loadedAt: int, patch: SettingsPatch, stamp: int)
    ensures var before := LoadSettings(stored, loadedAt);
      var after := LoadSettings(SaveSettings(stored, loadedAt, patch, stamp), loadedAt);
      && after.enabled == patch.enabled.GetOr(before.enabled)
      && after.minutesBefore == patch.minutesBefore.GetOr(before.minutesBefore)
      && after.lastUpdated == stamp
  {
  }

  /** The patch `{ enabled, minutesBefore }`. */
  function Preference(enabled: bool, minutes: int): SettingsPatch
  {
    SettingsPatch(Some(enabled), Some(minutes), None)
  }

  /** A reminder in the registry: its id, the class it announces and the instant it first fires. */
  datatype Reminder = Reminder(id: nat, slot: ScheduleSlot, fireAt: int)

  /** What the platform answers: notification permission, whether it is Android, and the exact-alarm setting. */
  datatype Permissions = Permissions(authorized: bool, android: bool, exactAlarm: bool)

  /**
   * The inputs of one call: the moment it runs, the time stamp `Date.now()` gives,
   * the platform's answers, and which reminders the library refuses to create.
   */
  datatype Env = Env(now: WeekTime, stamp: int, permissions: Permissions, rejects: ScheduleSlot -> bool)

  /** The slot's reminder instant when the library accepts it, `None` when scheduling it fails. */
  function Scheduled(slot: ScheduleSlot, lead: int, env: Env): Option<int>
  {
    if env.rejects(slot) then None else SlotTrigger(slot, lead, env.now)
  }

  /** How the batch schedules each slot: its reminder instant, or `None` where scheduling it throws. */
  function Scheduler(lead: int, env: Env): ScheduleSlot -> Option<int>
  {
    slot => Scheduled(slot, lead, env)
  }

  /** The reminder with id `id` that scheduling `slot` adds: none when it fails, one otherwise. */
  function Added(slot: ScheduleSlot, trigger: Option<int>, id: nat): (added: seq<Reminder>)
    ensures |added| == if trigger.Some? then 1 else 0
  {
    match trigger
    case None => []
    case Some(t) => [Reminder(id, slot, t)]
  }

  /** The reminders the batch adds for `slots`, in order, skipping failed slots; ids count up from `firstId`. */
  function Plan(slots: seq<ScheduleSlot>, trigger: ScheduleSlot -> Option<int>, firstId: nat): seq<Reminder>
    decreases |slots|
  {
    if slots == [] then []
    else
      var before := Plan(slots[..|slots| - 1], trigger, firstId);
      before + Added(slots[|slots| - 1], trigger(slots[|slots| - 1]), firstId + |before|)
  }

  /** The slots of `slots` that schedule successfully, in order. */
  function Schedulable(slots: seq<ScheduleSlot>, trigger: ScheduleSlot -> Option<int>): seq<ScheduleSlot>
    decreases |slots|
  {
    if slots == [] then []
    else
      Schedulable(slots[..|slots| - 1], trigger)
        + (if trigger(slots[|slots| - 1]).Some? then [slots[|slots| - 1]] else [])
  }

  function SlotsOf(rs: seq<Reminder>): (ss: seq<ScheduleSlot>)
    ensures |ss| == |rs| && forall i | 0 <= i < |rs| :: ss[i] == rs[i].slot
  {
    seq(|rs|, i requires 0 <= i < |rs| => rs[i].slot)
  }

  function IdsOf(rs: seq<Reminder>): (ids: seq<nat>)
    ensures |ids| == |rs| && forall i | 0 <= i < |rs| :: ids[i] == rs[i].id
  {
    seq(|rs|, i requires 0 <= i < |rs| => rs[i].id)
  }

  lemma IdsOfConcat(rs: seq<Reminder>, more: seq<Reminder>)
    ensures IdsOf(rs + more) == IdsOf(rs) + IdsOf(more)
  {
  }

  /**
   * The plan holds one reminder per schedulable slot, in input order, each set for that slot's
   * trigger instant, with consecutive ids starting at `firstId`.
   */
  lemma {:induction false} PlanShape(slots: seq<ScheduleSlot>, trigger: ScheduleSlot -> Option<int>, firstId: nat)
    ensures var p := Plan(slots, trigger, firstId);
      && SlotsOf(p) == Schedulable(slots, trigger)
      && |p| <= |slots|
      && (forall i | 0 <= i < |p| :: p[i].id == firstId + i)
      && (forall i | 0 <= i < |p| :: trigger(p[i].slot) == Some(p[i].fireAt))
    decreases |slots|
  {
    if slots != [] {
      var init := slots[..|slots| - 1];
      PlanShape(init, trigger, firstId);
      var before := Plan(init, trigger, firstId);
      var p := Plan(slots, trigger, firstId);
      if trigger(slots[|slots| - 1]).Some? {
        assert SlotsOf(p) == SlotsOf(before) + [slots[|slots| - 1]];
      } else {
        assert p == before;
      }
    }
  }

  /** Every slot that can be scheduled gets a reminder, and every reminder comes from such a slot. */
  lemma {:induction false} SchedulableMembers(slots: seq<ScheduleSlot>, trigger: ScheduleSlot -> Option<int>, s: ScheduleSlot)
    ensures s in Schedulable(slots, trigger) <==> s in slots && trigger(s).Some?
    decreases |slots|
  {
    if slots != [] {
      var init := slots[..|slots| - 1];
      assert slots == init + [slots[|slots| - 1]];
      SchedulableMembers(init, trigger, s);
    }
  }

  /** The plan for a longer list extends the plan for its prefix by the last slot's reminder, if any. */
  lemma PlanSnoc(slots: seq<ScheduleSlot>, slot: ScheduleSlot, trigger: ScheduleSlot -> Option<int>, firstId: nat)
    ensures Plan(slots + [slot], trigger, firstId)
      == Plan(slots, trigger, firstId) + Added(slot, trigger(slot), firstId + |Plan(slots, trigger, firstId)|)
  {
    assert (slots + [slot])[..|slots|] == slots;
  }

  /** One step of the batch keeps the registry equal to the plan and the collected ids equal to its ids. */
  lemma PlanStep(processed: seq<ScheduleSlot>, slot: ScheduleSlot, trigger: ScheduleSlot -> Option<int>, firstId: nat,
                 before: seq<Reminder>, after: seq<Reminder>, ids: seq<nat>, newIds: seq<nat>)
    requires before == Plan(processed, trigger, firstId) && ids == IdsOf(before)
    requires after == before + Added(slot, trigger(slot), firstId + |before|)
    requires newIds == ids + (if trigger(slot).Some? then [firstId + |before|] else [])
    ensures after == Plan(processed + [slot], trigger, firstId) && newIds == IdsOf(after)
  {
    PlanSnoc(processed, slot, trigger, firstId);
    IdsOfConcat(before, Added(slot, trigger(slot), firstId + |before|));
  }

  lemma ExtendPrefix(done: seq<ScheduleSlot>, classes: seq<ScheduleSlot>, k: nat)
    requires k < |classes|
    ensures done + classes[..k + 1] == (done + classes[..k]) + [classes[k]]
  {
    assert classes[..k + 1] == classes[..k] + [classes[k]];
  }

  /** The registry and the stored settings: everything the notification functions act on. */
  datatype CenterState = CenterState(reminders: seq<Reminder>, nextId: nat, stored: Stored)

  /** The permission checks that open the batch, in the source's order. */
  function PermissionCheck(p: Permissions): (r: Outcome<string>)
    ensures r == Pass <==> p.authorized && (p.android ==> p.exactAlarm)
    ensures !p.authorized ==> r == Fail(PermissionDenied)
  {
    if !p.authorized then Fail(PermissionDenied)
    else if p.android && !p.exactAlarm then Fail(ExactAlarmDenied)
    else Pass
  }

  /** The state and result `scheduleAllClassNotifications(timetable, lead)` leaves. */
  function ScheduleAllEffect(st: CenterState, loadedAt: int, timetable: Grouped, lead: int, env: Env)
    : (CenterState, Result<seq<nat>, string>)
  {
    match PermissionCheck(env.permissions)
    case Fail(message) => (st, Failure(message))
    case Pass =>
      var plan := Plan(AllSlots(timetable), Scheduler(lead, env), st.nextId);
      (CenterState(plan, st.nextId + |plan|, SaveSettings(st.stored, loadedAt, Preference(true, lead), env.stamp)),
       Success(IdsOf(plan)))
  }

  /**
   * A missing permission throws before anything is cancelled, scheduled or saved. Otherwise the
   * old reminders are all gone, one reminder per schedulable slot replaces them in day-then-slot
   * order, the returned ids are theirs, and the settings read back as enabled with the new lead.
   */
  lemma ScheduleAllOutcome(st: CenterState, loadedAt: int, timetable: Grouped, lead: int, env: Env)
    ensures var (after, r) := ScheduleAllEffect(st, loadedAt, timetable, lead, env);
      && (PermissionCheck(env.permissions).Fail? ==> after == st && r.Failure?)
      && (PermissionCheck(env.permissions).Pass? ==>
            && r.Success?
            && SlotsOf(after.reminders) == Schedulable(AllSlots(timetable), Scheduler(lead, env))
            && r.value == IdsOf(after.reminders)
            && |r.value| <= |AllSlots(timetable)|
            && LoadSettings(after.stored, loadedAt).enabled
            && LoadSettings(after.stored, loadedAt).minutesBefore == lead
            && LoadSettings(after.stored, loadedAt).lastUpdated == env.stamp)
  {
    PlanShape(AllSlots(timetable), Scheduler(lead, env), st.nextId);
    LoadAfterSave(st.stored, loadedAt, Preference(true, lead), env.stamp);
  }

  /** The batch hands out fresh ids: each is at least the counter it started from, and they are distinct. */
  lemma ScheduleAllFreshIds(st: CenterState, loadedAt: int, timetable: Grouped, lead: int, env: Env)
    ensures var (after, r) := ScheduleAllEffect(st, loadedAt, timetable, lead, env);
      r.Success? ==>
        && (forall i | 0 <= i < |r.value| :: st.nextId <= r.value[i] < after.nextId)
        && (forall i, j | 0 <= i < j < |r.value| :: r.value[i] != r.value[j])
  {
    PlanShape(AllSlots(timetable), Scheduler(lead, env), st.nextId);
  }

  /** The state and outcome `updateNotificationSettings(minutes, timetable)` leaves. */
  function UpdateEffect(st: CenterState, loadedAt: int, minutes: int, timetable: Option<Grouped>, env: Env)
    : (CenterState, Outcome<string>)
  {
    if minutes == 0 then
      (CenterState([], st.nextId, SaveSettings(st.stored, loadedAt, Preference(false, 0), env.stamp)), Pass)
    else if timetable.Some? && |timetable.value| > 0 then
      var (after, r) := ScheduleAllEffect(st, loadedAt, timetable.value, minutes, env);
      (after, if r.Failure? then Fail(r.error) else Pass)
    else
      (CenterState(st.reminders, st.nextId, SaveSettings(st.stored, loadedAt, Preference(true, minutes), env.stamp)), Pass)
  }

  /** A lead of 0 turns reminders off: the registry is empty and the settings read back disabled with lead 0. */
  lemma UpdateToZeroClears(st: CenterState, loadedAt: int, timetable: Option<Grouped>, env: Env)
    ensures var (after, r) := UpdateEffect(st, loadedAt, 0, timetable, env);
      && r == Pass && after.reminders == []
      && !LoadSettings(after.stored, loadedAt).enabled
      && LoadSettings(after.stored, loadedAt).minutesBefore == 0
  {
    LoadAfterSave(st.stored, loadedAt, Preference(false, 0), env.stamp);
  }

  /** A non-zero lead without a timetable only records the lead; the registry is untouched. */
  lemma UpdateWithoutTimetableKeepsReminders(st: CenterState, loadedAt: int, minutes: int, timetable: Option<Grouped>, env: Env)
    requires minutes != 0
    requires timetable.None? || timetable.value == []
    ensures var (after, r) := UpdateEffect(st, loadedAt, minutes, timetable, env);
      && r == Pass && after.reminders == st.reminders
      && LoadSettings(after.stored, loadedAt).enabled
      && LoadSettings(after.stored, loadedAt).minutesBefore == minutes
  {
    LoadAfterSave(st.stored, loadedAt, Preference(true, minutes), env.stamp);
  }

  /** A non-zero lead with a timetable is a full replacement by the batch, failing as the batch fails. */
  lemma UpdateWithTimetableReplaces(st: CenterState, loadedAt: int, minutes: int, timetable: Grouped, env: Env)
    requires minutes != 0 && timetable != []
    ensures var (after, r) := UpdateEffect(st, loadedAt, minutes, Some(timetable), env);
      && after == ScheduleAllEffect(st, loadedAt, timetable, minutes, env).0
      && (r == Pass <==> PermissionCheck(env.permissions) == Pass)
      && (r == Pass ==> SlotsOf(after.reminders) == Schedulable(AllSlots(timetable), Scheduler(minutes, env)))
  {
    ScheduleAllOutcome(st, loadedAt, timetable, minutes, env);
  }

  /**
   * The notification library's registry together with the settings storage. `loadedAt` is the
   * moment the module was loaded, when the defaults were stamped.
   */
  class NotificationCenter {
    var reminders: seq<Reminder>
    var nextId: nat
    var stored: Stored
    const loadedAt: int

    constructor (loadedAt: int)
      ensures State() == CenterState([], 0, NothingStored) && this.loadedAt == loadedAt
    {
      reminders := [];
      nextId := 0;
      stored := NothingStored;
      this.loadedAt := loadedAt;
    }

    function State(): CenterState
      reads this
    {
      CenterState(reminders, nextId, stored)
    }

    /** `getNotificationSettings()`. */
    method GetNotificationSettings() returns (s: NotificationSettings)
      ensures s == LoadSettings(stored, loadedAt)
    {
      match stored {
        case StoredJson(patch) =>
          s := Merge(Defaults(loadedAt), patch);
        case _ =>
          s := Defaults(loadedAt);
      }
    }

    /** `saveNotificationSettings(patch)` at time `stamp`. */
    method SaveNotificationSettings(patch: SettingsPatch, stamp: int)
      modifies this
      ensures stored == SaveSettings(old(stored), loadedAt, patch, stamp)
      ensures reminders == old(reminders) && nextId == old(nextId)
    {
      var current := GetNotificationSettings();
      var updated := Merge(current, patch);
      stored := StoredJson(Full(NotificationSettings(updated.enabled, updated.minutesBefore, stamp)));
    }

    /** `cancelAllNotifications()`. */
    method CancelAllNotifications()
      modifies this
      ensures reminders == [] && nextId == old(nextId) && stored == old(stored)
    {
      reminders := [];
    }

    /** `scheduleClassNotification(slot, lead)`: the new reminder's id, or `None` where the source throws. */
    method ScheduleClassNotification(slot: ScheduleSlot, lead: int, env: Env) returns (id: Option<nat>)
      modifies this
      ensures reminders == old(reminders) + Added(slot, Scheduler(lead, env)(slot), old(nextId))
      ensures id == (if Scheduler(lead, env)(slot).Some? then Some(old(nextId)) else None)
      ensures nextId == old(nextId) + |Added(slot, Scheduler(lead, env)(slot), old(nextId))|
      ensures stored == old(stored)
    {
      var start := ParseTimeString(slot.time);
      if start.None? || env.rejects(slot) {
        return None;
      }
      var weekday := WeekdayNumber(slot.day);
      var notificationHour, notificationMinute := AdjustForLead(start.value, lead);
      var nextOccurrence := GetNextOccurrence(weekday, notificationHour, notificationMinute, env.now);
      reminders := reminders + [Reminder(nextId, slot, nextOccurrence)];
      id := Some(nextId);
      nextId := nextId + 1;
    }

    /**
     * One iteration of the batch's inner loop: schedules `slot` after the slots `processed`
     * and pushes the new id, if any, onto `ids`.
     */
    method ScheduleNext(slot: ScheduleSlot, lead: int, env: Env, ids: seq<nat>,
                        ghost processed: seq<ScheduleSlot>, ghost firstId: nat)
      returns (notificationIds: seq<nat>)
      requires reminders == Plan(processed, Scheduler(lead, env), firstId)
      requires ids == IdsOf(reminders) && nextId == firstId + |reminders|
      modifies this
      ensures reminders == Plan(processed + [slot], Scheduler(lead, env), firstId)
      ensures notificationIds == IdsOf(reminders) && nextId == firstId + |reminders|
      ensures stored == old(stored)
    {
      ghost var before := reminders;
      var id := ScheduleClassNotification(slot, lead, env);
      notificationIds := ids;
      if id.Some? {
        notificationIds := notificationIds + [id.value];
      }
      PlanStep(processed, slot, Scheduler(lead, env), firstId, before, reminders, ids, notificationIds);
    }

    /** The inner loop of the batch: schedules one day's classes after the slots `done`. */
    method ScheduleDay(classes: seq<ScheduleSlot>, lead: int, env: Env, ids: seq<nat>,
                       ghost done: seq<ScheduleSlot>, ghost firstId: nat)
      returns (notificationIds: seq<nat>)
      requires reminders == Plan(done, Scheduler(lead, env), firstId)
      requires ids == IdsOf(reminders) && nextId == firstId + |reminders|
      modifies this
      ensures reminders == Plan(done + classes, Scheduler(lead, env), firstId)
      ensures notificationIds == IdsOf(reminders) && nextId == firstId + |reminders|
      ensures stored == old(stored)
    {
      notificationIds := ids;
      assert done + classes[..0] == done;
      for k := 0 to |classes|
        invariant reminders == Plan(done + classes[..k], Scheduler(lead, env), firstId)
        invariant notificationIds == IdsOf(reminders)
        invariant nextId == firstId + |reminders|
        invariant stored == old(stored)
      {
        ExtendPrefix(done, classes, k);
        notificationIds := ScheduleNext(classes[k], lead, env, notificationIds, done + classes[..k], firstId);
      }
      assert classes[..|classes|] == classes;
    }

    /** `scheduleAllClassNotifications(timetable, lead)`. */
    method ScheduleAllClassNotifications(timetable: Grouped, lead: int, env: Env)
      returns (r: Result<seq<nat>, string>)
      modifies this
      ensures (State(), r) == ScheduleAllEffect(old(State()), loadedAt, timetable, lead, env)
    {
      var check := PermissionCheck(env.permissions);
      if check.Fail? {
        return Failure(check.error);
      }
      CancelAllNotifications();
      ghost var firstId := nextId;
      var notificationIds: seq<nat> := [];
      for d := 0 to |timetable|
        invariant reminders == Plan(AllSlots(timetable[..d]), Scheduler(lead, env), firstId)
        invariant notificationIds == IdsOf(reminders)
        invariant nextId == firstId + |reminders|
        invariant stored == old(stored)
      {
        AllSlotsPrefix(timetable, d);
        notificationIds := ScheduleDay(timetable[d].slots, lead, env, notificationIds, AllSlots(timetable[..d]), firstId);
      }
      assert timetable[..|timetable|] == timetable;
      SaveNotificationSettings(Preference(true, lead), env.stamp);
      return Success(notificationIds);
    }

    /** `updateNotificationSettings(minutes, timetable)`. */
    method UpdateNotificationSettings(minutes: int, timetable: Option<Grouped>, env: Env)
      returns (r: Outcome<string>)
      modifies this
      ensures (State(), r) == UpdateEffect(old(State()), loadedAt, minutes, timetable, env)
    {
      var settings := GetNotificationSettings();
      if minutes == 0 {
        CancelAllNotifications();
        SaveNotificationSettings(Preference(false, 0), env.stamp);
        return Pass;
      }
      if timetable.Some? && |timetable.value| > 0 {
        var ids := ScheduleAllClassNotifications(timetable.value, minutes, env);
        if ids.Failure? {
          return Fail(ids.error);
        }
        return Pass;
      }
      SaveNotificationSettings(Preference(true, minutes), env.stamp);
      return Pass;
    }
  }
}
