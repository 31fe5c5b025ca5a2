/** The records of store/timetableState.ts and src/store/appState.ts: one class slot and the day-keyed schedule. */
module Schedule {
  import opened Wrappers

  /** `ScheduleSlot`: one timetabled class; `timeSort` is the numeric sort key `Time_Sort`. */
  datatype ScheduleSlot = ScheduleSlot(
    day: string, room: string, section: string, subject: string, time: string, timeSort: int)

  /** One key of a `GroupedSchedule` object together with its array of slots. */
  datatype DayBucket = DayBucket(day: string, slots: seq<ScheduleSlot>)

  /**
   * `GroupedSchedule`: the object's keys in insertion order (the order `Object.keys` reports),
   * each with its slots. `[]` is the empty object `{}`.
   */
  type Grouped = seq<DayBucket>

  /** `Object.keys(g)`. */
  function Days(g: Grouped): (ds: seq<string>)
    ensures |ds| == |g|
    ensures forall i | 0 <= i < |g| :: ds[i] == g[i].day
  {
    seq(|g|, i requires 0 <= i < |g| => g[i].day)
  }

  /** An object has each key once. */
  predicate DistinctDays(g: Grouped)
  {
    forall i, j | 0 <= i < j < |g| :: g[i].day != g[j].day
  }

  /** `g[day]`, `None` standing for `undefined`. */
  function Lookup(g: Grouped, day: string): (r: Option<seq<ScheduleSlot>>)
    ensures r.None? <==> day !in Days(g)
  {
    if g == [] then None
    else if g[0].day == day then Some(g[0].slots)
    else
      assert Days(g) == [g[0].day] + Days(g[1..]);
      Lookup(g[1..], day)
  }

  /** Every slot of the schedule, day by day in key order, and within a day in array order. */
  function AllSlots(g: Grouped): seq<ScheduleSlot>
  {
    if g == [] then [] else g[0].slots + AllSlots(g[1..])
  }

  /** The slots of a prefix of the keys extend by the next day's slots. */
  lemma {:induction false} AllSlotsPrefix(g: Grouped, d: nat)
    requires d < |g|
    ensures AllSlots(g[..d + 1]) == AllSlots(g[..d]) + g[d].slots
    decreases d
  {
    if d == 0 {
      assert g[..1][1..] == [];
    } else {
      assert g[..d + 1][1..] == g[1..][..d];
      assert g[..d][1..] == g[1..][..d - 1];
      AllSlotsPrefix(g[1..], d - 1);
    }
  }
}
