/**
 * src/services/timetable.api.ts: fetching a week's schedule by roll number or by sections and
 * grouping the returned rows by day. The backend's reply is an input of the model.
 */
module TimetableApi {
  import opened Wrappers
  import opened Schedule
  import Helpers

  const NoRollTimetable := "No timetable found for this roll number"
  const NoSectionsTimetable := "No timetable found for these sections"

  /** The `{ data, error }` pair a backend call resolves to; `None` stands for `null`. */
  datatype Reply<T> = Reply(data: Option<seq<T>>, error: Option<string>)

  /** The guard both fetches apply: an error reply throws its message, no rows throws `notFound`. */
  function CheckRows<T>(reply: Reply<T>, notFound: string): (r: Result<seq<T>, string>)
    ensures r.Success? ==> r.value != [] && reply.data == Some(r.value) && reply.error.None?
    ensures reply.error.Some? ==> r == Failure(reply.error.value)
    ensures reply.error.None? && reply.data.GetOr([]) == [] ==> r == Failure(notFound)
  {
    if reply.error.Some? then Failure(reply.error.value)
    else if reply.data.None? || |reply.data.value| == 0 then Failure(notFound)
    else Success(reply.data.value)
  }

  /** One step of the grouping `reduce`: push `slot` onto its day's array, creating it at the end when absent. */
  function AddSlot(g: Grouped, slot: ScheduleSlot): Grouped
  {
    if g == [] then [DayBucket(slot.day, [slot])]
    else if g[0].day == slot.day then [DayBucket(g[0].day, g[0].slots + [slot])] + g[1..]
    else [g[0]] + AddSlot(g[1..], slot)
  }

  /** The grouped schedule the `reduce` in `groupByDay` arrives at. */
  function Group(slots: seq<ScheduleSlot>): Grouped
    decreases |slots|
  {
    if slots == [] then [] else AddSlot(Group(slots[..|slots| - 1]), slots[|slots| - 1])
  }

  /** The slots of `slots` that fall on `day`, in input order. */
  function OnDay(slots: seq<ScheduleSlot>, day: string): seq<ScheduleSlot>
    decreases |slots|
  {
    if slots == [] then []
    else OnDay(slots[..|slots| - 1], day) + (if slots[|slots| - 1].day == day then [slots[|slots| - 1]] else [])
  }

  /** The set of `Day` values of `slots`. */
  function DaysOf(slots: seq<ScheduleSlot>): set<string>
  {
    set i | 0 <= i < |slots| :: slots[i].day
  }

  /** `groupByDay(slots)`: the accumulator object is updated slot by slot. */
  method GroupByDay(slots: seq<ScheduleSlot>) returns (acc: Grouped)
    ensures acc == Group(slots)
    ensures DistinctDays(acc)
    ensures forall day :: Lookup(acc, day) == (if day in DaysOf(slots) then Some(OnDay(slots, day)) else None)
    ensures multiset(AllSlots(acc)) == multiset(slots)
  {
    acc := [];
    for i := 0 to |slots|
      invariant acc == Group(slots[..i])
    {
      assert slots[..i + 1][..i] == slots[..i];
      acc := AddSlot(acc, slots[i]);
    }
    assert slots[..|slots|] == slots;
    GroupPartitions(slots);
  }

  lemma {:induction false} LookupAddSlot(g: Grouped, slot: ScheduleSlot, day: string)
    ensures Lookup(AddSlot(g, slot), day)
      == if day == slot.day then Some(Lookup(g, day).GetOr([]) + [slot]) else Lookup(g, day)
    decreases |g|
  {
    var r := AddSlot(g, slot);
    if g == [] {
      assert r == [DayBucket(slot.day, [slot])] && r[1..] == [];
      assert [] + [slot] == [slot];
    } else if g[0].day == slot.day {
      assert r[1..] == g[1..];
    } else {
      assert r[1..] == AddSlot(g[1..], slot);
      LookupAddSlot(g[1..], slot, day);
    }
  }

  /** A day with no slot has no slots in input order either. */
  lemma {:induction false} OnDayAbsent(slots: seq<ScheduleSlot>, day: string)
    requires day !in DaysOf(slots)
    ensures OnDay(slots, day) == []
    decreases |slots|
  {
    if slots != [] {
      var init := slots[..|slots| - 1];
      DaysOfSnoc(slots);
      OnDayAbsent(init, day);
    }
  }

  /** Adding a slot keeps the keys, or appends the slot's day as a new last key. */
  lemma {:induction false} AddSlotDays(g: Grouped, slot: ScheduleSlot)
    ensures Days(AddSlot(g, slot)) == if slot.day in Days(g) then Days(g) else Days(g) + [slot.day]
    decreases |g|
  {
    var r := AddSlot(g, slot);
    if g == [] {
    } else if g[0].day == slot.day {
      assert r[1..] == g[1..];
      assert Days(r) == Days(g);
    } else {
      assert r[1..] == AddSlot(g[1..], slot);
      AddSlotDays(g[1..], slot);
      assert Days(g) == [g[0].day] + Days(g[1..]);
      assert Days(r) == [g[0].day] + Days(r[1..]);
    }
  }

  /** Adding a slot adds exactly that slot to the schedule's contents. */
  lemma {:induction false} AddSlotContents(g: Grouped, slot: ScheduleSlot)
    ensures multiset(AllSlots(AddSlot(g, slot))) == multiset(AllSlots(g)) + multiset{slot}
    decreases |g|
  {
    var r := AddSlot(g, slot);
    if g == [] {
      assert r[1..] == [];
    } else if g[0].day == slot.day {
      assert r[1..] == g[1..];
    } else {
      assert r[1..] == AddSlot(g[1..], slot);
      AddSlotContents(g[1..], slot);
    }
  }

  /** Buckets only grow: every bucket of `AddSlot(g, slot)` is non-empty when every bucket of `g` is. */
  lemma {:induction false} AddSlotNonEmpty(g: Grouped, slot: ScheduleSlot)
    requires forall i | 0 <= i < |g| :: g[i].slots != []
    ensures forall i | 0 <= i < |AddSlot(g, slot)| :: AddSlot(g, slot)[i].slots != []
    decreases |g|
  {
    if g != [] && g[0].day != slot.day {
      AddSlotNonEmpty(g[1..], slot);
      assert AddSlot(g, slot)[1..] == AddSlot(g[1..], slot);
    }
  }


  /** The days of a non-empty input are the days of all but its last slot, plus the last slot's. */
  lemma DaysOfSnoc(slots: seq<ScheduleSlot>)
    requires slots != []
    ensures DaysOf(slots) == DaysOf(slots[..|slots| - 1]) + {slots[|slots| - 1].day}
  {
    var init := slots[..|slots| - 1];
    forall d | d in DaysOf(slots) ensures d in DaysOf(init) + {slots[|slots| - 1].day} {
      var i :| 0 <= i < |slots| && slots[i].day == d;
      if i < |init| { assert init[i].day == d; }
    }
    forall d | d in DaysOf(init) ensures d in DaysOf(slots) {
      var i :| 0 <= i < |init| && init[i].day == d;
      assert slots[i].day == d;
    }
  }

  /** The keys of the grouped schedule are exactly the days present, each once, and no bucket is empty. */
  lemma {:induction false} GroupKeys(slots: seq<ScheduleSlot>)
    ensures DistinctDays(Group(slots))
    ensures forall i | 0 <= i < |Group(slots)| :: Group(slots)[i].slots != []
    ensures forall d :: d in Days(Group(slots)) <==> d in DaysOf(slots)
    decreases |slots|
  {
    if slots != [] {
      var init, last := slots[..|slots| - 1], slots[|slots| - 1];
      GroupKeys(init);
      DaysOfSnoc(slots);
      var g, r := Group(init), Group(slots);
      AddSlotNonEmpty(g, last);
      AddSlotDays(g, last);
      forall i, j | 0 <= i < j < |r| ensures r[i].day != r[j].day {
        assert Days(r)[i] == r[i].day && Days(r)[j] == r[j].day;
        if j == |g| {
          assert Days(g)[i] == g[i].day;
        } else {
          assert Days(g)[i] == g[i].day && Days(g)[j] == g[j].day;
        }
      }
    }
  }

  /** Each day's bucket holds exactly that day's slots, in input order. */
  lemma {:induction false} GroupLookup(slots: seq<ScheduleSlot>, day: string)
    ensures Lookup(Group(slots), day) == if day in DaysOf(slots) then Some(OnDay(slots, day)) else None
    decreases |slots|
  {
    if slots != [] {
      var init, last := slots[..|slots| - 1], slots[|slots| - 1];
      var g := Group(init);
      assert Group(slots) == AddSlot(g, last);
      assert OnDay(slots, day) == OnDay(init, day) + (if last.day == day then [last] else []);
      GroupLookup(init, day);
      DaysOfSnoc(slots);
      LookupAddSlot(g, last, day);
      if day == last.day {
        if day !in DaysOf(init) {
          OnDayAbsent(init, day);
          assert Lookup(g, day).GetOr([]) == OnDay(init, day);
        }
        assert Lookup(g, day).GetOr([]) == OnDay(init, day);
      } else {
        assert OnDay(slots, day) == OnDay(init, day);
      }
    }
  }

  /** No slot is lost or duplicated by the grouping. */
  lemma {:induction false} GroupContents(slots: seq<ScheduleSlot>)
    ensures multiset(AllSlots(Group(slots))) == multiset(slots)
    decreases |slots|
  {
    if slots != [] {
      var init, last := slots[..|slots| - 1], slots[|slots| - 1];
      assert slots == init + [last];
      GroupContents(init);
      AddSlotContents(Group(init), last);
    }
  }

  /**
   * `groupByDay` partitions its input: each day's bucket holds exactly that day's slots in
   * input order, the keys are exactly the days present, no bucket is empty, and no slot is
   * lost or duplicated.
   */
  lemma GroupPartitions(slots: seq<ScheduleSlot>)
    ensures DistinctDays(Group(slots))
    ensures forall day :: (Lookup(Group(slots), day)
      == if day in DaysOf(slots) then Some(OnDay(slots, day)) else None)
    ensures forall i | 0 <= i < |Group(slots)| :: Group(slots)[i].slots != []
    ensures forall d :: d in Days(Group(slots)) <==> d in DaysOf(slots)
    ensures multiset(AllSlots(Group(slots))) == multiset(slots)
  {
    GroupKeys(slots);
    GroupContents(slots);
    forall day ensures (Lookup(Group(slots), day)
      == if day in DaysOf(slots) then Some(OnDay(slots, day)) else None)
    {
      GroupLookup(slots, day);
    }
  }

  /** The grouped schedule has exactly as many slots as the rows it came from. */
  lemma GroupSize(slots: seq<ScheduleSlot>)
    ensures |AllSlots(Group(slots))| == |slots|
    ensures slots != [] ==> |Group(slots)| > 0
  {
    GroupPartitions(slots);
    assert |multiset(AllSlots(Group(slots)))| == |multiset(slots)|;
    if slots != [] {
      assert slots[0].day in DaysOf(slots);
    }
  }

  /** A checked reply turned into the grouped timetable, or its error passed on. */
  function GroupRows(rows: Result<seq<ScheduleSlot>, string>): (r: Result<Grouped, string>)
    ensures r.Failure? <==> rows.Failure?
    ensures rows.Failure? ==> r.error == rows.error
    ensures rows.Success? ==> (|r.value| > 0 <==> rows.value != []) && multiset(AllSlots(r.value)) == multiset(rows.value)
  {
    match rows
    case Failure(message) => Failure(message)
    case Success(slots) =>
      GroupSize(slots);
      GroupContents(slots);
      Success(Group(slots))
  }

  /** What `fetchTimetableByRoll(roll)` resolves to, or the message it throws, on the date `today`. */
  function RollTimetable(roll: string, today: Helpers.CalendarDate,
                         rpc: (string, int) -> Reply<ScheduleSlot>): (r: Result<Grouped, string>)
    ensures var reply := rpc(roll, Helpers.AcademicYear(roll, today));
      r.Success? <==> reply.error.None? && reply.data.GetOr([]) != []
    ensures r.Success? ==> |r.value| > 0
    ensures var reply := rpc(roll, Helpers.AcademicYear(roll, today));
      r.Success? ==> reply.data.Some? && r.value == Group(reply.data.value)
    ensures var reply := rpc(roll, Helpers.AcademicYear(roll, today));
      reply.error.Some? ==> r == Failure(reply.error.value)
    ensures var reply := rpc(roll, Helpers.AcademicYear(roll, today));
      reply.error.None? && reply.data.GetOr([]) == [] ==> r == Failure(NoRollTimetable)
  {
    GroupRows(CheckRows(rpc(roll, Helpers.AcademicYear(roll, today)), NoRollTimetable))
  }

  /** `fetchTimetableByRoll(rollNumber)` on the date `today`; `rpc` is the backend's answer to a request. */
  method FetchTimetableByRoll(roll: string, today: Helpers.CalendarDate,
                              rpc: (string, int) -> Reply<ScheduleSlot>)
    returns (r: Result<Grouped, string>)
    ensures r == RollTimetable(roll, today, rpc)
  {
    var academicYear := Helpers.AcademicYear(roll, today);
    var reply := rpc(roll, academicYear);
    var rows := CheckRows(reply, NoRollTimetable);
    if rows.Failure? {
      return Failure(rows.error);
    }
    var grouped := GroupByDay(rows.value);
    return Success(grouped);
  }

  /** `year${academicYear}_tt`. */
  function TableName(academicYear: string): (name: string)
    ensures |name| == |academicYear| + 7
    ensures name[..4] == "year" && name[4..|name| - 3] == academicYear && name[|name| - 3..] == "_tt"
  {
    "year" + academicYear + "_tt"
  }

  /** The rows of a table that pass the query's `.in("Section", sections)` filter. */
  function InSections(rows: seq<ScheduleSlot>, sections: seq<string>): (r: seq<ScheduleSlot>)
    ensures forall s :: s in r <==> s in rows && s.section in sections
  {
    if rows == [] then []
    else (if rows[0].section in sections then [rows[0]] else []) + InSections(rows[1..], sections)
  }

  /** What `fetchTimetableBySections(sections, academicYear)` resolves to, or the message it throws. */
  function SectionsTimetable(sections: seq<string>, academicYear: string,
                             table: string -> Reply<ScheduleSlot>): (r: Result<Grouped, string>)
    ensures var reply := table(TableName(academicYear));
      r.Success? <==> reply.error.None? && InSections(reply.data.GetOr([]), sections) != []
    ensures r.Success? ==> |r.value| > 0 && forall s | s in AllSlots(r.value) :: s.section in sections
    ensures var reply := table(TableName(academicYear));
      r.Success? ==> reply.data.Some? && r.value == Group(InSections(reply.data.value, sections))
    ensures var reply := table(TableName(academicYear));
      r.Success? ==> forall s | s in reply.data.value && s.section in sections :: s in AllSlots(r.value)
    ensures var reply := table(TableName(academicYear));
      reply.error.Some? ==> r == Failure(reply.error.value)
    ensures var reply := table(TableName(academicYear));
      reply.error.None? && InSections(reply.data.GetOr([]), sections) == [] ==> r == Failure(NoSectionsTimetable)
  {
    var reply := table(TableName(academicYear));
    var filtered := Reply(if reply.data.Some? then Some(InSections(reply.data.value, sections)) else None, reply.error);
    var rows := CheckRows(filtered, NoSectionsTimetable);
    var r := GroupRows(rows);
    if r.Success? then
      assert forall s | s in AllSlots(r.value) :: s in multiset(rows.value);
      assert forall s | s in rows.value :: s in multiset(AllSlots(r.value));
      r
    else r
  }

  /**
   * `fetchTimetableBySections(sections, academicYear)`; `table(name)` is the backend's answer to
   * selecting the rows of table `name` before the section filter.
   */
  method FetchTimetableBySections(sections: seq<string>, academicYear: string,
                                  table: string -> Reply<ScheduleSlot>)
    returns (r: Result<Grouped, string>)
    ensures r == SectionsTimetable(sections, academicYear, table)
  {
    var tableName := TableName(academicYear);
    var reply := table(tableName);
    var filtered := Reply(if reply.data.Some? then Some(InSections(reply.data.value, sections)) else None, reply.error);
    var rows := CheckRows(filtered, NoSectionsTimetable);
    if rows.Failure? {
      return Failure(rows.error);
    }
    var grouped := GroupByDay(rows.value);
    return Success(grouped);
  }
}
