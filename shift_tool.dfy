/** The `ShiftTool` object: the state it keeps (the current month, the
    primary roster, the secondary group roster and the sentry roster) and
    the operations of its scheduling engine, which update that state in
    place. */
module Engine {

  import opened Common
  import opened Calendar
  import opened DateFormat
  import opened Rotation
  import opened PrimaryRoster
  import opened CarryForward
  import opened GroupRotation
  import opened Sentry

  /** A `staffColors` entry. */
  datatype Color = Color(background: string, text: string)

  /** `sentrySchedule.initialCondition`: the seed day and slot. */
  datatype InitialCondition = InitialCondition(date: DateKey, time: string)

  /** A purge of month `(y, m)` deletes `key` when it belongs to that month
      and, for a purge of one person (`who == Some(name)`), holds that name. */
  predicate Doomed(shifts: map<DateKey, string>, y: int, m: int, who: Option<string>, key: DateKey)
    requires key in shifts
  {
    key.year == y && key.month == m && (who.None? || shifts[key] == who.value)
  }

  /** The map a purge leaves. */
  function Purged(shifts: map<DateKey, string>, y: int, m: int, who: Option<string>): map<DateKey, string>
  {
    map key | key in shifts && !Doomed(shifts, y, m, who, key) :: shifts[key]
  }

  /** The purge loop after it has visited every key but those in `pending`. */
  function PurgedBut(shifts: map<DateKey, string>, y: int, m: int, who: Option<string>, pending: set<DateKey>): map<DateKey, string>
  {
    map key | key in shifts && (key in pending || !Doomed(shifts, y, m, who, key)) :: shifts[key]
  }

  /** A month purge leaves every other month alone and nothing of its own
      month; a purge of one person leaves everyone else's entries and none
      of that person's in the month. */
  lemma PurgedSpec(shifts: map<DateKey, string>, y: int, m: int, who: Option<string>, key: DateKey)
    ensures var p := Purged(shifts, y, m, who);
      && (key.year != y || key.month != m ==> (key in p <==> key in shifts))
      && (who.None? && key.year == y && key.month == m ==> key !in p)
      && (who.Some? && key.year == y && key.month == m && key in shifts ==>
            (key in p <==> shifts[key] != who.value))
      && (key in p ==> key in shifts && p[key] == shifts[key])
  {
  }

  /** Purging twice is purging once. */
  lemma PurgeIdempotent(shifts: map<DateKey, string>, y: int, m: int, who: Option<string>)
    ensures Purged(Purged(shifts, y, m, who), y, m, who) == Purged(shifts, y, m, who)
  {
    var p := Purged(shifts, y, m, who);
    assert forall key :: key in Purged(p, y, m, who) <==> key in p;
  }

  /** The `startsWith` test of the purge loops selects exactly the keys of
      the purged month (for dates with a four-digit year). */
  lemma PurgeTestIsPrefix(shifts: map<DateKey, string>, y: int, m: int, who: Option<string>, key: DateKey)
    requires key in shifts && Formattable(key) && 0 <= y <= 9999 && 0 <= m < 12
    ensures Doomed(shifts, y, m, who, key)
        <==> StartsWith(FormatDate(key), MonthPrefix(y, m)) && (who.None? || shifts[key] == who.value)
  {
    PrefixIffSameMonth(key, y, m);
  }

  /** Merging a freshly generated month over a purged map: keys of other
      months keep their entries, and the month holds exactly the generated
      entries. */
  lemma MergeSpec(shifts: map<DateKey, string>, y: int, m: int, staff: seq<string>, holidays: map<DateKey, string>,
                  startMonThu: string, startFri: string, startWeekend: string, key: DateKey)
    requires 0 <= m < 12
    ensures var g := RoundRobin(y, m, staff, holidays, startMonThu, startFri, startWeekend);
      var merged := Purged(shifts, y, m, None) + g;
      && (key.year != y || key.month != m ==> (key in merged <==> key in shifts) && (key in merged ==> merged[key] == shifts[key]))
      && (key.year == y && key.month == m ==> (key in merged <==> key in g) && (key in merged ==> merged[key] == g[key]))
  {
    RoundRobinKeys(y, m, staff, holidays, startMonThu, startFri, startWeekend, key);
  }

  /** The day number of day `d` of a month, as `new Date(Date.UTC(y, m, d))`. */
  method DayNumberIn(y: int, m: int, d: int) returns (n: int)
    requires 0 <= m < 12
    ensures n == DayNumber(DateKey(y, m, 1)) + d - 1
  {
    n := DayNumber(DateKey(y, m, d));
  }

  /** `(timeSlots.indexOf(slot) + 1) % timeSlots.length`. */
  method NextSlotIndex(slots: seq<string>, slot: string) returns (i: int)
    requires |slots| > 0
    ensures 0 <= i < |slots| && slots[i] == InCycle(slots, slot)
  {
    i := (IndexOf(slots, slot) + 1) % |slots|;
    InCycleIsMod(slots, slot);
  }

  function DefaultStaffNames(): seq<string>
  {
    ["劉學翰", "廖志龍", "袁國維", "張靖興", "曾名賢"]
  }

  function DefaultSecondaryStaff(): seq<string>
  {
    ["劉學翰", "廖志龍", "張靖興"]
  }

  function DefaultInitialCondition(): InitialCondition
  {
    InitialCondition(DateKey(2025, 5, 1), "02:00-04:00")
  }

  class ShiftTool {
    /** `currentDate`, as the month it shows. */
    var year: int
    var month: int
    /** The primary roster. */
    var staffNames: seq<string>
    var shifts: map<DateKey, string>
    var staffColors: map<string, Color>
    var holidays: map<DateKey, string>
    /** The secondary (group) roster. */
    var secondaryStaff: seq<string>
    var groupDefinitions: seq<Group>
    var anchor: Anchor
    var secondaryShifts: map<DateKey, string>
    /** The sentry roster, keyed by day number. */
    var sentryShifts: map<int, string>
    var initialCondition: InitialCondition
    var sentryConfig: SentryConfig
    var timeSlots: seq<string>

    ghost predicate Valid()
      reads this`month, this`anchor, this`initialCondition, this`timeSlots
    {
      0 <= month < 12 && 0 <= anchor.date.month < 12 && 0 <= initialCondition.date.month < 12 && |timeSlots| > 0
    }

    /** The built-in state, shown at month `(nowYear, nowMonth)`. */
    constructor (nowYear: int, nowMonth: int)
      requires 0 <= nowMonth < 12
      ensures Valid()
      ensures year == nowYear && month == nowMonth
      ensures staffNames == DefaultStaffNames() && shifts == map[] && staffColors == map[] && holidays == map[]
      ensures secondaryStaff == DefaultSecondaryStaff() && groupDefinitions == DefaultGroups()
      ensures anchor == DefaultAnchor() && secondaryShifts == map[]
      ensures sentryShifts == map[] && initialCondition == DefaultInitialCondition()
      ensures sentryConfig == DefaultConfig() && timeSlots == DefaultSlots()
    {
      year, month := nowYear, nowMonth;
      staffNames := DefaultStaffNames();
      shifts, staffColors, holidays := map[], map[], map[];
      secondaryStaff := DefaultSecondaryStaff();
      groupDefinitions := DefaultGroups();
      anchor := DefaultAnchor();
      secondaryShifts := map[];
      sentryShifts := map[];
      initialCondition := DefaultInitialCondition();
      sentryConfig := DefaultConfig();
      timeSlots := DefaultSlots();
    }

    /** The purge loop: deletes the current month's keys, or only those
        holding `who` when it is given. */
    method DeleteMonthEntries(who: Option<string>)
      modifies this`shifts
      ensures shifts == Purged(old(shifts), year, month, who)
    {
      var year, month := this.year, this.month;
      ghost var orig := shifts;
      var keys := shifts.Keys;
      while keys != {}
        invariant keys <= orig.Keys
        invariant shifts == PurgedBut(orig, year, month, who, keys)
        decreases |keys|
      {
        var key :| key in keys;
        assert key in shifts && shifts[key] == orig[key];
        if key.year == year && key.month == month && (who.None? || shifts[key] == who.value) {
          shifts := shifts - {key};
        }
        keys := keys - {key};
      }
    }

    /** `handleClearMonth`, once confirmed: the current month's primary
        entries are deleted. */
    method ClearMonth()
      modifies this`shifts
      ensures shifts == Purged(old(shifts), year, month, None)
    {
      DeleteMonthEntries(None);
    }

    /** `removeStaffMember`, once confirmed: the name leaves the list and
        the colour table, and its entries of the current month are deleted. */
    method RemoveStaffMember(index: int)
      requires 0 <= index < |staffNames|
      modifies this`staffNames, this`staffColors, this`shifts
      ensures var removedName := old(staffNames)[index];
        && staffNames == old(staffNames)[..index] + old(staffNames)[index + 1..]
        && staffColors == old(staffColors) - {removedName}
        && shifts == Purged(old(shifts), year, month, Some(removedName))
    {
      var removedName := staffNames[index];
      staffNames := staffNames[..index] + staffNames[index + 1..];
      staffColors := staffColors - {removedName};
      DeleteMonthEntries(Some(removedName));
    }

    /** `proceedWithAutoSchedule`: the month is cleared and regenerated from
        the chosen seed names. */
    method ProceedWithAutoSchedule(startMonThu: string, startFri: string, startWeekend: string)
      requires Valid()
      modifies this`shifts
      ensures Valid()
      ensures shifts == Purged(old(shifts), year, month, None)
                        + RoundRobin(year, month, staffNames, holidays, startMonThu, startFri, startWeekend)
    {
      DeleteMonthEntries(None);
      var newShifts := GenerateBasicRoundRobin(year, month, staffNames, holidays, startMonThu, startFri, startWeekend);
      shifts := shifts + newShifts;
    }

    /** `handleCarryOver`: with no staff it refuses and changes nothing;
        otherwise it finds the latest person of each day class in the current
        month, moves to the next month, clears it, and generates it seeded
        with the successors of those people. */
    method HandleCarryOver() returns (ok: bool)
      requires Valid()
      modifies this`year, this`month, this`shifts
      ensures Valid()
      ensures !ok <==> |old(staffNames)| == 0
      ensures !ok ==> year == old(year) && month == old(month) && shifts == old(shifts)
      ensures ok ==> (year, month) == NextMonth(old(year), old(month))
      ensures ok ==>
        var seeds := CarrySeeds(old(staffNames), LastOfMonth(old(year), old(month), FirstWeekday(old(year), old(month)), old(shifts)));
        shifts == Purged(old(shifts), year, month, None)
                  + RoundRobin(year, month, old(staffNames), holidays, seeds.monThu, seeds.fri, seeds.weekend)
    {
      if |staffNames| == 0 {
        return false;
      }
      var lastStaff := LastStaffByClass(year, month, shifts);
      var staffList := staffNames;
      var next := NextMonth(year, month);
      year, month := next.0, next.1;
      DeleteMonthEntries(None);
      var newShifts := GenerateBasicRoundRobin(year, month, staffList, holidays,
                                               GetNext(staffList, lastStaff.monThu), GetNext(staffList, lastStaff.fri),
                                               GetNext(staffList, lastStaff.weekend));
      shifts := shifts + newShifts;
      ok := true;
    }

    /** `ensureSecondaryScheduleForMonth`: every weekend day of the current
        month without a truthy entry gets the group of its weekend. */
    method EnsureSecondaryScheduleForMonth()
      requires Valid()
      modifies this`secondaryShifts
      ensures Valid()
      ensures secondaryShifts == MonthFill(year, month, groupDefinitions, anchor, old(secondaryShifts))
    {
      var groupDefinitions, anchor := this.groupDefinitions, this.anchor;
      if |groupDefinitions| == 0 {
        return;
      }
      var year, month := this.year, this.month;
      ghost var prior := secondaryShifts;
      ghost var first := FirstWeekday(year, month);
      ghost var base := DayNumber(DateKey(year, month, 1));
      ghost var a := FindGroup(groupDefinitions, anchor.groupName);
      ghost var anchorDay := DayNumber(anchor.date);
      var day := 1;
      while day <= DaysInMonth(year, month)
        invariant 1 <= day <= DaysInMonth(year, month) + 1
        invariant secondaryShifts == Fill(year, month, first, base, groupDefinitions, a, anchorDay, prior, day - 1)
      {
        var dateStr := DateKey(year, month, day);
        var dayOfWeek := GetDay(year, month, day);
        FillNext(year, month, first, base, groupDefinitions, a, anchorDay, prior, day);
        if (dayOfWeek == 6 || dayOfWeek == 0) && !Truthy(secondaryShifts, dateStr) {
          var saturday := DayNumberIn(year, month, day);
          if dayOfWeek == 0 {
            saturday := saturday - 1;
          }
          assert saturday == SaturdayOf(base + day - 1, WeekdayAt(first, day));
          var name := WeekendGroup(groupDefinitions, anchor, saturday);
          assert name == NameOn(first, base, groupDefinitions, a, anchorDay, day);
          secondaryShifts := secondaryShifts[dateStr := name];
        }
        day := day + 1;
      }
    }

    /** `recalculateSentryIfNeeded`: unless forced, an existing sentry map
        is kept; otherwise the map is rebuilt from the initial condition up
        to `horizon` (a day number). */
    method RecalculateSentryIfNeeded(force: bool, horizon: int)
      requires Valid()
      modifies this`sentryShifts
      ensures Valid()
      ensures !force && |old(sentryShifts)| > 0 ==> sentryShifts == old(sentryShifts)
      ensures force || |old(sentryShifts)| == 0 ==>
        sentryShifts == Schedule(timeSlots, sentryConfig, DayNumber(initialCondition.date), initialCondition.time, horizon)
    {
      if !force && |sentryShifts| > 0 {
        return;
      }
      var initialCondition, config, timeSlots := this.initialCondition, this.sentryConfig, this.timeSlots;
      sentryShifts := map[];
      var currentDate := DayNumber(initialCondition.date);
      var currentTimeSlot := initialCondition.time;
      ghost var whole := Schedule(timeSlots, config, currentDate, currentTimeSlot, horizon);
      while currentDate <= horizon
        invariant sentryShifts + Schedule(timeSlots, config, currentDate, currentTimeSlot, horizon) == whole
        decreases horizon - currentDate
      {
        ScheduleWrite(timeSlots, config, sentryShifts, currentDate, currentTimeSlot, horizon);
        sentryShifts := sentryShifts[currentDate := currentTimeSlot];
        currentDate := currentDate + (if currentTimeSlot == config.resetTime then 2 else 1);
        var nextIndex := NextSlotIndex(timeSlots, currentTimeSlot);
        currentTimeSlot := if currentTimeSlot == config.resetTime then config.restartTime else timeSlots[nextIndex];
      }
      assert sentryShifts + map[] == sentryShifts;
    }
  }
}
