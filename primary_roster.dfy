/** The primary round-robin generator (`generateBasicRoundRobin`): one pass
    over the days of a month with three independent cursors, one per day
    class, into the staff list.

    `Step` is one iteration of its day loop and `Prefix` the state after
    the first `k` days; the method runs the loop itself. `Turns` and
    `Expected` are an independent, closed-form description of the result —
    who is on duty on each day — and `PrefixDescribed` proves that the loop
    meets it. */
module PrimaryRoster {

  import opened Common
  import opened Calendar
  import opened Rotation

  /** The three rotation tracks: Monday–Thursday, Friday, Saturday/Sunday. */
  datatype DayClass = MonThu | Fri | Weekend

  function ClassOf(w: int): DayClass
    requires 0 <= w < 7
  {
    if 1 <= w <= 4 then MonThu else if w == 5 then Fri else Weekend
  }

  /** The generator's `idx` record. */
  datatype Cursors = Cursors(monThu: int, fri: int, weekend: int)

  function CursorOf(c: Cursors, cls: DayClass): int
  {
    match cls
    case MonThu => c.monThu
    case Fri => c.fri
    case Weekend => c.weekend
  }

  predicate InRange(c: Cursors, n: int)
  {
    0 <= c.monThu < n && 0 <= c.fri < n && 0 <= c.weekend < n
  }

  /** The loop state: the cursors and the `newShifts` dictionary. */
  datatype Progress = Progress(idx: Cursors, out: map<DateKey, string>)

  /** Every staff name is a non-empty string (so a written entry is truthy). */
  predicate AllNamed(staff: seq<string>)
  {
    forall i :: 0 <= i < |staff| ==> staff[i] != ""
  }

  /** The cursors the seed names select; an unknown name selects 0. */
  function SeedCursors(staff: seq<string>, startMonThu: string, startFri: string, startWeekend: string): (c: Cursors)
    requires |staff| > 0
    ensures InRange(c, |staff|)
  {
    Cursors(StartIndex(staff, startMonThu), StartIndex(staff, startFri), StartIndex(staff, startWeekend))
  }

  /** One iteration of the day loop for day `day`. */
  function Step(y: int, m: int, first: int, staff: seq<string>, holidays: map<DateKey, string>, day: int, p: Progress): (q: Progress)
    requires 0 <= m < 12 && |staff| > 0 && InRange(p.idx, |staff|)
    ensures InRange(q.idx, |staff|)
  {
    var n := |staff|;
    var k := DateKey(y, m, day);
    if Truthy(p.out, k) || Truthy(holidays, k) then p
    else
      var w := WeekdayAt(first, day);
      if 1 <= w <= 4 then
        Progress(p.idx.(monThu := Advance(p.idx.monThu, n)), p.out[k := staff[p.idx.monThu]])
      else if w == 5 then
        Progress(p.idx.(fri := Advance(p.idx.fri, n)), p.out[k := staff[p.idx.fri]])
      else if w == 6 then
        var person := staff[p.idx.weekend];
        var sun := DateKey(y, m, day + 1);
        var out := p.out[k := person];
        Progress(p.idx.(weekend := Advance(p.idx.weekend, n)),
                 if day + 1 <= DaysInMonth(y, m) && !Truthy(holidays, sun) then out[sun := person] else out)
      else
        // w == 0, and the Sunday branch's extra `!newShifts[dateStr]` test is already known to hold
        Progress(p.idx.(weekend := Advance(p.idx.weekend, n)), p.out[k := staff[p.idx.weekend]])
  }

  /** The loop state after days 1..k. */
  function Prefix(y: int, m: int, first: int, staff: seq<string>, holidays: map<DateKey, string>, seed: Cursors, k: int): (p: Progress)
    requires 0 <= m < 12 && |staff| > 0 && InRange(seed, |staff|) && 0 <= k <= DaysInMonth(y, m)
    ensures InRange(p.idx, |staff|)
    decreases k
  {
    if k == 0 then Progress(seed, map[])
    else Step(y, m, first, staff, holidays, k, Prefix(y, m, first, staff, holidays, seed, k - 1))
  }

  /** What `generateBasicRoundRobin` returns. */
  function RoundRobin(y: int, m: int, staff: seq<string>, holidays: map<DateKey, string>,
                      startMonThu: string, startFri: string, startWeekend: string): map<DateKey, string>
    requires 0 <= m < 12
  {
    if |staff| == 0 then map[]
    else Prefix(y, m, FirstWeekday(y, m), staff, holidays, SeedCursors(staff, startMonThu, startFri, startWeekend), DaysInMonth(y, m)).out
  }

  /** `generateBasicRoundRobin` as it runs: a loop over the days of the month. */
  method GenerateBasicRoundRobin(year: int, month: int, staffList: seq<string>, holidays: map<DateKey, string>,
                                 startMonThu: string, startFri: string, startWeekend: string)
    returns (newShifts: map<DateKey, string>)
    requires 0 <= month < 12
    ensures newShifts == RoundRobin(year, month, staffList, holidays, startMonThu, startFri, startWeekend)
    ensures |staffList| == 0 ==> newShifts == map[]
  {
    newShifts := map[];
    if |staffList| == 0 {
      return;
    }
    var n := |staffList|;
    var daysInMonth := DaysInMonth(year, month);
    var idx := Cursors(StartIndex(staffList, startMonThu), StartIndex(staffList, startFri), StartIndex(staffList, startWeekend));
    ghost var seed := idx;
    ghost var first := FirstWeekday(year, month);
    var day := 1;
    while day <= daysInMonth
      invariant 1 <= day <= daysInMonth + 1
      invariant InRange(idx, n)
      invariant Progress(idx, newShifts) == Prefix(year, month, first, staffList, holidays, seed, day - 1)
    {
      ghost var p := Progress(idx, newShifts);
      PrefixNext(year, month, first, staffList, holidays, seed, day, p);
      var dateStr := DateKey(year, month, day);
      if Truthy(newShifts, dateStr) || Truthy(holidays, dateStr) {
        StepSkipped(year, month, first, staffList, holidays, day, p);
        day := day + 1;
        continue;
      }
      idx, newShifts := AssignDay(year, month, staffList, holidays, day, idx, newShifts);
      day := day + 1;
    }
  }

  /** The body of the day loop for a day that is neither taken nor a holiday:
      the person under the day class's cursor takes the day (a Saturday also
      its Sunday) and that cursor moves on. */
  method AssignDay(year: int, month: int, staffList: seq<string>, holidays: map<DateKey, string>,
                   day: int, idx: Cursors, newShifts: map<DateKey, string>)
    returns (idx': Cursors, newShifts': map<DateKey, string>)
    requires 0 <= month < 12 && |staffList| > 0 && InRange(idx, |staffList|)
    requires !Truthy(newShifts, DateKey(year, month, day)) && !Truthy(holidays, DateKey(year, month, day))
    ensures Progress(idx', newShifts')
         == Step(year, month, FirstWeekday(year, month), staffList, holidays, day, Progress(idx, newShifts))
  {
    var n := |staffList|;
    var daysInMonth := DaysInMonth(year, month);
    ghost var first := FirstWeekday(year, month);
    ghost var p := Progress(idx, newShifts);
    ghost var next := Step(year, month, first, staffList, holidays, day, p);
    var dateStr := DateKey(year, month, day);
    idx', newShifts' := idx, newShifts;
    var dayOfWeek := GetDay(year, month, day);
    if 1 <= dayOfWeek <= 4 {
      StepMonThu(year, month, first, staffList, holidays, day, p);
      newShifts' := newShifts'[dateStr := staffList[idx.monThu]];
      var nextMonThu := NextIndex(idx.monThu, n);
      idx' := idx.(monThu := nextMonThu);
      assert Progress(idx', newShifts') == next;
    } else if dayOfWeek == 5 {
      StepFri(year, month, first, staffList, holidays, day, p);
      newShifts' := newShifts'[dateStr := staffList[idx.fri]];
      var nextFri := NextIndex(idx.fri, n);
      idx' := idx.(fri := nextFri);
      assert Progress(idx', newShifts') == next;
    } else if dayOfWeek == 6 {
      StepSat(year, month, first, staffList, holidays, day, p);
      var person := staffList[idx.weekend];
      newShifts' := newShifts'[dateStr := person];
      if day + 1 <= daysInMonth {
        var sunStr := DateKey(year, month, day + 1);
        if !Truthy(holidays, sunStr) {
          newShifts' := newShifts'[sunStr := person];
        }
      }
      assert newShifts' == SaturdayOut(year, month, holidays, day, p.out, person);
      var nextWeekend := NextIndex(idx.weekend, n);
      idx' := idx.(weekend := nextWeekend);
      assert Progress(idx', newShifts') == next;
    } else if dayOfWeek == 0 && !Truthy(newShifts', dateStr) {
      StepSun(year, month, first, staffList, holidays, day, p);
      newShifts' := newShifts'[dateStr := staffList[idx.weekend]];
      var nextWeekend := NextIndex(idx.weekend, n);
      idx' := idx.(weekend := nextWeekend);
      assert Progress(idx', newShifts') == next;
    }
  }

  /** `(i + 1) % n`: the cursor after `i`. */
  method NextIndex(i: int, n: int) returns (r: int)
    requires 0 <= i < n
    ensures r == Advance(i, n)
  {
    r := (i + 1) % n;
    AdvanceIsMod(i, n);
  }

  /** `new Date(year, month, day).getDay()`. */
  method GetDay(year: int, month: int, day: int) returns (w: int)
    requires 0 <= month < 12
    ensures w == WeekdayAt(FirstWeekday(year, month), day)
  {
    w := Weekday(year, month, day);
    WeekdayFromFirst(year, month, day);
  }

  /** The loop state after one more day is one more `Step`. */
  lemma PrefixNext(y: int, m: int, first: int, staff: seq<string>, holidays: map<DateKey, string>, seed: Cursors, day: int, p: Progress)
    requires 0 <= m < 12 && |staff| > 0 && InRange(seed, |staff|) && 1 <= day <= DaysInMonth(y, m)
    requires p == Prefix(y, m, first, staff, holidays, seed, day - 1)
    ensures Prefix(y, m, first, staff, holidays, seed, day) == Step(y, m, first, staff, holidays, day, p)
  {
  }

  // The state each branch of the loop body leaves, as `Step` defines it.

  lemma StepSkipped(y: int, m: int, first: int, staff: seq<string>, holidays: map<DateKey, string>, day: int, p: Progress)
    requires 0 <= m < 12 && |staff| > 0 && InRange(p.idx, |staff|)
    requires Truthy(p.out, DateKey(y, m, day)) || Truthy(holidays, DateKey(y, m, day))
    ensures Step(y, m, first, staff, holidays, day, p) == p
  {
  }

  lemma StepMonThu(y: int, m: int, first: int, staff: seq<string>, holidays: map<DateKey, string>, day: int, p: Progress)
    requires 0 <= m < 12 && |staff| > 0 && InRange(p.idx, |staff|)
    requires !Truthy(p.out, DateKey(y, m, day)) && !Truthy(holidays, DateKey(y, m, day))
    requires 1 <= WeekdayAt(first, day) <= 4
    ensures Step(y, m, first, staff, holidays, day, p)
         == Progress(p.idx.(monThu := Advance(p.idx.monThu, |staff|)), p.out[DateKey(y, m, day) := staff[p.idx.monThu]])
  {
  }

  lemma StepFri(y: int, m: int, first: int, staff: seq<string>, holidays: map<DateKey, string>, day: int, p: Progress)
    requires 0 <= m < 12 && |staff| > 0 && InRange(p.idx, |staff|)
    requires !Truthy(p.out, DateKey(y, m, day)) && !Truthy(holidays, DateKey(y, m, day))
    requires WeekdayAt(first, day) == 5
    ensures Step(y, m, first, staff, holidays, day, p)
         == Progress(p.idx.(fri := Advance(p.idx.fri, |staff|)), p.out[DateKey(y, m, day) := staff[p.idx.fri]])
  {
  }

  lemma StepSat(y: int, m: int, first: int, staff: seq<string>, holidays: map<DateKey, string>, day: int, p: Progress)
    requires 0 <= m < 12 && |staff| > 0 && InRange(p.idx, |staff|)
    requires !Truthy(p.out, DateKey(y, m, day)) && !Truthy(holidays, DateKey(y, m, day))
    requires WeekdayAt(first, day) == 6
    ensures Step(y, m, first, staff, holidays, day, p)
         == Progress(p.idx.(weekend := Advance(p.idx.weekend, |staff|)), SaturdayOut(y, m, holidays, day, p.out, staff[p.idx.weekend]))
  {
  }

  lemma StepSun(y: int, m: int, first: int, staff: seq<string>, holidays: map<DateKey, string>, day: int, p: Progress)
    requires 0 <= m < 12 && |staff| > 0 && InRange(p.idx, |staff|)
    requires !Truthy(p.out, DateKey(y, m, day)) && !Truthy(holidays, DateKey(y, m, day))
    requires WeekdayAt(first, day) == 0
    ensures Step(y, m, first, staff, holidays, day, p)
         == Progress(p.idx.(weekend := Advance(p.idx.weekend, |staff|)), p.out[DateKey(y, m, day) := staff[p.idx.weekend]])
  {
  }

  // ---------------------------------------------------------------------------
  // The closed-form description of the result.

  /** A Sunday whose Saturday (the day before, in the same month) got an
      assignment that the Saturday branch copied onto it. */
  predicate PairedSunday(y: int, m: int, first: int, holidays: map<DateKey, string>, d: int)
    requires 0 <= m < 12
  {
    d > 1 && WeekdayAt(first, d) == 0
    && !Truthy(holidays, DateKey(y, m, d - 1)) && !Truthy(holidays, DateKey(y, m, d))
  }

  /** Day `d` consumes one turn of the cursor of class `cls`. */
  predicate TakesTurn(y: int, m: int, first: int, holidays: map<DateKey, string>, cls: DayClass, d: int)
    requires 0 <= m < 12
  {
    !Truthy(holidays, DateKey(y, m, d)) && ClassOf(WeekdayAt(first, d)) == cls && !PairedSunday(y, m, first, holidays, d)
  }

  /** How many of the days 1..k consume a turn of class `cls`. */
  function Turns(y: int, m: int, first: int, holidays: map<DateKey, string>, cls: DayClass, k: int): (t: nat)
    requires 0 <= m < 12
    decreases k
  {
    if k <= 0 then 0
    else Turns(y, m, first, holidays, cls, k - 1) + (if TakesTurn(y, m, first, holidays, cls, k) then 1 else 0)
  }

  /** Who is on duty on day `d`: the staff member the cursor of the day's class
      reaches after the turns taken before it; a paired Sunday has its
      Saturday's person. */
  function Expected(y: int, m: int, first: int, staff: seq<string>, holidays: map<DateKey, string>, seed: Cursors, d: int): string
    requires 0 <= m < 12 && |staff| > 0 && InRange(seed, |staff|)
  {
    var n := |staff|;
    if PairedSunday(y, m, first, holidays, d) then
      staff[AdvanceTimes(seed.weekend, Turns(y, m, first, holidays, Weekend, d - 2), n)]
    else
      var cls := ClassOf(WeekdayAt(first, d));
      staff[AdvanceTimes(CursorOf(seed, cls), Turns(y, m, first, holidays, cls, d - 1), n)]
  }

  /** The claims a class's values are made under: the weekend track needs
      non-empty names, because an empty name copied onto a Sunday is falsy
      and the Sunday branch then assigns it again. */
  predicate Tracked(staff: seq<string>, cls: DayClass)
  {
    cls != Weekend || AllNamed(staff)
  }

  /** The cursors after days 1..k: each has taken one step per turn of its class. */
  ghost predicate CursorsAt(y: int, m: int, first: int, staff: seq<string>, holidays: map<DateKey, string>, seed: Cursors, k: int, c: Cursors)
    requires 0 <= m < 12 && |staff| > 0 && InRange(seed, |staff|)
  {
    && c.monThu == AdvanceTimes(seed.monThu, Turns(y, m, first, holidays, MonThu, k), |staff|)
    && c.fri == AdvanceTimes(seed.fri, Turns(y, m, first, holidays, Fri, k), |staff|)
    && (AllNamed(staff) ==> c.weekend == AdvanceTimes(seed.weekend, Turns(y, m, first, holidays, Weekend, k), |staff|))
  }

  /** After days 1..k every key is a non-holiday day of the month up to k,
      or the paired Sunday k + 1. */
  ghost predicate KeysAt(y: int, m: int, first: int, holidays: map<DateKey, string>, k: int, out: map<DateKey, string>)
    requires 0 <= m < 12
  {
    forall key :: key in out ==>
      && key.year == y && key.month == m && 1 <= key.day <= k + 1 && key.day <= DaysInMonth(y, m)
      && !Truthy(holidays, key)
      && (key.day == k + 1 ==> PairedSunday(y, m, first, holidays, k + 1))
  }

  /** After days 1..k every non-holiday day up to k has an entry, and so does
      a paired Sunday k + 1. */
  ghost predicate CoveredAt(y: int, m: int, first: int, holidays: map<DateKey, string>, k: int, out: map<DateKey, string>)
    requires 0 <= m < 12
  {
    && (k + 1 <= DaysInMonth(y, m) && PairedSunday(y, m, first, holidays, k + 1) ==> DateKey(y, m, k + 1) in out)
    && (forall d :: 1 <= d <= k && !Truthy(holidays, DateKey(y, m, d)) ==> DateKey(y, m, d) in out)
  }

  /** After days 1..k every entry of a tracked class holds its expected person. */
  ghost predicate ValuesAt(y: int, m: int, first: int, staff: seq<string>, holidays: map<DateKey, string>, seed: Cursors, k: int, out: map<DateKey, string>)
    requires 0 <= m < 12 && |staff| > 0 && InRange(seed, |staff|)
  {
    forall d {:trigger out[DateKey(y, m, d)]} :: 1 <= d <= k + 1 && DateKey(y, m, d) in out
      && Tracked(staff, ClassOf(WeekdayAt(first, d)))
      ==> out[DateKey(y, m, d)] == Expected(y, m, first, staff, holidays, seed, d)
  }

  /** The loop invariant: what the state after days 1..k is. */
  ghost predicate Described(y: int, m: int, first: int, staff: seq<string>, holidays: map<DateKey, string>, seed: Cursors, k: int, p: Progress)
    requires 0 <= m < 12 && |staff| > 0 && InRange(seed, |staff|)
  {
    && CursorsAt(y, m, first, staff, holidays, seed, k, p.idx)
    && KeysAt(y, m, first, holidays, k, p.out)
    && CoveredAt(y, m, first, holidays, k, p.out)
    && ValuesAt(y, m, first, staff, holidays, seed, k, p.out)
  }

  lemma WeekdayOfNextDay(first: int, d: int)
    ensures WeekdayAt(first, d + 1) == (WeekdayAt(first, d) + 1) % 7
  {
    ModSucc(first + d - 1, 7, WeekdayAt(first, d));
  }

  // One lemma per component of the description, each about one change.

  /** Each cursor advances exactly when the day takes a turn of its class. */
  lemma CursorsStep(y: int, m: int, first: int, staff: seq<string>, holidays: map<DateKey, string>, seed: Cursors, k: int, c: Cursors, c': Cursors)
    requires 0 <= m < 12 && |staff| > 0 && InRange(seed, |staff|) && InRange(c, |staff|) && 0 <= k
    requires CursorsAt(y, m, first, staff, holidays, seed, k, c)
    requires c'.monThu == if TakesTurn(y, m, first, holidays, MonThu, k + 1) then Advance(c.monThu, |staff|) else c.monThu
    requires c'.fri == if TakesTurn(y, m, first, holidays, Fri, k + 1) then Advance(c.fri, |staff|) else c.fri
    requires AllNamed(staff) ==>
      c'.weekend == if TakesTurn(y, m, first, holidays, Weekend, k + 1) then Advance(c.weekend, |staff|) else c.weekend
    ensures CursorsAt(y, m, first, staff, holidays, seed, k + 1, c')
  {
  }

  /** A cursor that has taken every earlier turn of its class points at the
      expected person of the next day of that class. */
  lemma TurnValue(y: int, m: int, first: int, staff: seq<string>, holidays: map<DateKey, string>, seed: Cursors, k: int, c: Cursors, cls: DayClass)
    requires 0 <= m < 12 && |staff| > 0 && InRange(seed, |staff|) && InRange(c, |staff|) && 0 <= k
    requires CursorsAt(y, m, first, staff, holidays, seed, k, c)
    requires Tracked(staff, cls) && ClassOf(WeekdayAt(first, k + 1)) == cls && !PairedSunday(y, m, first, holidays, k + 1)
    ensures staff[CursorOf(c, cls)] == Expected(y, m, first, staff, holidays, seed, k + 1)
  {
  }

  /** A paired Sunday's expected person is its Saturday's. */
  lemma PairedSundayExpected(y: int, m: int, first: int, staff: seq<string>, holidays: map<DateKey, string>, seed: Cursors, d: int)
    requires 0 <= m < 12 && |staff| > 0 && InRange(seed, |staff|)
    requires PairedSunday(y, m, first, holidays, d)
    ensures Expected(y, m, first, staff, holidays, seed, d) == Expected(y, m, first, staff, holidays, seed, d - 1)
  {
    WeekdayOfNextDay(first, d - 1);
    assert WeekdayAt(first, d - 1) == 6;
  }

  lemma ExpectedNamed(y: int, m: int, first: int, staff: seq<string>, holidays: map<DateKey, string>, seed: Cursors, d: int)
    requires 0 <= m < 12 && |staff| > 0 && InRange(seed, |staff|) && AllNamed(staff)
    ensures Expected(y, m, first, staff, holidays, seed, d) != ""
  {
  }

  lemma KeysGrow(y: int, m: int, first: int, holidays: map<DateKey, string>, k: int, out: map<DateKey, string>)
    requires 0 <= m < 12
    requires KeysAt(y, m, first, holidays, k, out)
    ensures KeysAt(y, m, first, holidays, k + 1, out)
  {
  }

  lemma KeysPut(y: int, m: int, first: int, holidays: map<DateKey, string>, k: int, out: map<DateKey, string>, d: int, v: string)
    requires 0 <= m < 12
    requires KeysAt(y, m, first, holidays, k, out)
    requires 1 <= d <= k + 1 && d <= DaysInMonth(y, m) && !Truthy(holidays, DateKey(y, m, d))
    requires d == k + 1 ==> PairedSunday(y, m, first, holidays, k + 1)
    ensures KeysAt(y, m, first, holidays, k, out[DateKey(y, m, d) := v])
  {
  }

  lemma CoveredGrow(y: int, m: int, first: int, holidays: map<DateKey, string>, k: int, out: map<DateKey, string>)
    requires 0 <= m < 12
    requires CoveredAt(y, m, first, holidays, k, out)
    requires !Truthy(holidays, DateKey(y, m, k + 1)) ==> DateKey(y, m, k + 1) in out
    requires k + 2 <= DaysInMonth(y, m) && PairedSunday(y, m, first, holidays, k + 2) ==> DateKey(y, m, k + 2) in out
    ensures CoveredAt(y, m, first, holidays, k + 1, out)
  {
  }

  lemma CoveredPut(y: int, m: int, first: int, holidays: map<DateKey, string>, k: int, out: map<DateKey, string>, d: int, v: string)
    requires 0 <= m < 12
    requires CoveredAt(y, m, first, holidays, k, out)
    ensures CoveredAt(y, m, first, holidays, k, out[DateKey(y, m, d) := v])
  {
  }

  lemma ValuesGrow(y: int, m: int, first: int, staff: seq<string>, holidays: map<DateKey, string>, seed: Cursors, k: int, out: map<DateKey, string>)
    requires 0 <= m < 12 && |staff| > 0 && InRange(seed, |staff|)
    requires ValuesAt(y, m, first, staff, holidays, seed, k, out)
    requires DateKey(y, m, k + 2) in out && Tracked(staff, ClassOf(WeekdayAt(first, k + 2)))
      ==> out[DateKey(y, m, k + 2)] == Expected(y, m, first, staff, holidays, seed, k + 2)
    ensures ValuesAt(y, m, first, staff, holidays, seed, k + 1, out)
  {
  }

  lemma ValuesPut(y: int, m: int, first: int, staff: seq<string>, holidays: map<DateKey, string>, seed: Cursors, k: int, out: map<DateKey, string>, d: int, v: string)
    requires 0 <= m < 12 && |staff| > 0 && InRange(seed, |staff|)
    requires ValuesAt(y, m, first, staff, holidays, seed, k, out)
    requires Tracked(staff, ClassOf(WeekdayAt(first, d))) ==> v == Expected(y, m, first, staff, holidays, seed, d)
    ensures ValuesAt(y, m, first, staff, holidays, seed, k, out[DateKey(y, m, d) := v])
  {
  }

  /** After days 1..k nothing is recorded for day k + 2. */
  lemma KeysBound(y: int, m: int, first: int, holidays: map<DateKey, string>, k: int, out: map<DateKey, string>)
    requires 0 <= m < 12
    requires KeysAt(y, m, first, holidays, k, out)
    ensures DateKey(y, m, k + 2) !in out
  {
  }

  // The four cases of one iteration.

  /** A skipped day (a holiday, or a Sunday its Saturday filled) changes nothing. */
  lemma StepSkip(y: int, m: int, first: int, staff: seq<string>, holidays: map<DateKey, string>, seed: Cursors, k: int, p: Progress)
    requires 0 <= m < 12 && |staff| > 0 && InRange(seed, |staff|) && InRange(p.idx, |staff|)
    requires 0 <= k < DaysInMonth(y, m)
    requires Described(y, m, first, staff, holidays, seed, k, p)
    requires Truthy(holidays, DateKey(y, m, k + 1)) || Truthy(p.out, DateKey(y, m, k + 1))
    ensures Described(y, m, first, staff, holidays, seed, k + 1, p)
  {
    var d := k + 1;
    WeekdayOfNextDay(first, d);
    if !Truthy(holidays, DateKey(y, m, d)) {
      assert PairedSunday(y, m, first, holidays, d);
    }
    assert !PairedSunday(y, m, first, holidays, d + 1);
    CursorsStep(y, m, first, staff, holidays, seed, k, p.idx, p.idx);
    KeysGrow(y, m, first, holidays, k, p.out);
    CoveredGrow(y, m, first, holidays, k, p.out);
    KeysBound(y, m, first, holidays, k, p.out);
    ValuesGrow(y, m, first, staff, holidays, seed, k, p.out);
  }

  /** A Monday–Thursday or Friday day takes its track's person and advances
      only that track. */
  lemma StepWeekday(y: int, m: int, first: int, staff: seq<string>, holidays: map<DateKey, string>, seed: Cursors, k: int, p: Progress)
    requires 0 <= m < 12 && |staff| > 0 && InRange(seed, |staff|) && InRange(p.idx, |staff|)
    requires 0 <= k < DaysInMonth(y, m)
    requires Described(y, m, first, staff, holidays, seed, k, p)
    requires !Truthy(holidays, DateKey(y, m, k + 1)) && !Truthy(p.out, DateKey(y, m, k + 1))
    requires 1 <= WeekdayAt(first, k + 1) <= 5
    ensures Described(y, m, first, staff, holidays, seed, k + 1, Step(y, m, first, staff, holidays, k + 1, p))
  {
    var d, n := k + 1, |staff|;
    var key := DateKey(y, m, d);
    var cls := ClassOf(WeekdayAt(first, d));
    var q := Step(y, m, first, staff, holidays, d, p);
    var person := staff[CursorOf(p.idx, cls)];
    WeekdayOfNextDay(first, d);
    assert !PairedSunday(y, m, first, holidays, d) && !PairedSunday(y, m, first, holidays, d + 1);
    assert q.out == p.out[key := person];
    assert q.idx == if cls == MonThu then p.idx.(monThu := Advance(p.idx.monThu, n))
                    else p.idx.(fri := Advance(p.idx.fri, n));
    CursorsStep(y, m, first, staff, holidays, seed, k, p.idx, q.idx);
    TurnValue(y, m, first, staff, holidays, seed, k, p.idx, cls);
    KeysGrow(y, m, first, holidays, k, p.out);
    KeysPut(y, m, first, holidays, k + 1, p.out, d, person);
    CoveredPut(y, m, first, holidays, k, p.out, d, person);
    CoveredGrow(y, m, first, holidays, k, q.out);
    KeysBound(y, m, first, holidays, k, p.out);
    ValuesPut(y, m, first, staff, holidays, seed, k, p.out, d, person);
    ValuesGrow(y, m, first, staff, holidays, seed, k, q.out);
  }

  /** The entries a Saturday writes: its own, and its Sunday's when that
      Sunday is in the month and not a holiday. */
  function SaturdayOut(y: int, m: int, holidays: map<DateKey, string>, d: int, out: map<DateKey, string>, person: string): map<DateKey, string>
    requires 0 <= m < 12
  {
    var out1 := out[DateKey(y, m, d) := person];
    if d + 1 <= DaysInMonth(y, m) && !Truthy(holidays, DateKey(y, m, d + 1)) then out1[DateKey(y, m, d + 1) := person] else out1
  }

  lemma SaturdayKeys(y: int, m: int, first: int, holidays: map<DateKey, string>, k: int, out: map<DateKey, string>, person: string)
    requires 0 <= m < 12
    requires 0 <= k < DaysInMonth(y, m) && WeekdayAt(first, k + 1) == 6 && !Truthy(holidays, DateKey(y, m, k + 1))
    requires KeysAt(y, m, first, holidays, k, out)
    ensures KeysAt(y, m, first, holidays, k + 1, SaturdayOut(y, m, holidays, k + 1, out, person))
  {
    var d := k + 1;
    WeekdayOfNextDay(first, d);
    KeysGrow(y, m, first, holidays, k, out);
    KeysPut(y, m, first, holidays, k + 1, out, d, person);
    if d + 1 <= DaysInMonth(y, m) && !Truthy(holidays, DateKey(y, m, d + 1)) {
      KeysPut(y, m, first, holidays, k + 1, out[DateKey(y, m, d) := person], d + 1, person);
    }
  }

  lemma SaturdayCovered(y: int, m: int, first: int, holidays: map<DateKey, string>, k: int, out: map<DateKey, string>, person: string)
    requires 0 <= m < 12
    requires 0 <= k < DaysInMonth(y, m) && WeekdayAt(first, k + 1) == 6
    requires CoveredAt(y, m, first, holidays, k, out)
    ensures CoveredAt(y, m, first, holidays, k + 1, SaturdayOut(y, m, holidays, k + 1, out, person))
  {
    var d := k + 1;
    var out1 := out[DateKey(y, m, d) := person];
    CoveredPut(y, m, first, holidays, k, out, d, person);
    if d + 1 <= DaysInMonth(y, m) && !Truthy(holidays, DateKey(y, m, d + 1)) {
      CoveredPut(y, m, first, holidays, k, out1, d + 1, person);
    }
    CoveredGrow(y, m, first, holidays, k, SaturdayOut(y, m, holidays, d, out, person));
  }

  lemma SaturdayValues(y: int, m: int, first: int, staff: seq<string>, holidays: map<DateKey, string>, seed: Cursors, k: int, out: map<DateKey, string>, person: string)
    requires 0 <= m < 12 && |staff| > 0 && InRange(seed, |staff|)
    requires 0 <= k < DaysInMonth(y, m) && WeekdayAt(first, k + 1) == 6 && !Truthy(holidays, DateKey(y, m, k + 1))
    requires DateKey(y, m, k + 2) !in out
    requires ValuesAt(y, m, first, staff, holidays, seed, k, out)
    requires AllNamed(staff) ==> person == Expected(y, m, first, staff, holidays, seed, k + 1)
    ensures ValuesAt(y, m, first, staff, holidays, seed, k + 1, SaturdayOut(y, m, holidays, k + 1, out, person))
  {
    var d := k + 1;
    var out1 := out[DateKey(y, m, d) := person];
    ValuesPut(y, m, first, staff, holidays, seed, k, out, d, person);
    if d + 1 <= DaysInMonth(y, m) && !Truthy(holidays, DateKey(y, m, d + 1)) {
      WeekdayOfNextDay(first, d);
      PairedSundayExpected(y, m, first, staff, holidays, seed, d + 1);
      ValuesPut(y, m, first, staff, holidays, seed, k, out1, d + 1, person);
    }
    ValuesGrow(y, m, first, staff, holidays, seed, k, SaturdayOut(y, m, holidays, d, out, person));
  }

  /** A Saturday takes the weekend person, copies them onto a non-holiday
      Sunday of the same month, and advances the weekend track once. */
  lemma StepSaturday(y: int, m: int, first: int, staff: seq<string>, holidays: map<DateKey, string>, seed: Cursors, k: int, p: Progress)
    requires 0 <= m < 12 && |staff| > 0 && InRange(seed, |staff|) && InRange(p.idx, |staff|)
    requires 0 <= k < DaysInMonth(y, m)
    requires Described(y, m, first, staff, holidays, seed, k, p)
    requires !Truthy(holidays, DateKey(y, m, k + 1)) && !Truthy(p.out, DateKey(y, m, k + 1))
    requires WeekdayAt(first, k + 1) == 6
    ensures Described(y, m, first, staff, holidays, seed, k + 1, Step(y, m, first, staff, holidays, k + 1, p))
  {
    var d, n := k + 1, |staff|;
    var q := Step(y, m, first, staff, holidays, d, p);
    var person := staff[p.idx.weekend];
    assert !PairedSunday(y, m, first, holidays, d);
    assert q.idx == p.idx.(weekend := Advance(p.idx.weekend, n));
    CursorsStep(y, m, first, staff, holidays, seed, k, p.idx, q.idx);
    if AllNamed(staff) {
      TurnValue(y, m, first, staff, holidays, seed, k, p.idx, Weekend);
    }
    assert q.out == SaturdayOut(y, m, holidays, d, p.out, person);
    SaturdayKeys(y, m, first, holidays, k, p.out, person);
    SaturdayCovered(y, m, first, holidays, k, p.out, person);
    KeysBound(y, m, first, holidays, k, p.out);
    SaturdayValues(y, m, first, staff, holidays, seed, k, p.out, person);
  }

  /** Under named staff, a Sunday with no truthy entry was not filled by its
      Saturday, so it is not a paired Sunday. */
  lemma SundayNotPaired(y: int, m: int, first: int, staff: seq<string>, holidays: map<DateKey, string>, seed: Cursors, k: int, out: map<DateKey, string>)
    requires 0 <= m < 12 && |staff| > 0 && InRange(seed, |staff|) && AllNamed(staff)
    requires 0 <= k < DaysInMonth(y, m)
    requires CoveredAt(y, m, first, holidays, k, out) && ValuesAt(y, m, first, staff, holidays, seed, k, out)
    requires !Truthy(out, DateKey(y, m, k + 1))
    ensures !PairedSunday(y, m, first, holidays, k + 1)
  {
    ExpectedNamed(y, m, first, staff, holidays, seed, k + 1);
  }

  /** A Sunday that no Saturday filled takes the weekend person and advances
      the weekend track. */
  lemma StepSunday(y: int, m: int, first: int, staff: seq<string>, holidays: map<DateKey, string>, seed: Cursors, k: int, p: Progress)
    requires 0 <= m < 12 && |staff| > 0 && InRange(seed, |staff|) && InRange(p.idx, |staff|)
    requires 0 <= k < DaysInMonth(y, m)
    requires Described(y, m, first, staff, holidays, seed, k, p)
    requires !Truthy(holidays, DateKey(y, m, k + 1)) && !Truthy(p.out, DateKey(y, m, k + 1))
    requires WeekdayAt(first, k + 1) == 0
    ensures Described(y, m, first, staff, holidays, seed, k + 1, Step(y, m, first, staff, holidays, k + 1, p))
  {
    var d, n := k + 1, |staff|;
    var key := DateKey(y, m, d);
    var q := Step(y, m, first, staff, holidays, d, p);
    var person := staff[p.idx.weekend];
    WeekdayOfNextDay(first, d);
    assert !PairedSunday(y, m, first, holidays, d + 1);
    assert q.out == p.out[key := person];
    assert q.idx == p.idx.(weekend := Advance(p.idx.weekend, n));
    if AllNamed(staff) {
      SundayNotPaired(y, m, first, staff, holidays, seed, k, p.out);
      TurnValue(y, m, first, staff, holidays, seed, k, p.idx, Weekend);
    }
    CursorsStep(y, m, first, staff, holidays, seed, k, p.idx, q.idx);
    KeysGrow(y, m, first, holidays, k, p.out);
    KeysPut(y, m, first, holidays, k + 1, p.out, d, person);
    CoveredPut(y, m, first, holidays, k, p.out, d, person);
    CoveredGrow(y, m, first, holidays, k, q.out);
    KeysBound(y, m, first, holidays, k, p.out);
    ValuesPut(y, m, first, staff, holidays, seed, k, p.out, d, person);
    ValuesGrow(y, m, first, staff, holidays, seed, k, q.out);
  }

  /** One iteration keeps the description, advanced by one day. */
  lemma StepDescribed(y: int, m: int, first: int, staff: seq<string>, holidays: map<DateKey, string>, seed: Cursors, k: int, p: Progress)
    requires 0 <= m < 12 && |staff| > 0 && InRange(seed, |staff|) && InRange(p.idx, |staff|)
    requires 0 <= k < DaysInMonth(y, m)
    requires Described(y, m, first, staff, holidays, seed, k, p)
    ensures Described(y, m, first, staff, holidays, seed, k + 1, Step(y, m, first, staff, holidays, k + 1, p))
  {
    var key := DateKey(y, m, k + 1);
    if Truthy(holidays, key) || Truthy(p.out, key) {
      StepSkip(y, m, first, staff, holidays, seed, k, p);
    } else {
      var w := WeekdayAt(first, k + 1);
      if 1 <= w <= 5 {
        StepWeekday(y, m, first, staff, holidays, seed, k, p);
      } else if w == 6 {
        StepSaturday(y, m, first, staff, holidays, seed, k, p);
      } else {
        StepSunday(y, m, first, staff, holidays, seed, k, p);
      }
    }
  }

  /** The state after days 1..k is as described. */
  lemma {:induction false} PrefixDescribed(y: int, m: int, first: int, staff: seq<string>, holidays: map<DateKey, string>, seed: Cursors, k: int)
    requires 0 <= m < 12 && |staff| > 0 && InRange(seed, |staff|) && 0 <= k <= DaysInMonth(y, m)
    ensures Described(y, m, first, staff, holidays, seed, k, Prefix(y, m, first, staff, holidays, seed, k))
  {
    if k > 0 {
      var p := Prefix(y, m, first, staff, holidays, seed, k - 1);
      PrefixDescribed(y, m, first, staff, holidays, seed, k - 1);
      StepDescribed(y, m, first, staff, holidays, seed, k - 1, p);
      assert Prefix(y, m, first, staff, holidays, seed, k) == Step(y, m, first, staff, holidays, k, p);
    }
  }

  // ---------------------------------------------------------------------------
  // What the generated month looks like.

  lemma TakesTurnCounts(y: int, m: int, first: int, holidays: map<DateKey, string>, cls: DayClass, d: int)
    requires 0 <= m < 12 && 1 <= d && TakesTurn(y, m, first, holidays, cls, d)
    ensures Turns(y, m, first, holidays, cls, d) == Turns(y, m, first, holidays, cls, d - 1) + 1
  {
  }

  lemma {:induction false} TurnsMonotone(y: int, m: int, first: int, holidays: map<DateKey, string>, cls: DayClass, j: int, k: int)
    requires 0 <= m < 12 && j <= k
    ensures Turns(y, m, first, holidays, cls, j) <= Turns(y, m, first, holidays, cls, k)
    decreases k - j
  {
    if j < k {
      TurnsMonotone(y, m, first, holidays, cls, j, k - 1);
    }
  }

  /** The generated month for a given first weekday and seed. */
  function Month(y: int, m: int, first: int, staff: seq<string>, holidays: map<DateKey, string>, seed: Cursors): map<DateKey, string>
    requires 0 <= m < 12 && |staff| > 0 && InRange(seed, |staff|)
  {
    Prefix(y, m, first, staff, holidays, seed, DaysInMonth(y, m)).out
  }

  /** What a generated month holds: every day of the month that is not a
      holiday has an entry, and each day of a tracked class holds its
      expected person. */
  ghost predicate Shaped(y: int, m: int, first: int, staff: seq<string>, holidays: map<DateKey, string>, seed: Cursors, out: map<DateKey, string>)
    requires 0 <= m < 12 && |staff| > 0 && InRange(seed, |staff|)
  {
    forall d {:trigger DateKey(y, m, d) in out} {:trigger out[DateKey(y, m, d)]} :: 1 <= d <= DaysInMonth(y, m) && !Truthy(holidays, DateKey(y, m, d))
      ==> DateKey(y, m, d) in out
          && (Tracked(staff, ClassOf(WeekdayAt(first, d))) ==> out[DateKey(y, m, d)] == Expected(y, m, first, staff, holidays, seed, d))
  }

  lemma MonthShaped(y: int, m: int, first: int, staff: seq<string>, holidays: map<DateKey, string>, seed: Cursors)
    requires 0 <= m < 12 && |staff| > 0 && InRange(seed, |staff|)
    ensures Shaped(y, m, first, staff, holidays, seed, Month(y, m, first, staff, holidays, seed))
  {
    PrefixDescribed(y, m, first, staff, holidays, seed, DaysInMonth(y, m));
  }

  lemma RoundRobinIsMonth(y: int, m: int, staff: seq<string>, holidays: map<DateKey, string>,
                          startMonThu: string, startFri: string, startWeekend: string)
    requires 0 <= m < 12 && |staff| > 0
    ensures RoundRobin(y, m, staff, holidays, startMonThu, startFri, startWeekend)
         == Month(y, m, FirstWeekday(y, m), staff, holidays, SeedCursors(staff, startMonThu, startFri, startWeekend))
  {
  }

  /** The keys of a generated month are exactly its days that are not
      holidays; an empty staff list generates nothing. */
  lemma RoundRobinKeys(y: int, m: int, staff: seq<string>, holidays: map<DateKey, string>,
                       startMonThu: string, startFri: string, startWeekend: string, key: DateKey)
    requires 0 <= m < 12
    ensures key in RoundRobin(y, m, staff, holidays, startMonThu, startFri, startWeekend)
        <==> |staff| > 0 && key.year == y && key.month == m && 1 <= key.day <= DaysInMonth(y, m) && !Truthy(holidays, key)
  {
    if |staff| > 0 {
      var first, seed := FirstWeekday(y, m), SeedCursors(staff, startMonThu, startFri, startWeekend);
      RoundRobinIsMonth(y, m, staff, holidays, startMonThu, startFri, startWeekend);
      PrefixDescribed(y, m, first, staff, holidays, seed, DaysInMonth(y, m));
      assert key.year == y && key.month == m ==> key == DateKey(y, m, key.day);
    }
  }

  /** The turns of one track go round the staff list from its seed: the
      day that takes turn `t` (counting from 0) of class `cls` is given to the
      staff member `t` places after the track's seed cursor, that is
      `staff[(start + t) % n]` (`AdvanceTimesIsOffset`).
      The weekend track is stated for staff lists of non-empty names. */
  lemma MonthTurn(y: int, m: int, first: int, staff: seq<string>, holidays: map<DateKey, string>, seed: Cursors, cls: DayClass, d: int, out: map<DateKey, string>)
    requires 0 <= m < 12 && |staff| > 0 && InRange(seed, |staff|) && 1 <= d <= DaysInMonth(y, m)
    requires TakesTurn(y, m, first, holidays, cls, d) && Tracked(staff, cls)
    requires Shaped(y, m, first, staff, holidays, seed, out)
    ensures DateKey(y, m, d) in out
      && out[DateKey(y, m, d)] == staff[AdvanceTimes(CursorOf(seed, cls), Turns(y, m, first, holidays, cls, d - 1), |staff|)]
  {
  }

  /** The first turn of a track goes to its seed name when the list holds
      it, and to the first staff member otherwise. */
  lemma MonthSeed(y: int, m: int, first: int, staff: seq<string>, holidays: map<DateKey, string>,
                  startMonThu: string, startFri: string, startWeekend: string, cls: DayClass, d: int, out: map<DateKey, string>)
    requires 0 <= m < 12 && |staff| > 0 && 1 <= d <= DaysInMonth(y, m)
    requires TakesTurn(y, m, first, holidays, cls, d) && Tracked(staff, cls)
    requires Turns(y, m, first, holidays, cls, d - 1) == 0
    requires Shaped(y, m, first, staff, holidays, SeedCursors(staff, startMonThu, startFri, startWeekend), out)
    ensures var name := match cls case MonThu => startMonThu case Fri => startFri case Weekend => startWeekend;
      DateKey(y, m, d) in out && out[DateKey(y, m, d)] == if name in staff then name else staff[0]
  {
    var seed := SeedCursors(staff, startMonThu, startFri, startWeekend);
    MonthTurn(y, m, first, staff, holidays, seed, cls, d, out);
  }

  /** Consecutive turns of a track go to consecutive staff members: the
      later one is the list's successor, `(i + 1) % n`, of the earlier. */
  lemma MonthNextTurn(y: int, m: int, first: int, staff: seq<string>, holidays: map<DateKey, string>, seed: Cursors, cls: DayClass, d1: int, d2: int, out: map<DateKey, string>)
    requires 0 <= m < 12 && Distinct(staff) && |staff| > 0 && InRange(seed, |staff|) && 1 <= d1 < d2 <= DaysInMonth(y, m)
    requires TakesTurn(y, m, first, holidays, cls, d1) && TakesTurn(y, m, first, holidays, cls, d2) && Tracked(staff, cls)
    requires Turns(y, m, first, holidays, cls, d2 - 1) == Turns(y, m, first, holidays, cls, d1 - 1) + 1
    requires Shaped(y, m, first, staff, holidays, seed, out)
    ensures DateKey(y, m, d1) in out && DateKey(y, m, d2) in out && out[DateKey(y, m, d1)] in staff
      && out[DateKey(y, m, d2)] == staff[Advance(IndexOf(staff, out[DateKey(y, m, d1)]), |staff|)]
  {
    MonthTurn(y, m, first, staff, holidays, seed, cls, d1, out);
    MonthTurn(y, m, first, staff, holidays, seed, cls, d2, out);
    NextAfter(staff, CursorOf(seed, cls), Turns(y, m, first, holidays, cls, d1 - 1));
  }

  /** Fewer than `n` turns apart, a track never gives two days the same
      person: in any `n` consecutive turns each staff member is used at most
      once (`MonthEveryone` gives at least once). */
  lemma MonthNoRepeat(y: int, m: int, first: int, staff: seq<string>, holidays: map<DateKey, string>, seed: Cursors, cls: DayClass, d1: int, d2: int, out: map<DateKey, string>)
    requires 0 <= m < 12 && Distinct(staff) && |staff| > 0 && InRange(seed, |staff|) && 1 <= d1 < d2 <= DaysInMonth(y, m)
    requires TakesTurn(y, m, first, holidays, cls, d1) && TakesTurn(y, m, first, holidays, cls, d2) && Tracked(staff, cls)
    requires Turns(y, m, first, holidays, cls, d2 - 1) < Turns(y, m, first, holidays, cls, d1 - 1) + |staff|
    requires Shaped(y, m, first, staff, holidays, seed, out)
    ensures DateKey(y, m, d1) in out && DateKey(y, m, d2) in out && out[DateKey(y, m, d1)] != out[DateKey(y, m, d2)]
  {
    var n, s := |staff|, CursorOf(seed, cls);
    var t1, t2 := Turns(y, m, first, holidays, cls, d1 - 1), Turns(y, m, first, holidays, cls, d2 - 1);
    TakesTurnCounts(y, m, first, holidays, cls, d1);
    TurnsMonotone(y, m, first, holidays, cls, d1, d2 - 1);
    MonthTurn(y, m, first, staff, holidays, seed, cls, d1, out);
    MonthTurn(y, m, first, staff, holidays, seed, cls, d2, out);
    NoRevisitWithinCycle(s, t1, t2, n);
  }

  /** Every turn count between those of days `j` and `k` is the count just
      before some day of the range that takes a turn. */
  lemma {:induction false} DayOfTurn(y: int, m: int, first: int, holidays: map<DateKey, string>, cls: DayClass, j: int, k: int, t: int)
    requires 0 <= m < 12 && 0 <= j <= k
    requires Turns(y, m, first, holidays, cls, j) <= t < Turns(y, m, first, holidays, cls, k)
    ensures exists d :: j < d <= k && TakesTurn(y, m, first, holidays, cls, d) && Turns(y, m, first, holidays, cls, d - 1) == t
    decreases k - j
  {
    if t < Turns(y, m, first, holidays, cls, k - 1) {
      DayOfTurn(y, m, first, holidays, cls, j, k - 1, t);
    } else {
      assert TakesTurn(y, m, first, holidays, cls, k);
    }
  }

  /** In any `n` consecutive turns of a track inside the month, every staff
      member is on duty on one of their days; with `MonthNoRepeat`, each is
      on duty exactly once. */
  lemma MonthEveryone(y: int, m: int, first: int, staff: seq<string>, holidays: map<DateKey, string>, seed: Cursors, cls: DayClass, d1: int, out: map<DateKey, string>)
    requires 0 <= m < 12 && |staff| > 0 && InRange(seed, |staff|) && 1 <= d1 <= DaysInMonth(y, m) && Tracked(staff, cls)
    requires Turns(y, m, first, holidays, cls, d1 - 1) + |staff| <= Turns(y, m, first, holidays, cls, DaysInMonth(y, m))
    requires Shaped(y, m, first, staff, holidays, seed, out)
    ensures forall p :: p in staff ==>
      exists d ::
        && d1 <= d <= DaysInMonth(y, m) && TakesTurn(y, m, first, holidays, cls, d)
        && Turns(y, m, first, holidays, cls, d - 1) < Turns(y, m, first, holidays, cls, d1 - 1) + |staff|
        && DateKey(y, m, d) in out && out[DateKey(y, m, d)] == p
  {
    var n, s, t1 := |staff|, CursorOf(seed, cls), Turns(y, m, first, holidays, cls, d1 - 1);
    forall p | p in staff
      ensures exists d ::
        && d1 <= d <= DaysInMonth(y, m) && TakesTurn(y, m, first, holidays, cls, d)
        && Turns(y, m, first, holidays, cls, d - 1) < t1 + n
        && DateKey(y, m, d) in out && out[DateKey(y, m, d)] == p
    {
      var j :| 0 <= j < n && staff[j] == p;
      EveryoneWithinCycle(s, t1, n, j);
      var t: nat :| t1 <= t < t1 + n && AdvanceTimes(s, t, n) == j;
      DayOfTurn(y, m, first, holidays, cls, d1 - 1, DaysInMonth(y, m), t);
      var d :| d1 - 1 < d <= DaysInMonth(y, m) && TakesTurn(y, m, first, holidays, cls, d) && Turns(y, m, first, holidays, cls, d - 1) == t;
      MonthTurn(y, m, first, staff, holidays, seed, cls, d, out);
    }
  }

  /** `n` turns later a track is back at the same person. */
  lemma MonthCycle(y: int, m: int, first: int, staff: seq<string>, holidays: map<DateKey, string>, seed: Cursors, cls: DayClass, d1: int, d2: int, out: map<DateKey, string>)
    requires 0 <= m < 12 && |staff| > 0 && InRange(seed, |staff|) && 1 <= d1 < d2 <= DaysInMonth(y, m)
    requires TakesTurn(y, m, first, holidays, cls, d1) && TakesTurn(y, m, first, holidays, cls, d2) && Tracked(staff, cls)
    requires Turns(y, m, first, holidays, cls, d2 - 1) == Turns(y, m, first, holidays, cls, d1 - 1) + |staff|
    requires Shaped(y, m, first, staff, holidays, seed, out)
    ensures DateKey(y, m, d1) in out && DateKey(y, m, d2) in out && out[DateKey(y, m, d1)] == out[DateKey(y, m, d2)]
  {
    MonthTurn(y, m, first, staff, holidays, seed, cls, d1, out);
    MonthTurn(y, m, first, staff, holidays, seed, cls, d2, out);
    AdvanceTimesPeriodic(CursorOf(seed, cls), Turns(y, m, first, holidays, cls, d1 - 1), |staff|);
  }

  /** A Saturday's person is also on duty the Sunday after it, when that
      Sunday is in the month and neither day is a holiday. */
  lemma MonthWeekendPair(y: int, m: int, first: int, staff: seq<string>, holidays: map<DateKey, string>, seed: Cursors, d: int, out: map<DateKey, string>)
    requires 0 <= m < 12 && |staff| > 0 && InRange(seed, |staff|) && AllNamed(staff) && 1 <= d < DaysInMonth(y, m)
    requires WeekdayAt(first, d) == 6
    requires !Truthy(holidays, DateKey(y, m, d)) && !Truthy(holidays, DateKey(y, m, d + 1))
    requires Shaped(y, m, first, staff, holidays, seed, out)
    ensures DateKey(y, m, d) in out && DateKey(y, m, d + 1) in out && out[DateKey(y, m, d + 1)] == out[DateKey(y, m, d)]
  {
    WeekdayOfNextDay(first, d);
    PairedSundayExpected(y, m, first, staff, holidays, seed, d + 1);
  }

  /** A Saturday and its paired Sunday together take one weekend turn. */
  lemma PairIsOneTurn(y: int, m: int, first: int, holidays: map<DateKey, string>, d: int)
    requires 0 <= m < 12 && 1 <= d && WeekdayAt(first, d) == 6
    requires !Truthy(holidays, DateKey(y, m, d)) && !Truthy(holidays, DateKey(y, m, d + 1))
    ensures Turns(y, m, first, holidays, Weekend, d + 1) == Turns(y, m, first, holidays, Weekend, d - 1) + 1
  {
    WeekdayOfNextDay(first, d);
    assert TakesTurn(y, m, first, holidays, Weekend, d);
    assert !TakesTurn(y, m, first, holidays, Weekend, d + 1);
  }

  /** A Sunday that is not a holiday and whose Saturday is not in the month
      or is a holiday takes a weekend turn of its own. */
  lemma MonthLoneSunday(y: int, m: int, first: int, staff: seq<string>, holidays: map<DateKey, string>, seed: Cursors, d: int, out: map<DateKey, string>)
    requires 0 <= m < 12 && |staff| > 0 && InRange(seed, |staff|) && AllNamed(staff) && 1 <= d <= DaysInMonth(y, m)
    requires WeekdayAt(first, d) == 0 && !Truthy(holidays, DateKey(y, m, d))
    requires d == 1 || Truthy(holidays, DateKey(y, m, d - 1))
    requires Shaped(y, m, first, staff, holidays, seed, out)
    ensures TakesTurn(y, m, first, holidays, Weekend, d)
    ensures DateKey(y, m, d) in out
      && out[DateKey(y, m, d)] == staff[AdvanceTimes(seed.weekend, Turns(y, m, first, holidays, Weekend, d - 1), |staff|)]
  {
    MonthTurn(y, m, first, staff, holidays, seed, Weekend, d, out);
  }
}
