/** The carry-forward planner of `handleCarryOver`: a backward scan over the
    month that finds, per day class, who holds the latest assigned day of
    that class, and `getNext`, which turns each of those names into the seed
    of the next month's run.

    `Latest` is an independent description of "the latest assigned day of a
    class" (a recursive search with its characterising contract); the scan
    is proved to return the names at those days. */
module CarryForward {

  import opened Common
  import opened Calendar
  import opened Rotation
  import opened PrimaryRoster

  /** The `lastStaff` record. */
  datatype LastStaff = LastStaff(monThu: string, fri: string, weekend: string)

  function NameOf(last: LastStaff, cls: DayClass): string
  {
    match cls
    case MonThu => last.monThu
    case Fri => last.fri
    case Weekend => last.weekend
  }

  /** Day `d` holds a (truthy) assignment and belongs to class `cls`. */
  predicate Matches(y: int, m: int, first: int, shifts: map<DateKey, string>, cls: DayClass, d: int)
  {
    Truthy(shifts, DateKey(y, m, d)) && ClassOf(WeekdayAt(first, d)) == cls
  }

  /** The latest matching day in `lo..hi`, or 0 when there is none
      (`LatestIsLatest`). */
  function Latest(y: int, m: int, first: int, shifts: map<DateKey, string>, cls: DayClass, lo: int, hi: int): (r: int)
    requires 1 <= lo
    ensures r == 0 || (lo <= r <= hi && Matches(y, m, first, shifts, cls, r))
    decreases hi - lo
  {
    if hi < lo then 0
    else if Matches(y, m, first, shifts, cls, hi) then hi
    else Latest(y, m, first, shifts, cls, lo, hi - 1)
  }

  /** No day after the one `Latest` returns matches; with a 0 result, no day matches at all. */
  lemma {:induction false} LatestIsLatest(y: int, m: int, first: int, shifts: map<DateKey, string>, cls: DayClass, lo: int, hi: int)
    requires 1 <= lo
    ensures forall d :: lo <= d <= hi && Matches(y, m, first, shifts, cls, d) ==> d <= Latest(y, m, first, shifts, cls, lo, hi)
    decreases hi - lo
  {
    if lo <= hi && !Matches(y, m, first, shifts, cls, hi) {
      LatestIsLatest(y, m, first, shifts, cls, lo, hi - 1);
    }
  }

  /** The name held on the latest matching day of `lo..` the end of the
      month, or `""` when there is none. */
  function LatestName(y: int, m: int, first: int, shifts: map<DateKey, string>, cls: DayClass, lo: int): string
    requires 0 <= m < 12 && 1 <= lo
  {
    var r := Latest(y, m, first, shifts, cls, lo, DaysInMonth(y, m));
    if r == 0 then "" else shifts[DateKey(y, m, r)]
  }

  /** What the scan has found once days `lo..` the end of the month are examined. */
  function ScanFrom(y: int, m: int, first: int, shifts: map<DateKey, string>, lo: int): LastStaff
    requires 0 <= m < 12 && 1 <= lo
  {
    LastStaff(LatestName(y, m, first, shifts, MonThu, lo), LatestName(y, m, first, shifts, Fri, lo),
              LatestName(y, m, first, shifts, Weekend, lo))
  }

  /** What the scan finds for a whole month. */
  function LastOfMonth(y: int, m: int, first: int, shifts: map<DateKey, string>): LastStaff
    requires 0 <= m < 12
  {
    ScanFrom(y, m, first, shifts, 1)
  }

  /** Once a match is found, looking further back does not change the latest one. */
  lemma {:induction false} LatestStable(y: int, m: int, first: int, shifts: map<DateKey, string>, cls: DayClass, lo': int, lo: int, hi: int)
    requires 1 <= lo' <= lo && Latest(y, m, first, shifts, cls, lo, hi) != 0
    ensures Latest(y, m, first, shifts, cls, lo', hi) == Latest(y, m, first, shifts, cls, lo, hi)
    decreases hi - lo
  {
    if !Matches(y, m, first, shifts, cls, hi) {
      LatestStable(y, m, first, shifts, cls, lo', lo, hi - 1);
    }
  }

  /** With no match above `lo`, the latest match from `lo` is `lo` itself or none. */
  lemma {:induction false} LatestStep(y: int, m: int, first: int, shifts: map<DateKey, string>, cls: DayClass, lo: int, hi: int)
    requires 1 <= lo && Latest(y, m, first, shifts, cls, lo + 1, hi) == 0
    ensures Latest(y, m, first, shifts, cls, lo, hi)
         == if lo <= hi && Matches(y, m, first, shifts, cls, lo) then lo else 0
    decreases hi - lo
  {
    if lo < hi {
      LatestStep(y, m, first, shifts, cls, lo, hi - 1);
    }
  }

  /** A found name is a truthy one, so `!lastStaff.x` tests "not found yet". */
  lemma LatestNameFound(y: int, m: int, first: int, shifts: map<DateKey, string>, cls: DayClass, lo: int)
    requires 0 <= m < 12 && 1 <= lo
    ensures LatestName(y, m, first, shifts, cls, lo) != "" <==> Latest(y, m, first, shifts, cls, lo, DaysInMonth(y, m)) != 0
  {
  }

  /** One backward step of the scan for one class: the record keeps its name
      if it has one, and otherwise takes the day's person when it matches. */
  lemma ScanStep(y: int, m: int, first: int, shifts: map<DateKey, string>, cls: DayClass, day: int, w: int, cur: string)
    requires 0 <= m < 12 && 1 <= day <= DaysInMonth(y, m) && w == WeekdayAt(first, day)
    requires cur == LatestName(y, m, first, shifts, cls, day + 1)
    ensures LatestName(y, m, first, shifts, cls, day)
         == if cur == "" && Truthy(shifts, DateKey(y, m, day)) && ClassOf(w) == cls then shifts[DateKey(y, m, day)] else cur
  {
    var dim := DaysInMonth(y, m);
    LatestNameFound(y, m, first, shifts, cls, day + 1);
    if Latest(y, m, first, shifts, cls, day + 1, dim) != 0 {
      LatestStable(y, m, first, shifts, cls, day, day + 1, dim);
    } else {
      LatestStep(y, m, first, shifts, cls, day, dim);
    }
  }

  /** Once every class has a name, the scan can stop: the earlier days
      cannot change any of them. */
  lemma ScanDone(y: int, m: int, first: int, shifts: map<DateKey, string>, day: int)
    requires 0 <= m < 12 && 1 <= day
    requires var last := ScanFrom(y, m, first, shifts, day);
      last.monThu != "" && last.fri != "" && last.weekend != ""
    ensures LastOfMonth(y, m, first, shifts) == ScanFrom(y, m, first, shifts, day)
  {
    var dim := DaysInMonth(y, m);
    LatestNameFound(y, m, first, shifts, MonThu, day);
    LatestNameFound(y, m, first, shifts, Fri, day);
    LatestNameFound(y, m, first, shifts, Weekend, day);
    LatestStable(y, m, first, shifts, MonThu, 1, day, dim);
    LatestStable(y, m, first, shifts, Fri, 1, day, dim);
    LatestStable(y, m, first, shifts, Weekend, 1, day, dim);
  }

  /** The backward scan of `handleCarryOver`, with its early `break`. */
  method LastStaffByClass(year: int, month: int, shifts: map<DateKey, string>) returns (lastStaff: LastStaff)
    requires 0 <= month < 12
    ensures lastStaff == LastOfMonth(year, month, FirstWeekday(year, month), shifts)
  {
    ghost var first := FirstWeekday(year, month);
    lastStaff := LastStaff("", "", "");
    var day := DaysInMonth(year, month);
    while day >= 1
      invariant 0 <= day <= DaysInMonth(year, month)
      invariant lastStaff == ScanFrom(year, month, first, shifts, day + 1)
    {
      var dateStr := DateKey(year, month, day);
      var dayOfWeek := GetDay(year, month, day);
      ScanStep(year, month, first, shifts, MonThu, day, dayOfWeek, lastStaff.monThu);
      ScanStep(year, month, first, shifts, Fri, day, dayOfWeek, lastStaff.fri);
      ScanStep(year, month, first, shifts, Weekend, day, dayOfWeek, lastStaff.weekend);
      if Truthy(shifts, dateStr) {
        var person := shifts[dateStr];
        if lastStaff.monThu == "" && 1 <= dayOfWeek <= 4 {
          lastStaff := lastStaff.(monThu := person);
        }
        if lastStaff.fri == "" && dayOfWeek == 5 {
          lastStaff := lastStaff.(fri := person);
        }
        if lastStaff.weekend == "" && (dayOfWeek == 0 || dayOfWeek == 6) {
          lastStaff := lastStaff.(weekend := person);
        }
      }
      assert lastStaff == ScanFrom(year, month, first, shifts, day);
      if lastStaff.monThu != "" && lastStaff.fri != "" && lastStaff.weekend != "" {
        ScanDone(year, month, first, shifts, day);
        break;
      }
      day := day - 1;
    }
  }

  /** `getNext`: the staff member after `current`, or the first one when
      `current` is empty or not on the list (`""` for an empty list).
      `GetNextIsMod` shows the step is `getNext`'s JavaScript `(index + 1) % length`. */
  function GetNext(staff: seq<string>, current: string): (r: string)
    ensures |staff| > 0 ==> r in staff
    ensures |staff| == 0 ==> r == ""
    ensures current != "" && current in staff ==> r == staff[Advance(IndexOf(staff, current), |staff|)]
  {
    if current == "" || current !in staff then (if |staff| > 0 then staff[0] else "")
    else staff[Advance(IndexOf(staff, current), |staff|)]
  }

  lemma GetNextIsMod(staff: seq<string>, current: string)
    requires current != "" && current in staff
    ensures GetNext(staff, current) == staff[(IndexOf(staff, current) + 1) % |staff|]
  {
    AdvanceIsMod(IndexOf(staff, current), |staff|);
  }

  /** Seeding the generator with `getNext(x)` starts the track one place
      after `x`, and at the start of the list when `x` is empty or unknown. */
  lemma GetNextContinues(staff: seq<string>, x: string)
    requires |staff| > 0
    ensures x == "" || x !in staff ==> StartIndex(staff, GetNext(staff, x)) == 0
    ensures Distinct(staff) && x != "" && x in staff
        ==> StartIndex(staff, GetNext(staff, x)) == Advance(IndexOf(staff, x), |staff|)
  {
    if x == "" || x !in staff {
      assert IndexOf(staff, staff[0]) == 0;
    } else if Distinct(staff) {
      IndexOfDistinct(staff, Advance(IndexOf(staff, x), |staff|));
    }
  }

  /** The seeds `handleCarryOver` passes on for the next month. */
  function CarrySeeds(staff: seq<string>, last: LastStaff): (seeds: LastStaff)
    ensures |staff| > 0 ==> seeds.monThu in staff && seeds.fri in staff && seeds.weekend in staff
  {
    LastStaff(GetNext(staff, last.monThu), GetNext(staff, last.fri), GetNext(staff, last.weekend))
  }

  /** The next month's track of each class starts right after the person
      on that class's latest assigned day of this month; with no such day,
      or when that person is no longer on the list, it starts at the first
      staff member. */
  lemma CarryOverContinues(y: int, m: int, first: int, staff: seq<string>, shifts: map<DateKey, string>, cls: DayClass)
    requires 0 <= m < 12 && |staff| > 0 && Distinct(staff)
    ensures var seeds := CarrySeeds(staff, LastOfMonth(y, m, first, shifts));
      var start := CursorOf(SeedCursors(staff, seeds.monThu, seeds.fri, seeds.weekend), cls);
      var name := LatestName(y, m, first, shifts, cls, 1);
      && (name == "" || name !in staff ==> start == 0)
      && (name != "" && name in staff ==> start == Advance(IndexOf(staff, name), |staff|))
  {
    GetNextContinues(staff, LatestName(y, m, first, shifts, cls, 1));
  }
}
