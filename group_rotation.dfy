/** The anchored group rotation of the secondary schedule: each weekend is
    given to one of `groupDefinitions`, counted in whole weeks from an
    anchor Saturday whose group is known, and written only where the map
    has no entry yet. */
module GroupRotation {

  import opened Common
  import opened Calendar
  import opened Rotation

  /** A `groupDefinitions` entry (its display colour is not modelled). */
  datatype Group = Group(name: string, members: seq<string>)

  /** `anchor`: the date whose weekend belongs to the named group. */
  datatype Anchor = Anchor(date: DateKey, groupName: string)

  /** JavaScript's quotient and `%` for a positive divisor: both truncate
      toward zero, so the remainder has the sign of the dividend. */
  function JsQuot(a: int, n: int): int
    requires n > 0
  {
    if a >= 0 then a / n else -((-a) / n)
  }

  function JsRem(a: int, n: int): (r: int)
    requires n > 0
    ensures -n < r < n
    ensures a >= 0 ==> r >= 0
    ensures a <= 0 ==> r <= 0
    ensures a == JsQuot(a, n) * n + r
  {
    if a >= 0 then a % n else -((-a) % n)
  }

  /** `Math.round(days / 7)`: the nearest whole number of weeks. Seven is
      odd, so `days / 7` is never exactly halfway between two integers and
      the contract pins the result down. */
  function RoundWeeks(days: int): (r: int)
    ensures 7 * r - 3 <= days <= 7 * r + 3
  {
    (2 * days + 7) / 14
  }

  /** Nearest whole weeks is unique. */
  lemma RoundWeeksUnique(days: int, r: int)
    requires 7 * r - 3 <= days <= 7 * r + 3
    ensures RoundWeeks(days) == r
  {
  }

  /** A week later is one more week. */
  lemma RoundWeeksNext(days: int)
    ensures RoundWeeks(days + 7) == RoundWeeks(days) + 1
  {
    RoundWeeksUnique(days + 7, RoundWeeks(days) + 1);
  }

  /** `(anchorGroupIndex + diffInWeeks % N + N) % N`. The dividend is never
      negative, so JavaScript's `%` and Dafny's agree on the outer one. */
  function GroupIndex(a: int, w: int, n: int): (r: int)
    requires n > 0 && -1 <= a < n
    ensures 0 <= r < n
  {
    (a + JsRem(w, n) + n) % n
  }

  /** The group index is the anchor's index moved `w` places round, whatever
      the sign of `w`. */
  lemma GroupIndexIsMod(a: int, w: int, n: int)
    requires n > 0 && -1 <= a < n
    ensures GroupIndex(a, w, n) == (a + w) % n
  {
    var q := JsQuot(w, n);
    assert a + JsRem(w, n) + n == (a + w) + (1 - q) * n by {
      assert (1 - q) * n == n - q * n;
    }
    ModAddMultiple(a + w, 1 - q, n);
  }

  /** Consecutive weeks go to consecutive groups, cyclically. */
  lemma GroupIndexNextWeek(a: int, w: int, n: int)
    requires n > 0 && -1 <= a < n
    ensures GroupIndex(a, w + 1, n) == Advance(GroupIndex(a, w, n), n)
  {
    GroupIndexIsMod(a, w, n);
    GroupIndexIsMod(a, w + 1, n);
    ModSucc(a + w, n, GroupIndex(a, w, n));
    AdvanceIsMod(GroupIndex(a, w, n), n);
  }

  /** `groupDefinitions.findIndex(g => g.name === name)`. */
  function FindGroup(groups: seq<Group>, name: string): (r: int)
    ensures -1 <= r < |groups|
    ensures r == -1 <==> forall j :: 0 <= j < |groups| ==> groups[j].name != name
    ensures 0 <= r ==> groups[r].name == name && forall j :: 0 <= j < r ==> groups[j].name != name
  {
    if |groups| == 0 then -1
    else if groups[0].name == name then 0
    else
      var i := FindGroup(groups[1..], name);
      assert forall j :: 1 <= j < |groups| ==> groups[j] == groups[1..][j - 1];
      if i == -1 then -1 else i + 1
  }

  predicate IsWeekendDay(w: int)
  {
    w == 6 || w == 0
  }

  /** The Saturday of a weekend day: a Sunday steps back one day. */
  function SaturdayOf(dn: int, w: int): int
  {
    if w == 0 then dn - 1 else dn
  }

  /** The group of the weekend whose Saturday has day number `sat`. */
  function GroupFor(groups: seq<Group>, a: int, anchorDay: int, sat: int): string
    requires |groups| > 0 && -1 <= a < |groups|
  {
    groups[GroupIndex(a, RoundWeeks(sat - anchorDay), |groups|)].name
  }

  /** Lines computing the group of the weekend whose Saturday is `saturday`:
      the anchor's index, the rounded week difference and the wrapped index. */
  method WeekendGroup(groups: seq<Group>, anchor: Anchor, saturday: int) returns (name: string)
    requires |groups| > 0 && 0 <= anchor.date.month < 12
    ensures name == GroupFor(groups, FindGroup(groups, anchor.groupName), DayNumber(anchor.date), saturday)
  {
    var anchorGroupIndex := FindGroup(groups, anchor.groupName);
    var anchorDate := DayNumber(anchor.date);
    var diffInWeeks := RoundWeeks(saturday - anchorDate);
    var n := |groups|;
    var groupIndex := (anchorGroupIndex + JsRem(diffInWeeks, n) + n) % n;
    name := groups[groupIndex].name;
  }

  /** The name written on day `d` of the month whose first day has day
      number `base` and weekday `first`. */
  function NameOn(first: int, base: int, groups: seq<Group>, a: int, anchorDay: int, d: int): string
    requires |groups| > 0 && -1 <= a < |groups|
  {
    GroupFor(groups, a, anchorDay, SaturdayOf(base + d - 1, WeekdayAt(first, d)))
  }

  /** Key `key` is a weekend day among the first `k` days of the month with
      no truthy entry in `prior`: one the rotation writes. */
  predicate Fresh(y: int, m: int, first: int, prior: map<DateKey, string>, k: int, key: DateKey)
  {
    key.year == y && key.month == m && 1 <= key.day <= k
    && IsWeekendDay(WeekdayAt(first, key.day)) && !Truthy(prior, key)
  }

  /** The map after the loop has handled days `1..k`, each day tested
      against the map as it was before the loop. */
  function Fill(y: int, m: int, first: int, base: int, groups: seq<Group>, a: int, anchorDay: int,
                prior: map<DateKey, string>, k: int): map<DateKey, string>
    requires |groups| > 0 && -1 <= a < |groups|
    decreases k
  {
    if k <= 0 then prior
    else
      var prev := Fill(y, m, first, base, groups, a, anchorDay, prior, k - 1);
      if IsWeekendDay(WeekdayAt(first, k)) && !Truthy(prior, DateKey(y, m, k))
      then prev[DateKey(y, m, k) := NameOn(first, base, groups, a, anchorDay, k)]
      else prev
  }

  /** One more day of the fill: the day's entry is tested in the map so
      far, which agrees with `prior` there. */
  lemma FillNext(y: int, m: int, first: int, base: int, groups: seq<Group>, a: int, anchorDay: int,
                 prior: map<DateKey, string>, k: int)
    requires |groups| > 0 && -1 <= a < |groups| && 1 <= k
    ensures var prev := Fill(y, m, first, base, groups, a, anchorDay, prior, k - 1);
      var key := DateKey(y, m, k);
      Fill(y, m, first, base, groups, a, anchorDay, prior, k)
        == if IsWeekendDay(WeekdayAt(first, k)) && !Truthy(prev, key)
           then prev[key := NameOn(first, base, groups, a, anchorDay, k)] else prev
  {
    FillSpec(y, m, first, base, groups, a, anchorDay, prior, k - 1, DateKey(y, m, k));
  }

  /** Closed form of `Fill`, key by key: the fresh weekend days get their
      group, every other key keeps its presence and its value. */
  lemma {:induction false} FillSpec(y: int, m: int, first: int, base: int, groups: seq<Group>, a: int, anchorDay: int,
                                    prior: map<DateKey, string>, k: int, key: DateKey)
    requires |groups| > 0 && -1 <= a < |groups| && 0 <= k
    ensures var f := Fill(y, m, first, base, groups, a, anchorDay, prior, k);
      && (key in f <==> key in prior || Fresh(y, m, first, prior, k, key))
      && (Fresh(y, m, first, prior, k, key) ==> f[key] == NameOn(first, base, groups, a, anchorDay, key.day))
      && (!Fresh(y, m, first, prior, k, key) && key in prior ==> f[key] == prior[key])
    decreases k
  {
    if k > 0 {
      FillSpec(y, m, first, base, groups, a, anchorDay, prior, k - 1, key);
    }
  }

  /** What `ensureSecondaryScheduleForMonth` leaves in the map: unchanged
      without groups, otherwise the whole month filled. */
  function MonthFill(y: int, m: int, groups: seq<Group>, anchor: Anchor, prior: map<DateKey, string>): map<DateKey, string>
    requires 0 <= m < 12 && 0 <= anchor.date.month < 12
  {
    if |groups| == 0 then prior
    else Fill(y, m, FirstWeekday(y, m), DayNumber(DateKey(y, m, 1)), groups, FindGroup(groups, anchor.groupName),
              DayNumber(anchor.date), prior, DaysInMonth(y, m))
  }

  /** Filling a second time changes nothing. */
  lemma FillIdempotent(y: int, m: int, first: int, base: int, groups: seq<Group>, a: int, anchorDay: int,
                       prior: map<DateKey, string>, k: int)
    requires |groups| > 0 && -1 <= a < |groups| && 0 <= k
    ensures var f := Fill(y, m, first, base, groups, a, anchorDay, prior, k);
      Fill(y, m, first, base, groups, a, anchorDay, f, k) == f
  {
    var f := Fill(y, m, first, base, groups, a, anchorDay, prior, k);
    var g := Fill(y, m, first, base, groups, a, anchorDay, f, k);
    forall key | key in f || key in g
      ensures key in f && key in g && g[key] == f[key]
    {
      FillSpec(y, m, first, base, groups, a, anchorDay, prior, k, key);
      FillSpec(y, m, first, base, groups, a, anchorDay, f, k, key);
    }
  }

  /** After the fill, every weekend day of the month has an entry. */
  lemma FillCovers(y: int, m: int, first: int, base: int, groups: seq<Group>, a: int, anchorDay: int,
                   prior: map<DateKey, string>, k: int, d: int)
    requires |groups| > 0 && -1 <= a < |groups| && 1 <= d <= k
    requires IsWeekendDay(WeekdayAt(first, d))
    ensures DateKey(y, m, d) in Fill(y, m, first, base, groups, a, anchorDay, prior, k)
  {
    FillSpec(y, m, first, base, groups, a, anchorDay, prior, k, DateKey(y, m, d));
  }

  /** A Sunday is given the group of the Saturday before it. */
  lemma SundayFollowsSaturday(first: int, base: int, groups: seq<Group>, a: int, anchorDay: int, d: int)
    requires |groups| > 0 && -1 <= a < |groups| && 0 <= first < 7 && 2 <= d
    requires WeekdayAt(first, d) == 0
    ensures WeekdayAt(first, d - 1) == 6
    ensures NameOn(first, base, groups, a, anchorDay, d) == NameOn(first, base, groups, a, anchorDay, d - 1)
  {
    ModSucc(first + d - 2, 7, WeekdayAt(first, d - 1));
  }

  /** In the map: when both days of a weekend are written by the fill, they
      carry the same group. */
  lemma FillPairsWeekend(y: int, m: int, first: int, base: int, groups: seq<Group>, a: int, anchorDay: int,
                         prior: map<DateKey, string>, k: int, d: int)
    requires |groups| > 0 && -1 <= a < |groups| && 0 <= first < 7 && 2 <= d <= k
    requires WeekdayAt(first, d) == 0
    requires !Truthy(prior, DateKey(y, m, d)) && !Truthy(prior, DateKey(y, m, d - 1))
    ensures var f := Fill(y, m, first, base, groups, a, anchorDay, prior, k);
      DateKey(y, m, d) in f && DateKey(y, m, d - 1) in f && f[DateKey(y, m, d)] == f[DateKey(y, m, d - 1)]
  {
    SundayFollowsSaturday(first, base, groups, a, anchorDay, d);
    FillSpec(y, m, first, base, groups, a, anchorDay, prior, k, DateKey(y, m, d));
    FillSpec(y, m, first, base, groups, a, anchorDay, prior, k, DateKey(y, m, d - 1));
  }

  /** The next weekend goes to the next group in the list, cyclically. */
  lemma NextWeekendNextGroup(groups: seq<Group>, a: int, anchorDay: int, sat: int)
    requires |groups| > 0 && -1 <= a < |groups|
    ensures var n := |groups|;
      var i := GroupIndex(a, RoundWeeks(sat - anchorDay), n);
      GroupFor(groups, a, anchorDay, sat + 7) == groups[Advance(i, n)].name
  {
    RoundWeeksNext(sat - anchorDay);
    GroupIndexNextWeek(a, RoundWeeks(sat - anchorDay), |groups|);
  }

  /** The anchor weekend itself gets the anchor group when that group is
      defined, and the week before the anchor when it is not. */
  lemma AnchorWeekendIsAnchorGroup(groups: seq<Group>, anchor: Anchor)
    requires |groups| > 0 && 0 <= anchor.date.month < 12
    ensures var a := FindGroup(groups, anchor.groupName);
      var anchorDay := DayNumber(anchor.date);
      && (a >= 0 ==> GroupFor(groups, a, anchorDay, anchorDay) == anchor.groupName)
      && (a == -1 ==> GroupFor(groups, a, anchorDay, anchorDay) == groups[|groups| - 1].name)
  {
    var a := FindGroup(groups, anchor.groupName);
    GroupIndexIsMod(a, 0, |groups|);
    if a >= 0 {
      ModUnique(a, |groups|, 0, a);
    } else {
      ModUnique(-1, |groups|, -1, |groups| - 1);
    }
  }

  /** The built-in groups and anchor. */
  function DefaultGroups(): seq<Group>
  {
    [Group("A", ["劉學翰", "廖志龍"]), Group("B", ["張靖興", "劉學翰"]), Group("C", ["廖志龍", "張靖興"])]
  }

  function DefaultAnchor(): Anchor
  {
    Anchor(DateKey(2025, 4, 31), "B")
  }

  /** The built-in groups: with the anchor weekend belonging to B, the week
      after belongs to C and the week before to A. */
  lemma DefaultGroupsAroundAnchor(anchorDay: int)
    ensures var groups := DefaultGroups();
      && FindGroup(groups, "B") == 1
      && GroupFor(groups, 1, anchorDay, anchorDay + 7) == "C"
      && GroupFor(groups, 1, anchorDay, anchorDay - 7) == "A"
  {
    var groups := DefaultGroups();
    assert groups[1].name == "B" && groups[0].name != "B";
    assert RoundWeeks(7) == 1 && RoundWeeks(-7) == -1;
    assert JsRem(1, 3) == 1 && JsRem(-1, 3) == -1;
  }

  /** The calendar around the built-in anchor Saturday 2025-05-31. */
  lemma DefaultAnchorCalendar()
    ensures DayNumber(DateKey(2025, 5, 1)) == DayNumber(DateKey(2025, 4, 31)) + 1
    ensures DayNumber(DateKey(2025, 4, 1)) == DayNumber(DateKey(2025, 4, 31)) - 30
    ensures FirstWeekday(2025, 5) == 0 && FirstWeekday(2025, 4) == 4
  {
    KnownWeekdays();
  }

  /** The first weekend of a month starting on a Sunday the day after the
      anchor Saturday: the 7th and 8th go to the group after the anchor's. */
  lemma FillAfterAnchor(y: int, m: int, base: int, anchorDay: int, k: int)
    requires base == anchorDay + 1 && 8 <= k
    ensures var groups := DefaultGroups();
      var f := Fill(y, m, 0, base, groups, 1, anchorDay, map[], k);
      && DateKey(y, m, 7) in f && f[DateKey(y, m, 7)] == "C"
      && DateKey(y, m, 8) in f && f[DateKey(y, m, 8)] == "C"
  {
    var groups := DefaultGroups();
    DefaultGroupsAroundAnchor(anchorDay);
    assert WeekdayAt(0, 7) == 6 && WeekdayAt(0, 8) == 0;
    FillSpec(y, m, 0, base, groups, 1, anchorDay, map[], k, DateKey(y, m, 7));
    FillSpec(y, m, 0, base, groups, 1, anchorDay, map[], k, DateKey(y, m, 8));
  }

  /** The 24th of a month starting on a Thursday 30 days before the anchor
      Saturday goes to the group before the anchor's. */
  lemma FillBeforeAnchor(y: int, m: int, base: int, anchorDay: int, k: int)
    requires base == anchorDay - 30 && 24 <= k
    ensures var groups := DefaultGroups();
      var f := Fill(y, m, 4, base, groups, 1, anchorDay, map[], k);
      DateKey(y, m, 24) in f && f[DateKey(y, m, 24)] == "A"
  {
    var groups := DefaultGroups();
    DefaultGroupsAroundAnchor(anchorDay);
    assert WeekdayAt(4, 24) == 6;
    FillSpec(y, m, 4, base, groups, 1, anchorDay, map[], k, DateKey(y, m, 24));
  }

  /** With groups A, B, C and the weekend of Saturday 2025-05-31 belonging
      to B, filling an empty June 2025 gives the next weekend (2025-06-07
      and 2025-06-08) to C, and filling an empty May 2025 gives the weekend
      before (2025-05-24) to A. */
  lemma DefaultAnchorExample()
    ensures var groups := DefaultGroups();
      var anchor := DefaultAnchor();
      var june := MonthFill(2025, 5, groups, anchor, map[]);
      var may := MonthFill(2025, 4, groups, anchor, map[]);
      && DateKey(2025, 5, 7) in june && june[DateKey(2025, 5, 7)] == "C"
      && DateKey(2025, 5, 8) in june && june[DateKey(2025, 5, 8)] == "C"
      && DateKey(2025, 4, 24) in may && may[DateKey(2025, 4, 24)] == "A"
  {
    var anchorDay := DayNumber(DateKey(2025, 4, 31));
    DefaultGroupsAroundAnchor(anchorDay);
    DefaultAnchorCalendar();
    FillAfterAnchor(2025, 5, DayNumber(DateKey(2025, 5, 1)), anchorDay, 30);
    FillBeforeAnchor(2025, 4, DayNumber(DateKey(2025, 4, 1)), anchorDay, 31);
  }
}
