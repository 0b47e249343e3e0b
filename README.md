# ShiftTool scheduling engine, modelled in Dafny

`ShiftTool` is a browser duty-roster tool. This project models its
scheduling engine, which keeps three rosters over calendar dates:

- **The primary roster** (`generateBasicRoundRobin`). It goes through the
  days of a month with three cursors into the staff list: Monday–Thursday,
  Friday, and Saturday/Sunday.
  - A holiday or an already-filled day is skipped, and no cursor moves.
  - A Saturday's person is copied onto the following Sunday when that
    Sunday is in the month and is not a holiday.
  - After each assignment, the cursor that was used moves on by
    `(c + 1) % n`.
- **Carry-over** (`handleCarryOver`). It scans the current month
  backwards and finds who holds the latest assigned day of each day
  class. It then moves to the next month, clears it, and regenerates it.
  Each track is seeded with `getNext` of the person found for it (that
  person's successor in the list).
- **The secondary roster** (`ensureSecondaryScheduleForMonth`). Each
  weekend day without an entry is given to one of the groups, counted in
  rounded whole weeks from an anchor Saturday whose group is known. A
  Sunday counts from its own Saturday.
- **The sentry roster** (`recalculateSentryIfNeeded`). This is a day-level
  state machine over `(currentDate, currentTimeSlot)`.
  - Each step writes the slot, then advances one day, or two days after
    the reset slot.
  - The next slot is the restart slot after a reset, and otherwise the
    next slot in the cycle.
- **Purges.** Clearing a month, removing a staff member, and regenerating
  a month all delete entries whose key starts with the month prefix
  `YYYY-MM`. Removing a staff member deletes only that person's entries.

The modules follow that structure:

- `Common`: options, JavaScript truthiness of a map entry, and residue
  facts.
- `Calendar`: an abstract proleptic-Gregorian calendar with day numbers
  and weekdays. It replaces JavaScript `Date`.
- `DateFormat`: the `YYYY-MM-DD` text of a date and the `startsWith`
  month test.
- `Rotation`: list lookup and cyclic cursors.
- `PrimaryRoster`: the generator loop, its step function, and an
  independent closed-form description of who is on duty each day.
- `CarryForward`: the backward scan and `getNext`.
- `GroupRotation`: the anchored weekend rotation.
- `Sentry`: the slot state machine.
- `Engine`: the `ShiftTool` class, whose fields are the tool's state and
  whose methods update them in place.

Every loop of the scheduling engine is a method with a `while` loop. Each method is
proved against a function of its inputs, and the properties are proved
as lemmas about those functions.

Where app.js and the tool's intended behaviour disagree, the model
follows app.js:

- **Unknown anchor group.** If the anchor's group name is not among the
  groups, `findIndex` returns -1 and the rotation still computes an index.
  The anchor weekend then goes to the last group
  (`AnchorWeekendIsAnchorGroup`). The intended behaviour is that generation
  refuses an unknown anchor group.
- **Empty staff list.** Two entry points refuse an empty staff list:
  carry-over, and `handleAutoScheduleTrigger` (app.js:552), which refuses
  before it opens the dialog that leads to `proceedWithAutoSchedule`
  (app.js:566). `ProceedWithAutoSchedule` models only the confirmed step,
  so it accepts an empty list. `generateBasicRoundRobin` itself does not
  refuse: it returns an empty map.
- **Falsy weekend entries.** The secondary rotation writes a weekend entry
  that is absent or empty (falsy), not only an absent one.
- **Manual holiday entries.** Regenerating a month deletes every entry of
  that month first, including manual entries on holidays (`MergeSpec`).
  The intended behaviour is that such entries are kept.
- **Cursors after removal.** Removing a staff member keeps no cursors
  (the intended behaviour clamps them). The generator recomputes cursors
  from seed names on every run.
- **Group index formula.** The code computes the group index as
  `(a + w % N + N) % N` with JavaScript's truncating `%`. The intended
  formula is `((a + w) mod N + N) mod N`. `GroupIndexIsMod` proves that both
  give the same index.

## Model

| member | source | states |
|---|---|---|
| PrimaryRoster.GenerateBasicRoundRobin | app.js:582-601 | the loop returns exactly `RoundRobin` of the month, staff, holidays and seeds; an empty staff list gives the empty map |
| PrimaryRoster.AssignDay | app.js:594-598 | on a day that is neither taken nor a holiday, the branch on the weekday writes the person under that class's cursor (a Saturday also on its Sunday) and advances only that cursor |
| PrimaryRoster.Step | app.js:593-598 | one day of the loop keeps every cursor inside `[0, n)` |
| PrimaryRoster.StepSkipped | app.js:593 | a taken day or a holiday changes neither the map nor any cursor |
| PrimaryRoster.SeedCursors | app.js:586-590 | the three seed cursors lie inside the staff list |
| Rotation.StartIndex | app.js:587-589 | a seed name on the list selects its position, and an unknown name selects 0 |
| Rotation.IndexOf | app.js:587 | `indexOf`: -1 exactly when the name is absent, otherwise the first position holding it |
| Rotation.AdvanceIsMod | app.js:595-598 | one cursor step is `(c + 1) % n` |
| Rotation.AdvanceTimesIsOffset | app.js:595-598 | `k` cursor steps from `c` reach `(c + k) % n` |
| Rotation.CyclicClosure | app.js:595-598 | `n` steps bring a cursor back to where it started |
| Rotation.EveryoneWithinCycle | app.js:595-598 | any `n` consecutive steps of a cursor reach every position of the list |
| PrimaryRoster.NextIndex | app.js:595 | the cursor update `(i + 1) % n` is one `Advance` |
| PrimaryRoster.GetDay | app.js:594 | the weekday of day `d` is the month's first weekday plus `d - 1`, modulo 7 |
| PrimaryRoster.PrefixDescribed | app.js:591-599 | after days `1..k`: each cursor has advanced once per turn of its class; the keys are the non-holiday days up to `k` (plus a paired Sunday `k + 1`); each entry holds its expected person |
| PrimaryRoster.RoundRobinKeys | app.js:584-599 | a key is generated exactly when it is a day of the target month that is not a holiday and the staff list is non-empty |
| PrimaryRoster.MonthShaped | app.js:591-599 | every non-holiday day of the generated month has an entry holding the person its class's cursor reaches after the turns before it |
| PrimaryRoster.MonthTurn | app.js:595-598 | turn `t` of a track goes to the staff member `t` places after the track's seed cursor |
| PrimaryRoster.MonthSeed | app.js:586-598 | a track's first turn goes to its seed name when the list holds it, and to the first staff member otherwise |
| PrimaryRoster.MonthNextTurn | app.js:595-598 | consecutive turns of a track go to list successors, `staff[(indexOf(prev) + 1) % n]` |
| PrimaryRoster.MonthNoRepeat | app.js:595-596 | within `n` consecutive turns of a track no person is used twice: each staff member at most once |
| PrimaryRoster.MonthEveryone | app.js:595-598 | within `n` consecutive turns of a track inside the month every staff member is on duty on one of their days, so with `MonthNoRepeat` each exactly once |
| PrimaryRoster.MonthCycle | app.js:595-598 | `n` turns later a track is back at the same person |
| PrimaryRoster.MonthWeekendPair | app.js:597 | a Saturday's person also holds the following Sunday when that Sunday is in the month and neither day is a holiday |
| PrimaryRoster.PairIsOneTurn | app.js:597-598 | such a Saturday and Sunday together take one weekend turn |
| PrimaryRoster.MonthLoneSunday | app.js:598 | a non-holiday Sunday with no Saturday before it in the month, or after a holiday Saturday, takes a weekend turn of its own |
| PrimaryRoster.TurnsMonotone | app.js:595-598 | the number of turns a track has taken never decreases along the month |
| Calendar.DaysInMonth | app.js:585 | a month has between 28 and 31 days |
| Calendar.WeekdayFromFirst | app.js:594 | within a month, weekdays follow on from the first day's |
| Calendar.MonthsTile | app.js:621 | the day after a month's last day is the first day of the next month, across year ends too |
| Calendar.NextMonth | app.js:621 | the month after `(y, m)` is `12 * y + m + 1` counted in months |
| Calendar.YearStep | app.js:585 | consecutive new-year days are one year length apart |
| Calendar.KnownWeekdays | app.js:594 | 1970-01-01 is a Thursday, 2025-05-31 a Saturday and 2025-06-01 a Sunday |
| Calendar.DayNumberOrdered | app.js:717-719 | a date in a later year, or in a later month of the same year, has a larger day number |
| Calendar.DayNumberInjective | app.js:717-718 | distinct valid dates have distinct day numbers, so keying the sentry map by day number loses no entry |
| CarryForward.LastStaffByClass | app.js:608-619 | the backward scan with its early `break` returns, for each day class, the person on the latest truthy day of that class (or `""` when there is none) |
| CarryForward.Latest | app.js:609-617 | a recursive search returns 0 or a matching day inside the range |
| CarryForward.LatestIsLatest | app.js:609-617 | no matching day lies after the one `Latest` returns |
| CarryForward.ScanStep | app.js:613-616 | one backward step keeps a name already found, and otherwise takes the day's person when the day matches the class |
| CarryForward.ScanDone | app.js:618 | once all three classes have a name, scanning earlier days changes none of them, so the `break` is sound |
| CarryForward.GetNext | app.js:620 | `getNext` returns a member of a non-empty list, `""` for an empty list, and the successor of a name on the list |
| CarryForward.GetNextIsMod | app.js:620 | the successor is `staff[(indexOf(current) + 1) % n]` |
| CarryForward.GetNextContinues | app.js:620-626 | seeding with `getNext(x)` starts the track one place after `x`, and at position 0 when `x` is empty or unknown |
| CarryForward.CarrySeeds | app.js:626 | the three carried seeds are names on a non-empty list |
| CarryForward.CarryOverContinues | app.js:609-626 | each track of the next month starts right after the person on that class's latest assigned day this month, and at the first staff member when there is no such day or that person has left |
| GroupRotation.JsRem | app.js:702 | JavaScript's `%` keeps the dividend's sign, and quotient times divisor plus remainder gives back the dividend |
| GroupRotation.RoundWeeks | app.js:701 | `Math.round(days / 7)` is the week count within 3 days of `days` |
| GroupRotation.RoundWeeksNext | app.js:701 | a Saturday one week later is one more week from the anchor |
| GroupRotation.GroupIndex | app.js:702 | the computed group index lies in `[0, N)` |
| GroupRotation.GroupIndexIsMod | app.js:702 | the index is `(anchorIndex + diffInWeeks) mod N` for negative week counts too |
| GroupRotation.GroupIndexNextWeek | app.js:702 | the next week's index is the cyclic successor of this week's |
| GroupRotation.FindGroup | app.js:699 | `findIndex` returns -1 exactly when no group has the name, otherwise the first group that has it |
| GroupRotation.WeekendGroup | app.js:699-703 | the computed name is the group of the weekend whose Saturday is given, counted from the anchor |
| GroupRotation.FillNext | app.js:696 | testing each day in the map being filled agrees with testing it in the map before the loop |
| GroupRotation.FillSpec | app.js:692-705 | after the fill, a key is present exactly when it was before or is a weekend day of the month with no truthy entry; new keys hold their weekend's group and old keys keep their values |
| GroupRotation.FillIdempotent | app.js:696 | filling a second time changes nothing |
| GroupRotation.FillCovers | app.js:692-705 | every weekend day of the month has an entry after the fill |
| GroupRotation.SundayFollowsSaturday | app.js:698 | a Sunday gets the group of the Saturday before it |
| GroupRotation.FillPairsWeekend | app.js:696-703 | when the fill writes both days of a weekend they hold the same group |
| GroupRotation.NextWeekendNextGroup | app.js:701-702 | the next weekend goes to the next group in the list, cyclically |
| GroupRotation.AnchorWeekendIsAnchorGroup | app.js:699-702 | the anchor weekend gets the anchor's group, or the last group when the anchor's name is unknown |
| GroupRotation.DefaultGroupsAroundAnchor | app.js:142-147 | with the built-in groups A, B, C and anchor group B, the week after belongs to C and the week before to A |
| GroupRotation.DefaultAnchorCalendar | app.js:147 | the built-in anchor 2025-05-31 is the day before 2025-06-01, a Sunday, and 30 days after the Thursday 2025-05-01 |
| GroupRotation.DefaultAnchorExample | app.js:142-147 | filling empty maps for June and May 2025 gives 2025-06-07 and 2025-06-08 to C and 2025-05-24 to A |
| Sentry.InCycle | app.js:720-721 | the next slot in the cycle is a slot on the list |
| Sentry.InCycleIsMod | app.js:720 | it is `timeSlots[(indexOf(slot) + 1) % length]` |
| Sentry.InCycleOrder | app.js:720 | an unknown slot is followed by the first slot; on a list without repeats, a known slot is followed by the next position, cyclically |
| Sentry.Gap | app.js:719 | the date advances by two days exactly after the reset slot, otherwise by one |
| Sentry.NextSlot | app.js:721 | the slot after one that is not the reset slot is on the list |
| Sentry.ScheduleBounds | app.js:716-718 | every key lies between the seed day and the horizon, and the seed day holds the seed slot |
| Sentry.ScheduleStep | app.js:718-721 | each entry's successor lies `Gap` days later and holds `NextSlot`; the day after a reset has no entry |
| Sentry.ScheduleGaps | app.js:719 | the only days without an entry between the seed and the horizon are those right after a reset |
| Sentry.ScheduleWrite | app.js:716-721 | one loop step keeps the union of what is written and what is still to come unchanged |
| Sentry.RunThroughReset | app.js:716-721 | three slots in a row ending at the reset slot give three entries, a rest day, then the restart slot |
| Sentry.DefaultCycleStart | app.js:154 | in the built-in cycle 02:00-04:00 is followed by 04:00-06:00, and that by 06:00-08:00 |
| Sentry.DefaultSeedExample | app.js:150-154 | from the built-in seed 02:00-04:00 the next days hold 04:00-06:00 and the reset slot 06:00-08:00, then a rest day, then 08:00-10:00 |
| DateFormat.FormatDate | app.js:727 | the ISO text of a date has ten characters with dashes at positions 4 and 7 |
| DateFormat.MonthPrefix | app.js:313 | the month prefix `substring(0, 7)` has seven characters |
| DateFormat.FormatStartsWithItsMonth | app.js:727 | the first seven characters of a date's text are its month's prefix |
| DateFormat.PrefixIffSameMonth | app.js:314 | a key starts with a month's prefix exactly when it is a date of that month |
| DateFormat.FormatInjective | app.js:727 | distinct dates have distinct keys |
| Engine.PurgedSpec | app.js:338-341 | a month purge leaves every other month's keys alone and none of its own; a purge of one person deletes exactly that person's entries in the month; surviving entries keep their values |
| Engine.PurgeTestIsPrefix | app.js:341 | the model's purge test is app.js's `key.startsWith(prefix)` (with the name test for a removal) |
| Engine.PurgeIdempotent | app.js:314 | purging twice is purging once |
| Engine.MergeSpec | app.js:570-575 | after purging and merging a generated month, other months keep their entries and the month holds exactly the generated entries |
| Engine.NextSlotIndex | app.js:720 | the computed index is in range and selects the cyclic successor slot |
| Engine.DayNumberIn | app.js:693 | the day number of day `d` is the month's first day number plus `d - 1` |
| Engine.ShiftTool.constructor | app.js:134-157 | the state starts with the built-in staff, groups, anchor, sentry seed, configuration and slots, and empty maps |
| Engine.ShiftTool.DeleteMonthEntries | app.js:341 | the purge loop leaves `Purged` of the old map |
| Engine.ShiftTool.ClearMonth | app.js:311-319 | the current month's primary entries are deleted and nothing else |
| Engine.ShiftTool.RemoveStaffMember | app.js:335-346 | the name is spliced out of the list and the colour table, and exactly its current-month entries are deleted |
| Engine.ShiftTool.ProceedWithAutoSchedule | app.js:566-580 | the month is purged and then merged with the generated month |
| Engine.ShiftTool.HandleCarryOver | app.js:603-631 | refuses and changes nothing exactly when there is no staff; otherwise moves to the next month, purges it and merges the month generated from the carried seeds |
| Engine.ShiftTool.EnsureSecondaryScheduleForMonth | app.js:687-706 | the map becomes the month fill of the old map (unchanged when there are no groups) |
| Engine.ShiftTool.RecalculateSentryIfNeeded | app.js:708-725 | unless forced, a non-empty sentry map is kept; otherwise it becomes the schedule from the initial condition up to the horizon |

## Left out

- User interface: rendering, modals, confirmation dialogs (the
  operations are modelled as confirmed), alerts, theme and keyboard
  navigation. These are presentation, except that `renderCalendar` first
  runs `ensureSecondaryScheduleForMonth` (app.js:221-222); the next item
  says what that leaves out.
- Engine.ShiftTool.ClearMonth, Engine.ShiftTool.RemoveStaffMember,
  Engine.ShiftTool.ProceedWithAutoSchedule and
  Engine.ShiftTool.HandleCarryOver: leave `secondaryShifts` unchanged.
  In the tool each ends by re-rendering (app.js:316, app.js:343,
  app.js:578, app.js:629, and for carry-over also `changeMonth` →
  `renderAll`, app.js:299 and app.js:621), which fills the current month's
  weekend groups. The model leaves that fill to the caller as
  `EnsureSecondaryScheduleForMonth`; since the fill is idempotent
  (`FillIdempotent`), calling it once more after any of these changes
  nothing further.
- Storage: `localStorage` loading and saving, and the per-month storage
  keys. This is I/O. In the model the primary map holds all months at
  once. `changeMonth`'s save and reload of per-month data are not
  modelled, so carry-over keeps the staff list it captured before moving.
- ICS export and import, and text parsing. These are file I/O and text
  heuristics outside the scheduling engine.
- Colours: `assignColorsToStaff` and a group's display colour are
  cosmetic. A removed name's colour entry is still deleted.
- `defaultPrimaryScheduleStarters` only presets the seed selectors of the
  dialog. Its values reach the generator as ordinary seed arguments.
- `updateSentryCondition` and the other form handlers are UI input, not
  part of the engine.
- Time zones: app.js mixes local-time `getDay()` with UTC
  `toISOString`. The model uses one abstract proleptic-Gregorian calendar
  for both. In the tool, `formatDate` (app.js:727) formats through UTC, so
  in a time zone ahead of UTC (such as UTC+8) a date on the 1st whose
  local time is earlier than the offset (local midnight, for instance)
  formats as the last day of the previous month. The month prefix then
  names the previous month, and the purges at app.js:314, app.js:570 and
  app.js:625 act on that month. The model's single calendar does not show
  this effect.
- The wall-clock horizon (two years after the current year) becomes a
  day-number parameter of `RecalculateSentryIfNeeded`, and the current
  month becomes constructor arguments.
- Dates are `DateKey` values, not strings. Parsing the anchor and
  initial-condition date strings is not modelled. `DateFormat` shows the
  text form is one-to-one, and that its prefix test is the same-month
  test, for years 0 to 9999.
- The sentry map is keyed by day number rather than by ISO text. This
  loses nothing: `DayNumberInjective` shows that distinct valid dates have
  distinct day numbers, and `FormatInjective` that they have distinct texts.
- Engine.ShiftTool.constructor: leaves the sentry and secondary maps
  empty. The tool's constructor runs `init()` (app.js:9-36), which fills
  the sentry map through `recalculateSentryIfNeeded` (app.js:34) and the
  current month's weekend groups through `renderCalendar` (app.js:222).
  The model leaves those two calls to the caller, because the sentry
  horizon comes from the wall clock and is a parameter here.
- Engine.ShiftTool.Valid: requires `timeSlots` to be non-empty. The
  tool never changes the built-in twelve slots. With an empty list it
  would divide by zero and read `undefined`.
- PrimaryRoster.MonthTurn: states the weekend track only for staff lists
  of non-empty names. An empty name copied onto a Sunday is falsy, so the
  Sunday branch assigns that Sunday again. The Monday–Thursday and Friday
  tracks are stated for every list.
- PrimaryRoster.MonthShaped: the same restriction on the weekend track's
  values (the keys are stated for every list).
- PrimaryRoster.MonthSeed, PrimaryRoster.MonthNextTurn, PrimaryRoster.MonthNoRepeat
  and PrimaryRoster.MonthCycle: the same restriction on the weekend track.
- PrimaryRoster.PrefixDescribed: the same restriction on the weekend
  track. The Monday–Thursday and Friday cursors and the keys are stated
  for every list; the weekend cursor, like the weekend values, only for
  lists of non-empty names (with `["", "x"]` a Saturday's `""` leaves its
  Sunday falsy, so that Sunday takes a second weekend turn).
- PrimaryRoster.MonthWeekendPair and PrimaryRoster.MonthLoneSunday: the
  same restriction, since both speak only of the weekend track.
- Every staff list the tool can hold has non-empty names, so for those
  the restriction costs nothing. `addStaffMember` adds only a truthy
  trimmed name (app.js:322-323). The import adds only a match longer
  than one character that contains no whitespace (app.js:469-471).
- PrimaryRoster.MonthNextTurn, PrimaryRoster.MonthNoRepeat,
  CarryForward.GetNextContinues and CarryForward.CarryOverContinues:
  stated for staff lists without repeated names, where "successor" and
  "used once" are meaningful (`indexOf` finds only a name's first place).
  Every list the tool can hold has no repeats: `addStaffMember` rejects a
  name already on the list (app.js:323), and the import merges names
  through a `Set` (app.js:489).
- PrimaryRoster.MonthEveryone: the same non-empty-names restriction on
  the weekend track; it holds for lists with repeats too.
