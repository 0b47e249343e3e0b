/** The sentry roster: a day-by-day state machine over `(currentDate,
    currentTimeSlot)` that writes one slot per visited day, advances one
    day, or two days after the reset slot, and moves to the next slot of
    the cycle, or to the restart slot after a reset. Days are day numbers
    (see `Calendar.DayNumber`); the horizon is the last day number that
    may still be written. */
module Sentry {

  import opened Common
  import opened Rotation

  /** `sentrySchedule.config` (its `restDayLabel` is display-only). */
  datatype SentryConfig = SentryConfig(resetTime: string, restartTime: string, restDayLabel: string)

  /** `timeSlots[(timeSlots.indexOf(slot) + 1) % timeSlots.length]`: the
      slot after `slot` in the cycle; a slot not on the list is followed by
      the first one. `InCycleIsMod` ties it to that JavaScript formula. */
  function InCycle(slots: seq<string>, slot: string): (r: string)
    requires |slots| > 0
    ensures r in slots
  {
    var i := IndexOf(slots, slot);
    if i == -1 then slots[0] else slots[Advance(i, |slots|)]
  }

  lemma InCycleIsMod(slots: seq<string>, slot: string)
    requires |slots| > 0
    ensures InCycle(slots, slot) == slots[(IndexOf(slots, slot) + 1) % |slots|]
  {
    var i := IndexOf(slots, slot);
    if i == -1 {
      ModUnique(0, |slots|, 0, 0);
    } else {
      AdvanceIsMod(i, |slots|);
    }
  }

  /** The slot after `slot`: the restart slot after a reset, otherwise the
      next one in the cycle. */
  function NextSlot(slots: seq<string>, config: SentryConfig, slot: string): (r: string)
    requires |slots| > 0
    ensures slot != config.resetTime ==> r in slots
  {
    if slot == config.resetTime then config.restartTime else InCycle(slots, slot)
  }

  /** Days to the next entry: two after the reset slot, one otherwise. */
  function Gap(config: SentryConfig, slot: string): (g: int)
    ensures g == 1 || g == 2
    ensures g == 2 <==> slot == config.resetTime
  {
    if slot == config.resetTime then 2 else 1
  }

  /** Walking the cycle over a list without repetitions visits the slots
      in list order, wrapping round at the end; an unknown slot restarts
      the cycle at the first one. */
  lemma InCycleOrder(slots: seq<string>, slot: string)
    requires |slots| > 0
    ensures slot !in slots ==> InCycle(slots, slot) == slots[0]
    ensures Distinct(slots) && slot in slots
        ==> IndexOf(slots, InCycle(slots, slot)) == Advance(IndexOf(slots, slot), |slots|)
  {
    if slot in slots && Distinct(slots) {
      IndexOfDistinct(slots, Advance(IndexOf(slots, slot), |slots|));
    }
  }

  /** The entries the loop writes from state `(cur, slot)` on, up to the horizon. */
  function Schedule(slots: seq<string>, config: SentryConfig, cur: int, slot: string, horizon: int): map<int, string>
    requires |slots| > 0
    decreases horizon - cur
  {
    if cur > horizon then map[]
    else Schedule(slots, config, cur + Gap(config, slot), NextSlot(slots, config, slot), horizon)[cur := slot]
  }

  /** Every entry lies between the state's day and the horizon, and the
      state's own day, when it is not past the horizon, holds its slot. */
  lemma {:induction false} ScheduleBounds(slots: seq<string>, config: SentryConfig, cur: int, slot: string, horizon: int, d: int)
    requires |slots| > 0
    ensures d in Schedule(slots, config, cur, slot, horizon) ==> cur <= d <= horizon
    ensures cur <= horizon ==>
      cur in Schedule(slots, config, cur, slot, horizon) && Schedule(slots, config, cur, slot, horizon)[cur] == slot
    decreases horizon - cur
  {
    if cur <= horizon && d != cur {
      ScheduleBounds(slots, config, cur + Gap(config, slot), NextSlot(slots, config, slot), horizon, d);
    }
  }

  /** Transitions: an entry's successor is `Gap` days later and holds
      `NextSlot` (unless that is past the horizon), and the day after a
      reset has no entry. */
  lemma {:induction false} ScheduleStep(slots: seq<string>, config: SentryConfig, cur: int, slot: string, horizon: int, d: int)
    requires |slots| > 0
    requires d in Schedule(slots, config, cur, slot, horizon)
    ensures var s := Schedule(slots, config, cur, slot, horizon);
      && (d + Gap(config, s[d]) <= horizon ==> d + Gap(config, s[d]) in s && s[d + Gap(config, s[d])] == NextSlot(slots, config, s[d]))
      && (s[d] == config.resetTime ==> d + 1 !in s)
    decreases horizon - cur
  {
    var next := cur + Gap(config, slot);
    var nextSlot := NextSlot(slots, config, slot);
    ScheduleBounds(slots, config, next, nextSlot, horizon, d);
    ScheduleBounds(slots, config, next, nextSlot, horizon, d + 1);
    if d != cur {
      ScheduleStep(slots, config, next, nextSlot, horizon, d);
    }
  }

  /** The only days without an entry between the seed and the horizon are
      those right after a reset. */
  lemma {:induction false} ScheduleGaps(slots: seq<string>, config: SentryConfig, cur: int, slot: string, horizon: int, d: int)
    requires |slots| > 0
    requires cur <= d <= horizon && d !in Schedule(slots, config, cur, slot, horizon)
    ensures var s := Schedule(slots, config, cur, slot, horizon);
      d - 1 in s && s[d - 1] == config.resetTime
    decreases horizon - cur
  {
    var next := cur + Gap(config, slot);
    var nextSlot := NextSlot(slots, config, slot);
    ScheduleBounds(slots, config, next, nextSlot, horizon, d);
    if d == cur + 1 && next == cur + 2 {
      ScheduleBounds(slots, config, cur, slot, horizon, cur);
    } else {
      ScheduleGaps(slots, config, next, nextSlot, horizon, d);
      ScheduleBounds(slots, config, next, nextSlot, horizon, d - 1);
    }
  }

  /** One iteration of the loop: writing the state's day and stepping to
      the next state leaves the union of what is written and what is still
      to come unchanged. */
  lemma ScheduleWrite(slots: seq<string>, config: SentryConfig, written: map<int, string>, cur: int, slot: string, horizon: int)
    requires |slots| > 0 && cur <= horizon
    ensures written[cur := slot]
              + Schedule(slots, config, cur + Gap(config, slot), NextSlot(slots, config, slot), horizon)
         == written + Schedule(slots, config, cur, slot, horizon)
  {
    var rest := Schedule(slots, config, cur + Gap(config, slot), NextSlot(slots, config, slot), horizon);
    ScheduleBounds(slots, config, cur + Gap(config, slot), NextSlot(slots, config, slot), horizon, cur);
    assert cur !in rest;
    assert Schedule(slots, config, cur, slot, horizon) == rest[cur := slot];
  }

  /** The built-in slots and configuration. */
  function DefaultSlots(): seq<string>
  {
    ["00:00-02:00", "02:00-04:00", "04:00-06:00", "06:00-08:00", "08:00-10:00", "10:00-12:00",
     "12:00-14:00", "14:00-16:00", "16:00-18:00", "18:00-20:00", "20:00-22:00", "22:00-00:00"]
  }

  function DefaultConfig(): SentryConfig
  {
    SentryConfig("06:00-08:00", "08:00-10:00", "休")
  }

  /** Three slots in a row, the third being the reset slot: the seed day
      and the next two hold them, the day after the reset is a rest day, and
      the restart slot follows. */
  lemma RunThroughReset(slots: seq<string>, config: SentryConfig, start: int, horizon: int, s0: string, s1: string, s2: string)
    requires |slots| > 0 && start + 4 <= horizon
    requires s0 != config.resetTime && s1 != config.resetTime && s2 == config.resetTime
    requires InCycle(slots, s0) == s1 && InCycle(slots, s1) == s2
    ensures var s := Schedule(slots, config, start, s0, horizon);
      && start in s && s[start] == s0
      && start + 1 in s && s[start + 1] == s1
      && start + 2 in s && s[start + 2] == s2
      && start + 3 !in s
      && start + 4 in s && s[start + 4] == config.restartTime
  {
    ScheduleBounds(slots, config, start, s0, horizon, start);
    ScheduleStep(slots, config, start, s0, horizon, start);
    ScheduleStep(slots, config, start, s0, horizon, start + 1);
    ScheduleStep(slots, config, start, s0, horizon, start + 2);
  }

  /** In the built-in cycle 02:00-04:00 is followed by 04:00-06:00 and
      that by 06:00-08:00. */
  lemma DefaultCycleStart()
    ensures InCycle(DefaultSlots(), "02:00-04:00") == "04:00-06:00"
    ensures InCycle(DefaultSlots(), "04:00-06:00") == "06:00-08:00"
  {
    var slots := DefaultSlots();
    // the slots differ in their second character
    assert slots[0][1] == '0' && slots[1][1] == '2' && slots[2][1] == '4';
    IndexOfFirst(slots, 1, "02:00-04:00");
    forall j | 0 <= j < 2
      ensures slots[j] != "04:00-06:00"
    {
      assert j == 0 || j == 1;
    }
    IndexOfFirst(slots, 2, "04:00-06:00");
  }

  /** From the built-in seed slot "02:00-04:00" (on 2025-06-01) the cycle
      runs 02:00-04:00, 04:00-06:00, then the reset slot 06:00-08:00 two
      days after the seed, a rest day with no entry, and the restart slot
      08:00-10:00 four days after the seed. */
  lemma DefaultSeedExample(start: int, horizon: int)
    requires start + 4 <= horizon
    ensures var s := Schedule(DefaultSlots(), DefaultConfig(), start, "02:00-04:00", horizon);
      && start in s && s[start] == "02:00-04:00"
      && start + 1 in s && s[start + 1] == "04:00-06:00"
      && start + 2 in s && s[start + 2] == "06:00-08:00"
      && start + 3 !in s
      && start + 4 in s && s[start + 4] == "08:00-10:00"
  {
    DefaultCycleStart();
    var config := DefaultConfig();
    assert config.resetTime[1] == '6';
    RunThroughReset(DefaultSlots(), config, start, horizon, "02:00-04:00", "04:00-06:00", "06:00-08:00");
  }
}
