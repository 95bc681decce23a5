/** The study streak badge: the streak kept in the component's state and in
    the `ssa_streak` record of `localStorage`, updated when the page mounts
    and on every `study-generated` event. Calendar days are day numbers, so
    `toDateString` equality is equality of day numbers and "yesterday" is
    `today - 1`. */
module StreakTracker {
  import opened Wrappers

  /** `{current, total, lastDate}`; the initial state has no `lastDate`. */
  datatype Streak = Streak(current: nat, total: nat, lastDay: Option<int>)

  /** `useState({ current: 0, total: 0 })` */
  const Initial := Streak(0, 0, None)

  /** What the mount effect does with a stored record on day `today`: the
      new streak, and whether it is also written back. */
  datatype MountStep = MountStep(streak: Streak, writes: bool)

  /** The mount-time transition for a stored record `data`. */
  function OnMount(data: Streak, today: int): (r: MountStep)
    ensures data.lastDay == Some(today) ==> r == MountStep(data, false)
    ensures data.lastDay == Some(today - 1) ==>
      r == MountStep(Streak(data.current + 1, data.total, Some(today)), true)
    ensures data.lastDay != Some(today) && data.lastDay != Some(today - 1) ==>
      r == MountStep(Streak(1, data.total, Some(today)), true)
    ensures r.streak.total == data.total
    ensures r.writes ==> r.streak.current >= 1 && r.streak.lastDay == Some(today)
  {
    if data.lastDay == Some(today) then MountStep(data, false)
    else if data.lastDay == Some(today - 1) then
      MountStep(Streak(data.current + 1, data.total, Some(today)), true)
    else MountStep(Streak(1, data.total, Some(today)), true)
  }

  /** The `study-generated` handler on day `today`: one more pack, the
      current run kept (or started at 1), the day stamped. */
  function OnGenerate(s: Streak, today: int): (r: Streak)
    ensures r.total == s.total + 1
    ensures s.current != 0 ==> r.current == s.current
    ensures s.current == 0 ==> r.current == 1
    ensures r.current >= 1 && r.lastDay == Some(today)
  {
    Streak(if s.current != 0 then s.current else 1, s.total + 1, Some(today))
  }

  /** Mounting twice on the same day changes nothing the second time. */
  lemma MountSameDayIsStable(data: Streak, today: int)
    ensures OnMount(OnMount(data, today).streak, today) == MountStep(OnMount(data, today).streak, false)
  {
  }

  /** A pack made one day and the page resumed the next day extends the run
      by one, and the next pack keeps it. */
  lemma NextDayExtends(s: Streak, day: int)
    ensures var resumed := OnMount(OnGenerate(s, day), day + 1).streak;
      && resumed.current == OnGenerate(s, day).current + 1
      && OnGenerate(resumed, day + 1).current == resumed.current
      && OnGenerate(resumed, day + 1).total == s.total + 2
  {
    assert (day + 1) - 1 == day;
  }

  /** Opening the page after a gap of more than one day restarts the run
      and keeps the count of packs. */
  lemma GapRestarts(s: Streak, day: int, today: int)
    requires today > day + 1
    ensures OnMount(OnGenerate(s, day), today).streak == Streak(1, s.total + 1, Some(today))
  {
  }

  /** The component's state and the stored record. */
  class Tracker {
    var streak: Streak
    var stored: Option<Streak>

    /** The component before its effects run, over the stored record. */
    constructor (record: Option<Streak>)
      ensures streak == Initial && stored == record
    {
      streak := Initial;
      stored := record;
    }

    /** The mount effect: nothing without a stored record; otherwise the
      transition, written back when it changes the day. */
    method Mount(today: int)
      modifies this
      ensures old(stored).None? ==> streak == old(streak) && stored == old(stored)
      ensures old(stored).Some? ==> streak == OnMount(old(stored).value, today).streak
      ensures old(stored).Some? && OnMount(old(stored).value, today).writes ==> stored == Some(streak)
      ensures old(stored).Some? && !OnMount(old(stored).value, today).writes ==> stored == old(stored)
      ensures old(stored).Some? ==> streak.total == old(stored).value.total
    {
      if stored.Some? {
        var step := OnMount(stored.value, today);
        streak := step.streak;
        if step.writes {
          stored := Some(step.streak);
        }
      }
    }

    /** `handleGenerate`: the next streak becomes the state and is written. */
    method Generate(today: int)
      modifies this
      ensures streak == OnGenerate(old(streak), today) && stored == Some(streak)
      ensures streak.total > old(streak.total) && streak.current >= 1
    {
      var next := OnGenerate(streak, today);
      streak := next;
      stored := Some(next);
    }
  }
}
