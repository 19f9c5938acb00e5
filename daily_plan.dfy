/**
  `create_daily_plan` (src/tools/smart-actions.ts:161-227): a first-fit
  greedy pass over the not-done tasks that picks each task whose estimate
  still fits in the working time, in the tasks' own order.

  The source keeps the running total in fractional minutes; here it is kept
  in milliseconds, so `total + estimate / 60000 <= workMinutes` becomes
  `total + estimate <= workMinutes * 60000`, which is the same test without
  rounding.
 */
module DailyPlan {
  import opened Json
  import opened Seqs
  import opened Analytics

  const MinuteMs: int := 60000
  const DefaultEstimateMs: int := 3600000

  /** `task.timeEstimate || 3600000`: a task without an estimate counts as one hour. */
  function EstimateMs(t: Task): int {
    if t.timeEstimate != 0 then t.timeEstimate else DefaultEstimateMs
  }

  /** `Math.round(estimateMs / 60000)`, rounding halves up. */
  function RoundedMinutes(ms: int): int {
    (ms + MinuteMs / 2) / MinuteMs
  }

  /** `Math.floor(availableMinutes * 0.15)` with breaks, else 0. */
  function BreakMinutes(availableMinutes: int, includeBreaks: bool): int {
    if includeBreaks then (availableMinutes * 15) / 100 else 0
  }

  function WorkMinutes(availableMinutes: int, includeBreaks: bool): int {
    availableMinutes - BreakMinutes(availableMinutes, includeBreaks)
  }

  /** The break is the floor of 15% of the available minutes, taken over the reals. */
  lemma BreakIsFloor(availableMinutes: int)
    ensures BreakMinutes(availableMinutes, true) == ((availableMinutes as real) * 0.15).Floor
    ensures BreakMinutes(availableMinutes, false) == 0
  {
    var q := (availableMinutes * 15) / 100;
    assert 100 * q <= availableMinutes * 15 < 100 * q + 100;
    assert (q as real) <= (availableMinutes as real) * 0.15 < (q as real) + 1.0;
  }

  /** The tasks whose pick is set, in order. */
  function Chosen(ts: seq<Task>, picks: seq<bool>): seq<Task>
    requires |picks| == |ts|
    decreases |ts|
  {
    if ts == [] then []
    else
      var n := |ts| - 1;
      Chosen(ts[..n], picks[..n]) + (if picks[n] then [ts[n]] else [])
  }

  /** The summed estimates of some tasks. */
  function SumEstimates(ts: seq<Task>): int
    decreases |ts|
  {
    if ts == [] then 0 else SumEstimates(ts[..|ts| - 1]) + EstimateMs(ts[|ts| - 1])
  }

  /**
    First fit: a task is picked exactly when its estimate, added to what the
    tasks picked before it take, still fits in the budget.
   */
  predicate IsFirstFit(ts: seq<Task>, picks: seq<bool>, budgetMs: int) {
    && |picks| == |ts|
    && forall i :: 0 <= i < |ts| ==>
         (picks[i] <==> SumEstimates(Chosen(ts[..i], picks[..i])) + EstimateMs(ts[i]) <= budgetMs)
  }

  /** The greedy pass's decisions, task by task. */
  function Picks(ts: seq<Task>, budgetMs: int): (p: seq<bool>)
    ensures |p| == |ts|
    decreases |ts|
  {
    if ts == [] then []
    else
      var n := |ts| - 1;
      var before := Picks(ts[..n], budgetMs);
      before + [SumEstimates(Chosen(ts[..n], before)) + EstimateMs(ts[n]) <= budgetMs]
  }

  datatype PlanEntry = PlanEntry(id: Value, title: Value, estimatedMinutes: int, order: nat)

  function Entry(t: Task, order: nat): PlanEntry {
    PlanEntry(t.id, t.title, RoundedMinutes(EstimateMs(t)), order)
  }

  /** The planned tasks, numbered from 1. */
  function Entries(chosen: seq<Task>): seq<PlanEntry>
    decreases |chosen|
  {
    if chosen == [] then [] else Entries(chosen[..|chosen| - 1]) + [Entry(chosen[|chosen| - 1], |chosen|)]
  }

  lemma EntriesSnoc(chosen: seq<Task>, t: Task)
    ensures Entries(chosen + [t]) == Entries(chosen) + [Entry(t, |chosen| + 1)]
  {
    assert (chosen + [t])[..|chosen|] == chosen;
  }

  /** Entry `i` describes chosen task `i` and carries the order `i + 1`. */
  lemma {:induction false} EntriesSpec(chosen: seq<Task>)
    ensures |Entries(chosen)| == |chosen|
    ensures forall i :: 0 <= i < |chosen| ==> Entries(chosen)[i] == Entry(chosen[i], i + 1)
    decreases |chosen|
  {
    if chosen != [] {
      var n := |chosen| - 1;
      EntriesSpec(chosen[..n]);
    }
  }

  lemma ChosenSnoc(ts: seq<Task>, picks: seq<bool>, t: Task, b: bool)
    requires |picks| == |ts|
    ensures Chosen(ts + [t], picks + [b]) == Chosen(ts, picks) + (if b then [t] else [])
  {
    assert (ts + [t])[..|ts|] == ts;
    assert (picks + [b])[..|ts|] == picks;
  }

  lemma SumSnoc(ts: seq<Task>, t: Task)
    ensures SumEstimates(ts + [t]) == SumEstimates(ts) + EstimateMs(t)
  {
    assert (ts + [t])[..|ts|] == ts;
  }

  /** Deciding the next task by the same test extends a first-fit selection. */
  lemma FirstFitSnoc(ts: seq<Task>, picks: seq<bool>, budgetMs: int, t: Task, b: bool)
    requires IsFirstFit(ts, picks, budgetMs)
    requires b <==> SumEstimates(Chosen(ts, picks)) + EstimateMs(t) <= budgetMs
    ensures IsFirstFit(ts + [t], picks + [b], budgetMs)
  {
    var ts', picks' := ts + [t], picks + [b];
    forall i | 0 <= i < |ts'|
      ensures picks'[i] <==> SumEstimates(Chosen(ts'[..i], picks'[..i])) + EstimateMs(ts'[i]) <= budgetMs
    {
      if i < |ts| {
        assert ts'[..i] == ts[..i] && picks'[..i] == picks[..i] && ts'[i] == ts[i] && picks'[i] == picks[i];
      } else {
        assert ts'[..i] == ts && picks'[..i] == picks;
      }
    }
  }

  /** The greedy pass is a first-fit selection. */
  lemma {:induction false} PicksAreFirstFit(ts: seq<Task>, budgetMs: int)
    ensures IsFirstFit(ts, Picks(ts, budgetMs), budgetMs)
    decreases |ts|
  {
    if ts != [] {
      var n := |ts| - 1;
      PicksAreFirstFit(ts[..n], budgetMs);
      var before := Picks(ts[..n], budgetMs);
      FirstFitSnoc(ts[..n], before, budgetMs, ts[n], SumEstimates(Chosen(ts[..n], before)) + EstimateMs(ts[n]) <= budgetMs);
      assert ts[..n] + [ts[n]] == ts;
    }
  }

  lemma FirstFitPrefix(ts: seq<Task>, picks: seq<bool>, budgetMs: int)
    requires IsFirstFit(ts, picks, budgetMs) && ts != []
    ensures IsFirstFit(ts[..|ts| - 1], picks[..|picks| - 1], budgetMs)
  {
    var n := |ts| - 1;
    forall i | 0 <= i < n
      ensures picks[..n][i] <==> SumEstimates(Chosen(ts[..n][..i], picks[..n][..i])) + EstimateMs(ts[..n][i]) <= budgetMs
    {
      assert ts[..n][..i] == ts[..i] && picks[..n][..i] == picks[..i];
    }
  }

  lemma FirstFitLast(ts: seq<Task>, picks: seq<bool>, budgetMs: int)
    requires IsFirstFit(ts, picks, budgetMs) && ts != []
    ensures picks[|ts| - 1] <==>
      SumEstimates(Chosen(ts[..|ts| - 1], picks[..|ts| - 1])) + EstimateMs(ts[|ts| - 1]) <= budgetMs
  {
  }

  lemma PicksSnoc(ts: seq<Task>, t: Task, budgetMs: int)
    ensures Picks(ts + [t], budgetMs) ==
      Picks(ts, budgetMs) + [SumEstimates(Chosen(ts, Picks(ts, budgetMs))) + EstimateMs(t) <= budgetMs]
  {
    assert (ts + [t])[..|ts|] == ts;
  }

  /** The greedy pass's selection is the only first-fit one. */
  lemma {:induction false} FirstFitIsGreedy(ts: seq<Task>, picks: seq<bool>, budgetMs: int)
    requires IsFirstFit(ts, picks, budgetMs)
    ensures picks == Picks(ts, budgetMs)
    decreases |ts|
  {
    if ts != [] {
      var n := |ts| - 1;
      FirstFitPrefix(ts, picks, budgetMs);
      FirstFitIsGreedy(ts[..n], picks[..n], budgetMs);
      FirstFitLast(ts, picks, budgetMs);
      GreedyStep(ts, picks, budgetMs);
    }
  }

  lemma GreedyStep(ts: seq<Task>, picks: seq<bool>, budgetMs: int)
    requires |picks| == |ts| && ts != []
    requires picks[..|ts| - 1] == Picks(ts[..|ts| - 1], budgetMs)
    requires picks[|ts| - 1] <==>
      SumEstimates(Chosen(ts[..|ts| - 1], picks[..|ts| - 1])) + EstimateMs(ts[|ts| - 1]) <= budgetMs
    ensures picks == Picks(ts, budgetMs)
  {
    var n := |ts| - 1;
    PicksSnoc(ts[..n], ts[n], budgetMs);
    assert ts[..n] + [ts[n]] == ts;
    assert picks == picks[..n] + [picks[n]];
  }

  /**
    The greedy pass never takes more than the budget: once a task is picked
    the total stays within it, so it exceeds the budget only when nothing was
    picked, and never when the budget is not negative.
   */
  lemma {:induction false} PicksWithinBudget(ts: seq<Task>, budgetMs: int)
    ensures SumEstimates(Chosen(ts, Picks(ts, budgetMs))) <= budgetMs || Chosen(ts, Picks(ts, budgetMs)) == []
    ensures budgetMs >= 0 ==> SumEstimates(Chosen(ts, Picks(ts, budgetMs))) <= budgetMs
    decreases |ts|
  {
    if ts != [] {
      var n := |ts| - 1;
      var p := Picks(ts[..n], budgetMs);
      PicksWithinBudget(ts[..n], budgetMs);
      var before := Chosen(ts[..n], p);
      assert Picks(ts, budgetMs)[..n] == p;
      assert Chosen(ts, Picks(ts, budgetMs)) == before + (if Picks(ts, budgetMs)[n] then [ts[n]] else []);
      assert Picks(ts, budgetMs)[n] <==> SumEstimates(before) + EstimateMs(ts[n]) <= budgetMs;
      if Picks(ts, budgetMs)[n] {
        SumSnoc(before, ts[n]);
        assert Chosen(ts, Picks(ts, budgetMs)) == before + [ts[n]];
      } else {
        assert Chosen(ts, Picks(ts, budgetMs)) == before;
      }
    }
  }

  /** The chosen tasks keep the order of the tasks they were chosen from. */
  lemma {:induction false} ChosenIsSubsequence(ts: seq<Task>, picks: seq<bool>)
    requires |picks| == |ts|
    ensures SubsequenceOf(Chosen(ts, picks), ts)
    decreases |ts|
  {
    if ts == [] {
    } else {
      var n := |ts| - 1;
      var before := Chosen(ts[..n], picks[..n]);
      ChosenIsSubsequence(ts[..n], picks[..n]);
      SubsequenceSnoc(before, ts[..n], ts[n]);
      assert ts[..n] + [ts[n]] == ts;
      if picks[n] {
        assert Chosen(ts, picks) == before + [ts[n]];
      } else {
        assert Chosen(ts, picks) == before;
      }
    }
  }

  lemma {:induction false} ChosenMembers(ts: seq<Task>, picks: seq<bool>)
    requires |picks| == |ts|
    ensures forall t :: t in Chosen(ts, picks) ==> t in ts
    decreases |ts|
  {
    if ts != [] {
      var n := |ts| - 1;
      ChosenMembers(ts[..n], picks[..n]);
    }
  }

  /** One turn of the planning loop: how the chosen tasks, their sum and their entries grow. */
  lemma PlanStep(ts: seq<Task>, i: nat, budgetMs: int)
    requires i < |ts|
    ensures
      var chosen := Chosen(ts[..i], Picks(ts[..i], budgetMs));
      var fits := SumEstimates(chosen) + EstimateMs(ts[i]) <= budgetMs;
      && Chosen(ts[..i + 1], Picks(ts[..i + 1], budgetMs)) == (if fits then chosen + [ts[i]] else chosen)
      && SumEstimates(chosen + [ts[i]]) == SumEstimates(chosen) + EstimateMs(ts[i])
      && Entries(chosen + [ts[i]]) == Entries(chosen) + [Entry(ts[i], |chosen| + 1)]
  {
    var prefix, t := ts[..i], ts[i];
    assert ts[..i + 1] == prefix + [t];
    var picks := Picks(prefix, budgetMs);
    PicksSnoc(prefix, t, budgetMs);
    ChosenSnoc(prefix, picks, t, SumEstimates(Chosen(prefix, picks)) + EstimateMs(t) <= budgetMs);
    SumSnoc(Chosen(prefix, picks), t);
    EntriesSnoc(Chosen(prefix, picks), t);
  }

  lemma EntriesLength(chosen: seq<Task>)
    ensures |Entries(chosen)| == |chosen|
  {
    EntriesSpec(chosen);
  }

  /** The planning loop (src/tools/smart-actions.ts:179-193). */
  method PlanTasks(pending: seq<Task>, workMinutes: int) returns (selectedTasks: seq<PlanEntry>, totalMs: int)
    ensures selectedTasks == Entries(Chosen(pending, Picks(pending, workMinutes * MinuteMs)))
    ensures totalMs == SumEstimates(Chosen(pending, Picks(pending, workMinutes * MinuteMs)))
  {
    var budgetMs := workMinutes * MinuteMs;
    selectedTasks := [];
    totalMs := 0;
    ghost var chosen: seq<Task> := [];
    var i := 0;
    while i < |pending|
      invariant 0 <= i <= |pending|
      invariant chosen == Chosen(pending[..i], Picks(pending[..i], budgetMs))
      invariant selectedTasks == Entries(chosen)
      invariant |selectedTasks| == |chosen|
      invariant totalMs == SumEstimates(chosen)
    {
      var task := pending[i];
      var estimatedMs := EstimateMs(task);
      PlanStep(pending, i, budgetMs);
      if totalMs + estimatedMs <= budgetMs {
        selectedTasks := selectedTasks + [PlanEntry(task.id, task.title, RoundedMinutes(estimatedMs), |selectedTasks| + 1)];
        totalMs := totalMs + estimatedMs;
        chosen := chosen + [task];
      }
      i := i + 1;
    }
    assert pending[..i] == pending;
  }

  /**
    The output of `create_daily_plan` without its text fields.
    `plannedTime` is the hours and minutes of `totalPlannedTime`, taken
    from the planned time rounded to whole minutes and split by the
    corrected `PlannedTime` (the written split is `PlannedTimeAsWritten`).
   */
  datatype Plan = Plan(
    workMinutes: int,
    breakMinutes: int,
    plannedTasks: seq<PlanEntry>,
    totalPlannedMs: int,
    plannedTime: (int, int))

  function PendingTasks(tasks: seq<Task>): seq<Task> {
    Filter((t: Task) => !t.isDone, tasks)
  }

  function MakePlan(tasks: seq<Task>, availableHours: int, includeBreaks: bool): Plan {
    var availableMinutes := availableHours * 60;
    var work := WorkMinutes(availableMinutes, includeBreaks);
    var pending := PendingTasks(tasks);
    var chosen := Chosen(pending, Picks(pending, work * MinuteMs));
    var total := SumEstimates(chosen);
    Plan(work, BreakMinutes(availableMinutes, includeBreaks), Entries(chosen), total, PlannedTime(RoundedMinutes(total)))
  }

  /**
    The greedy selection from some tasks: it is the first-fit one, keeps
    the tasks' order, stays within the budget, and numbers its entries
    from 1 in the order the tasks were picked.
   */
  lemma SelectionSpec(pending: seq<Task>, budgetMs: int)
    ensures
      var picks := Picks(pending, budgetMs);
      var chosen := Chosen(pending, picks);
      && IsFirstFit(pending, picks, budgetMs)
      && SubsequenceOf(chosen, pending)
      && (forall t :: t in chosen ==> t in pending)
      && (budgetMs >= 0 ==> SumEstimates(chosen) <= budgetMs)
      && (chosen != [] ==> SumEstimates(chosen) <= budgetMs)
      && |Entries(chosen)| == |chosen|
      && forall i :: 0 <= i < |chosen| ==> Entries(chosen)[i] == Entry(chosen[i], i + 1)
  {
    PicksAreFirstFit(pending, budgetMs);
    PicksWithinBudget(pending, budgetMs);
    ChosenIsSubsequence(pending, Picks(pending, budgetMs));
    ChosenMembers(pending, Picks(pending, budgetMs));
    EntriesSpec(Chosen(pending, Picks(pending, budgetMs)));
  }

  /**
    The plan sets 15% of the available time aside for breaks when asked
    to, plans only not-done tasks in their order by first fit within the
    remaining work time, and reports the planned tasks numbered from 1 with
    their estimates summed.
   */
  lemma PlanSpec(tasks: seq<Task>, availableHours: int, includeBreaks: bool)
    ensures
      var plan := MakePlan(tasks, availableHours, includeBreaks);
      var pending := PendingTasks(tasks);
      var picks := Picks(pending, plan.workMinutes * MinuteMs);
      var chosen := Chosen(pending, picks);
      && plan.workMinutes == availableHours * 60 - BreakMinutes(availableHours * 60, includeBreaks)
      && IsFirstFit(pending, picks, plan.workMinutes * MinuteMs)
      && SubsequenceOf(chosen, pending) && SubsequenceOf(pending, tasks)
      && (forall t :: t in chosen ==> t in tasks && !t.isDone)
      && (plan.workMinutes >= 0 ==> plan.totalPlannedMs <= plan.workMinutes * MinuteMs)
      && (plan.plannedTasks != [] ==> plan.totalPlannedMs <= plan.workMinutes * MinuteMs)
      && plan.totalPlannedMs == SumEstimates(chosen)
      && |plan.plannedTasks| == |chosen|
      && (forall i :: 0 <= i < |chosen| ==> plan.plannedTasks[i] == Entry(chosen[i], i + 1))
      && plan.plannedTime.0 * 60 + plan.plannedTime.1 == RoundedMinutes(plan.totalPlannedMs)
      && 0 <= plan.plannedTime.1 < 60
  {
    var pending := PendingTasks(tasks);
    PlannedTimeAddsUp(RoundedMinutes(MakePlan(tasks, availableHours, includeBreaks).totalPlannedMs));
    SelectionSpec(pending, MakePlan(tasks, availableHours, includeBreaks).workMinutes * MinuteMs);
    FilterSpec((t: Task) => !t.isDone, tasks);
  }

  /**
    The pass keeps scanning after a miss: with one hour of work time, a
    90-minute task is skipped and the 30-minute task after it is planned.
   */
  lemma KeepsScanningAfterMiss(long: Task, short: Task)
    requires long.timeEstimate == 90 * MinuteMs && short.timeEstimate == 30 * MinuteMs
    ensures Picks([long, short], 60 * MinuteMs) == [false, true]
  {
    var ts := [long, short];
    assert ts[..1] == [long];
    assert [long][..0] == [];
    assert Picks([long], 60 * MinuteMs) == [false];
    assert Chosen([long], [false]) == [];
  }

  /** A task without an estimate is planned as one hour, shown as 60 minutes. */
  lemma DefaultEstimateIsOneHour(t: Task)
    requires t.timeEstimate == 0
    ensures EstimateMs(t) == 60 * MinuteMs && RoundedMinutes(EstimateMs(t)) == 60
  {
  }

  // ---------------------------------------------------------------------------
  // The planned-time summary

  /**
    `totalPlannedTime` as written: `Math.round(totalTime / 60)` hours and
    `Math.round(totalTime % 60)` minutes, for a whole, non-negative number
    of minutes.
   */
  function PlannedTimeAsWritten(totalMinutes: nat): (int, int) {
    ((totalMinutes + 30) / 60, totalMinutes % 60)
  }

  /** The planned time split into whole hours and the minutes left over. */
  function PlannedTime(totalMinutes: int): (int, int) {
    (totalMinutes / 60, totalMinutes % 60)
  }

  /** The written summary rounds the hours up from a half hour on: 90 minutes reads as 2 hours 30 minutes. */
  lemma PlannedTimeOverstatesHours()
    ensures PlannedTimeAsWritten(90) == (2, 30)
    ensures PlannedTimeAsWritten(90).0 * 60 + PlannedTimeAsWritten(90).1 != 90
  {
  }

  /** The split adds back up to the planned time, with fewer than 60 minutes left over. */
  lemma PlannedTimeAddsUp(totalMinutes: int)
    ensures PlannedTime(totalMinutes).0 * 60 + PlannedTime(totalMinutes).1 == totalMinutes
    ensures 0 <= PlannedTime(totalMinutes).1 < 60
  {
  }
}
