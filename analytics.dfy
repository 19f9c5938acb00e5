/**
  The productivity analysis of the smart actions (src/tools/smart-actions.ts:
  `analyze_productivity` and `generateInsights`): which tasks fall in the
  recent window, the completed ones among them, the estimate and time-spent
  totals, and the threshold insights.

  Times are integer milliseconds and `now` is a parameter.  The source
  compares floating-point ratios with 0.8, 0.4, 1.2 and 0.3; here they are
  compared by cross-multiplication, and `InsightsMeaning` relates that form
  to the ratios over the reals.
 */
module Analytics {
  import opened Json
  import opened Seqs

  const DayMs: int := 86400000

  /**
    A Super Productivity task as the smart actions read it.  `created` and
    `timeSpent` are `None` when the field is `undefined`: arithmetic on it
    gives NaN, so every comparison with it is false.  A `null` there acts
    as the number 0 in that arithmetic and is written `Some(0)`.
    `doneOn`, `timeEstimate` and `dueDate` are 0 for every falsy value
    (`undefined`, `null`, 0), since the code only tests them for truthiness
    or replaces them with `|| 0`.
   */
  datatype Task = Task(
    id: Value,
    title: Value,
    projectId: Value,
    isDone: bool,
    created: Option<int>,
    doneOn: int,
    timeEstimate: int,
    timeSpent: Option<int>,
    dueDate: int,
    subTaskCount: nat)

  /** `now - days * 24 * 60 * 60 * 1000`. */
  function WindowStart(now: int, days: int): int {
    now - days * DayMs
  }

  /** Created in the window, or done in it. */
  predicate IsRecent(start: int, t: Task) {
    (t.created.Some? && t.created.value >= start) || (t.doneOn != 0 && t.doneOn >= start)
  }

  function Recent(start: int, tasks: seq<Task>): seq<Task> {
    Filter((t: Task) => IsRecent(start, t), tasks)
  }

  function Completed(recent: seq<Task>): seq<Task> {
    Filter((t: Task) => t.isDone, recent)
  }

  /** `reduce((sum, t) => sum + (t.timeEstimate || 0), 0)`. */
  function TotalEstimated(ts: seq<Task>): int
    decreases ts
  {
    if ts == [] then 0 else ts[0].timeEstimate + TotalEstimated(ts[1..])
  }

  /** `reduce((sum, t) => sum + t.timeSpent, 0)`: one task without a time spent makes the sum NaN, here `None`. */
  function TotalSpent(ts: seq<Task>): Option<int>
    decreases ts
  {
    if ts == [] then Some(0)
    else
      var rest := TotalSpent(ts[1..]);
      if ts[0].timeSpent.Some? && rest.Some? then Some(ts[0].timeSpent.value + rest.value) else None
  }

  function NoEstimate(): Task -> bool {
    (t: Task) => t.timeEstimate == 0
  }

  /** The conditions `generateInsights` reports, one tag per message. */
  datatype Insight = HighCompletion | LowCompletion | Underestimating | Overestimating | MissingEstimates(count: nat)

  /** Completion rate above 0.8, or below 0.4; with no recent task the rate is 0. */
  function RateInsights(recent: nat, completed: nat): seq<Insight> {
    if recent > 0 && 5 * completed > 4 * recent then [HighCompletion]
    else if recent == 0 || 5 * completed < 2 * recent then [LowCompletion]
    else []
  }

  /** Time spent over estimate above 1.2, or below 0.8, when something was estimated and the spent total is a number. */
  function AccuracyInsights(estimated: int, spent: Option<int>): seq<Insight> {
    if estimated > 0 && spent.Some? then
      if 5 * spent.value > 6 * estimated then [Underestimating]
      else if 5 * spent.value < 4 * estimated then [Overestimating]
      else []
    else []
  }

  /** More than 30% of the recent tasks without an estimate. */
  function EstimateInsights(recent: nat, missing: nat): seq<Insight> {
    if 10 * missing > 3 * recent then [MissingEstimates(missing)] else []
  }

  function Insights(recent: nat, completed: nat, estimated: int, spent: Option<int>, missing: nat): seq<Insight> {
    RateInsights(recent, completed) + AccuracyInsights(estimated, spent) + EstimateInsights(recent, missing)
  }

  /** `generateInsights` (src/tools/smart-actions.ts:230-274), pushing each insight as its condition holds. */
  method GenerateInsights(recentTasks: seq<Task>, completedTasks: seq<Task>, totalEstimated: int, totalSpent: Option<int>)
    returns (insights: seq<Insight>)
    ensures insights ==
      Insights(|recentTasks|, |completedTasks|, totalEstimated, totalSpent, Count(NoEstimate(), recentTasks))
  {
    insights := [];
    var n := |recentTasks|;
    var c := |completedTasks|;
    if n > 0 && 5 * c > 4 * n {
      insights := insights + [HighCompletion];
    } else if n == 0 || 5 * c < 2 * n {
      insights := insights + [LowCompletion];
    }
    assert insights == RateInsights(n, c);
    if totalEstimated > 0 && totalSpent.Some? {
      if 5 * totalSpent.value > 6 * totalEstimated {
        insights := insights + [Underestimating];
      } else if 5 * totalSpent.value < 4 * totalEstimated {
        insights := insights + [Overestimating];
      }
    }
    assert insights == RateInsights(n, c) + AccuracyInsights(totalEstimated, totalSpent);
    FilterSpec(NoEstimate(), recentTasks);
    var withoutEstimate := |Filter(NoEstimate(), recentTasks)|;
    assert withoutEstimate == Count(NoEstimate(), recentTasks);
    if 10 * withoutEstimate > 3 * n {
      insights := insights + [MissingEstimates(withoutEstimate)];
    }
  }

  /** For a positive denominator, comparing a ratio with a constant is comparing the cross products. */
  lemma RatioAbove(a: int, b: int, k: real)
    requires b > 0
    ensures (a as real) / (b as real) > k <==> (a as real) > k * (b as real)
    ensures (a as real) / (b as real) < k <==> (a as real) < k * (b as real)
  {
    var q := (a as real) / (b as real);
    assert q * (b as real) == a as real;
    if q > k {
      assert q * (b as real) > k * (b as real);
    }
    if (a as real) > k * (b as real) {
      assert q * (b as real) > k * (b as real);
    }
    if q < k {
      assert q * (b as real) < k * (b as real);
    }
    if (a as real) < k * (b as real) {
      assert q * (b as real) < k * (b as real);
    }
  }

  /**
    The insights are the source's thresholds on real ratios: high
    completion exactly when the rate exceeds 0.8 and low exactly when it is
    below 0.4 (so never both, and low for an empty window); an estimate
    insight only when something was estimated; the missing-estimate insight
    exactly when the count exceeds 0.3 of the recent tasks.
   */
  lemma {:induction false} InsightsMeaning(n: nat, c: nat, e: int, s: Option<int>, m: nat)
    ensures
      var rate: real := if n > 0 then (c as real) / (n as real) else 0.0;
      var ins := Insights(n, c, e, s, m);
      && (HighCompletion in ins <==> rate > 0.8)
      && (LowCompletion in ins <==> rate < 0.4)
      && !(HighCompletion in ins && LowCompletion in ins)
      && (n == 0 ==> LowCompletion in ins)
      && (Underestimating in ins <==> e > 0 && s.Some? && (s.value as real) / (e as real) > 1.2)
      && (Overestimating in ins <==> e > 0 && s.Some? && (s.value as real) / (e as real) < 0.8)
      && (e <= 0 ==> Underestimating !in ins && Overestimating !in ins)
      && (MissingEstimates(m) in ins <==> (m as real) > (n as real) * 0.3)
      && |ins| <= 3
  {
    if n > 0 {
      RatioAbove(c, n, 0.8);
      RatioAbove(c, n, 0.4);
    }
    if e > 0 && s.Some? {
      RatioAbove(s.value, e, 1.2);
      RatioAbove(s.value, e, 0.8);
    }
  }

  /** The output of `analyze_productivity` without its text formatting. */
  datatype Analysis = Analysis(
    days: int,
    totalTasks: nat,
    completedTasks: nat,
    totalEstimated: int,
    totalSpent: Option<int>,
    insights: seq<Insight>)

  function Analyze(tasks: seq<Task>, now: int, days: int): Analysis {
    var recent := Recent(WindowStart(now, days), tasks);
    var completed := Completed(recent);
    Analysis(days, |recent|, |completed|, TotalEstimated(recent), TotalSpent(recent),
      Insights(|recent|, |completed|, TotalEstimated(recent), TotalSpent(recent), Count(NoEstimate(), recent)))
  }

  /**
    The window: a task is recent exactly when it was created or done since
    the start; the completed tasks are the done ones among the recent, in
    order; so no more tasks are completed than are recent.
   */
  lemma WindowSpec(tasks: seq<Task>, now: int, days: int)
    ensures
      var start := WindowStart(now, days);
      var recent := Recent(start, tasks);
      var completed := Completed(recent);
      && (forall t :: t in recent <==> t in tasks && IsRecent(start, t))
      && (forall t :: t in completed <==> t in recent && t.isDone)
      && SubsequenceOf(recent, tasks) && SubsequenceOf(completed, recent)
      && Analyze(tasks, now, days).completedTasks <= Analyze(tasks, now, days).totalTasks
      && Analyze(tasks, now, days).totalTasks == Count((t: Task) => IsRecent(start, t), tasks)
  {
    var start := WindowStart(now, days);
    FilterSpec((t: Task) => IsRecent(start, t), tasks);
    FilterSpec((t: Task) => t.isDone, Recent(start, tasks));
  }

  /** A task without a time estimate counts 0 towards the estimated total, and one without a time spent makes it NaN. */
  lemma {:induction false} TotalsSpec(ts: seq<Task>)
    ensures (forall i :: 0 <= i < |ts| ==> ts[i].timeEstimate >= 0) ==> TotalEstimated(ts) >= 0
    ensures TotalSpent(ts).None? <==> exists i :: 0 <= i < |ts| && ts[i].timeSpent.None?
    decreases ts
  {
    if ts != [] {
      TotalsSpec(ts[1..]);
      assert forall i :: 1 <= i < |ts| ==> ts[1..][i - 1] == ts[i];
    }
  }

  /** The estimated total is additive: the total of two runs of tasks is the sum of their totals. */
  lemma {:induction false} TotalEstimatedAppend(a: seq<Task>, b: seq<Task>)
    ensures TotalEstimated(a + b) == TotalEstimated(a) + TotalEstimated(b)
    decreases a
  {
    if a == [] {
      assert a + b == b;
    } else {
      assert (a + b)[1..] == a[1..] + b;
      TotalEstimatedAppend(a[1..], b);
    }
  }

  /**
    The time-spent total is additive while it is a number, and NaN exactly
    when either part is.
   */
  lemma {:induction false} TotalSpentAppend(a: seq<Task>, b: seq<Task>)
    ensures TotalSpent(a + b).Some? <==> TotalSpent(a).Some? && TotalSpent(b).Some?
    ensures TotalSpent(a + b).Some? ==> TotalSpent(a + b).value == TotalSpent(a).value + TotalSpent(b).value
    decreases a
  {
    if a == [] {
      assert a + b == b;
    } else {
      assert (a + b)[1..] == a[1..] + b;
      TotalSpentAppend(a[1..], b);
    }
  }

  /** One task contributes its estimate, or 0 without one; and its time spent. */
  lemma TotalsOfOne(t: Task)
    ensures TotalEstimated([t]) == t.timeEstimate
    ensures TotalSpent([t]) == t.timeSpent
  {
    assert [t][1..] == [];
  }

  /** Tasks without an estimate add nothing: the total is that of the estimated tasks alone. */
  lemma {:induction false} UnestimatedAddNothing(ts: seq<Task>)
    ensures TotalEstimated(ts) == TotalEstimated(Filter((t: Task) => t.timeEstimate != 0, ts))
    decreases ts
  {
    if ts != [] {
      var f := (t: Task) => t.timeEstimate != 0;
      UnestimatedAddNothing(ts[1..]);
      var h := if f(ts[0]) then [ts[0]] else [];
      assert Filter(f, ts) == h + Filter(f, ts[1..]);
      TotalEstimatedAppend(h, Filter(f, ts[1..]));
      if f(ts[0]) { TotalsOfOne(ts[0]); }
    }
  }
}
