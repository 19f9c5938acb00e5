/**
  `suggest_priorities` (src/tools/smart-actions.ts:77-158) and
  `explainPriority` (src/tools/smart-actions.ts:276-295): the additive
  priority score of a pending task, its reasons, and the top-N selection by
  a stable sort on descending score.
 */
module Priorities {
  import opened Json
  import opened Seqs
  import opened Analytics

  /** One exclusive band for a truthy due date: due within 1, 3 or 7 days. */
  function DueBand(t: Task, now: int): int {
    if t.dueDate == 0 then 0
    else if t.dueDate - now < DayMs then 50
    else if t.dueDate - now < 3 * DayMs then 30
    else if t.dueDate - now < 7 * DayMs then 10
    else 0
  }

  function EstimateBonus(t: Task): int {
    if t.timeEstimate == 0 then 15 else 0
  }

  function SubtaskBonus(t: Task): int {
    if t.subTaskCount > 0 then 20 else 0
  }

  /** 10 for a task older than a week, 15 more when older than two weeks; nothing when `created` is missing. */
  function AgeBonus(t: Task, now: int): int {
    if t.created.None? then 0
    else
      (if now - t.created.value > 7 * DayMs then 10 else 0) + (if now - t.created.value > 14 * DayMs then 15 else 0)
  }

  function Score(t: Task, now: int): (s: int)
    ensures 0 <= s <= 110
  {
    DueBand(t, now) + EstimateBonus(t) + SubtaskBonus(t) + AgeBonus(t, now)
  }

  /**
    The parts of the score are the source's tests on real day counts: the
    due band is 50, 30 or 10 exactly when the days until the due date are
    below 1, 3 or 7 and it is truthy, and the age parts count from 7 and 14
    days.
   */
  lemma ScoreMeaning(t: Task, now: int)
    ensures
      var daysUntilDue := ((t.dueDate - now) as real) / (DayMs as real);
      && (DueBand(t, now) == 50 <==> t.dueDate != 0 && daysUntilDue < 1.0)
      && (DueBand(t, now) == 30 <==> t.dueDate != 0 && 1.0 <= daysUntilDue < 3.0)
      && (DueBand(t, now) == 10 <==> t.dueDate != 0 && 3.0 <= daysUntilDue < 7.0)
      && (DueBand(t, now) == 0 <==> t.dueDate == 0 || daysUntilDue >= 7.0)
    ensures t.created.Some? ==>
      var ageInDays := ((now - t.created.value) as real) / (DayMs as real);
      && (AgeBonus(t, now) == 25 <==> ageInDays > 14.0)
      && (AgeBonus(t, now) == 10 <==> 7.0 < ageInDays <= 14.0)
      && (AgeBonus(t, now) == 0 <==> ageInDays <= 7.0)
  {
    RatioAbove(t.dueDate - now, DayMs, 1.0);
    RatioAbove(t.dueDate - now, DayMs, 3.0);
    RatioAbove(t.dueDate - now, DayMs, 7.0);
    if t.created.Some? {
      RatioAbove(now - t.created.value, DayMs, 7.0);
      RatioAbove(now - t.created.value, DayMs, 14.0);
    }
  }

  /** The scoring closure, adding to `score` as each test passes. */
  method PriorityScore(task: Task, now: int) returns (score: int)
    ensures score == Score(task, now)
  {
    score := 0;
    if task.dueDate != 0 {
      var untilDue := task.dueDate - now;
      if untilDue < DayMs {
        score := score + 50;
      } else if untilDue < 3 * DayMs {
        score := score + 30;
      } else if untilDue < 7 * DayMs {
        score := score + 10;
      }
    }
    if task.timeEstimate == 0 {
      score := score + 15;
    }
    if task.subTaskCount > 0 {
      score := score + 20;
    }
    if task.created.Some? {
      var age := now - task.created.value;
      if age > 7 * DayMs {
        score := score + 10;
      }
      if age > 14 * DayMs {
        score := score + 15;
      }
    }
  }

  /** The reasons `explainPriority` gives, one tag per message. */
  datatype Reason = UrgentDeadline | NearDeadline | NoEstimateYet | Subtasks(count: nat) | OldTask

  function Reasons(t: Task, now: int): seq<Reason> {
    (if t.dueDate != 0 && t.dueDate - now < DayMs then [UrgentDeadline]
     else if t.dueDate != 0 && t.dueDate - now < 3 * DayMs then [NearDeadline]
     else [])
    + (if t.timeEstimate == 0 then [NoEstimateYet] else [])
    + (if t.subTaskCount > 0 then [Subtasks(t.subTaskCount)] else [])
    + (if t.created.Some? && now - t.created.value > 14 * DayMs then [OldTask] else [])
  }

  /** `explainPriority`; like the source it ignores the score it is given. */
  method ExplainPriority(task: Task, score: int, now: int) returns (reasons: seq<Reason>)
    ensures reasons == Reasons(task, now)
  {
    reasons := [];
    if task.dueDate != 0 {
      var untilDue := task.dueDate - now;
      if untilDue < DayMs {
        reasons := reasons + [UrgentDeadline];
      } else if untilDue < 3 * DayMs {
        reasons := reasons + [NearDeadline];
      }
    }
    if task.timeEstimate == 0 {
      reasons := reasons + [NoEstimateYet];
    }
    if task.subTaskCount > 0 {
      reasons := reasons + [Subtasks(task.subTaskCount)];
    }
    if task.created.Some? && now - task.created.value > 14 * DayMs {
      reasons := reasons + [OldTask];
    }
  }

  /**
    Each reason names a part of the score: urgent and near deadlines are the
    50 and 30 bands, a missing estimate and subtasks their bonuses, and an
    old task the full age bonus.  The 10-point week band and the 10-point
    week-old age are scored but never explained.
   */
  lemma ReasonsMatchScore(t: Task, now: int)
    ensures UrgentDeadline in Reasons(t, now) <==> DueBand(t, now) == 50
    ensures NearDeadline in Reasons(t, now) <==> DueBand(t, now) == 30
    ensures NoEstimateYet in Reasons(t, now) <==> EstimateBonus(t) == 15
    ensures (exists k :: Subtasks(k) in Reasons(t, now)) <==> SubtaskBonus(t) == 20
    ensures OldTask in Reasons(t, now) <==> AgeBonus(t, now) == 25
    ensures |Reasons(t, now)| <= 4
  {
    if SubtaskBonus(t) == 20 {
      assert Subtasks(t.subTaskCount) in Reasons(t, now);
    }
  }

  // ---------------------------------------------------------------------------
  // Top-N selection

  datatype Scored = Scored(task: Task, score: int)

  function ScoreWith(now: int): Task -> Scored {
    (t: Task) => Scored(t, Score(t, now))
  }

  function HasScore(v: int): Scored -> bool {
    (x: Scored) => x.score == v
  }

  predicate NonIncreasing(r: seq<Scored>) {
    forall i, j :: 0 <= i < j < |r| ==> r[i].score >= r[j].score
  }

  /** Inserts `x` before the first element that does not outscore it. */
  function Insert(x: Scored, r: seq<Scored>): seq<Scored>
    decreases r
  {
    if r == [] || x.score >= r[0].score then [x] + r else [r[0]] + Insert(x, r[1..])
  }

  /** `sort((a, b) => b.score - a.score)`: a stable sort on descending score. */
  function SortByScore(s: seq<Scored>): seq<Scored>
    decreases s
  {
    if s == [] then [] else Insert(s[0], SortByScore(s[1..]))
  }

  lemma {:induction false} InsertPermutes(x: Scored, r: seq<Scored>)
    ensures multiset(Insert(x, r)) == multiset(r) + multiset{x}
    decreases r
  {
    if r != [] && x.score < r[0].score {
      InsertPermutes(x, r[1..]);
      assert r == [r[0]] + r[1..];
    }
  }

  lemma {:induction false} InsertSorted(x: Scored, r: seq<Scored>)
    requires NonIncreasing(r)
    ensures NonIncreasing(Insert(x, r))
    decreases r
  {
    if r == [] || x.score >= r[0].score {
      forall k | 0 <= k < |r|
        ensures r[k].score <= x.score
      {
        assert k == 0 || r[0].score >= r[k].score;
      }
      ConsSorted(x, r);
    } else {
      InsertSorted(x, r[1..]);
      InsertBound(x, r[1..], r[0].score);
      ConsSorted(r[0], Insert(x, r[1..]));
    }
  }

  /** Putting an element in front of a sorted list that it outscores keeps the list sorted. */
  lemma ConsSorted(y: Scored, l: seq<Scored>)
    requires NonIncreasing(l)
    requires forall k :: 0 <= k < |l| ==> l[k].score <= y.score
    ensures NonIncreasing([y] + l)
  {
    var c := [y] + l;
    forall i, j | 0 <= i < j < |c|
      ensures c[i].score >= c[j].score
    {
      assert c[j] == l[j - 1];
      if i > 0 {
        assert c[i] == l[i - 1];
      }
    }
  }

  /** Inserting keeps every score under a bound that all the scores respect. */
  lemma {:induction false} InsertBound(x: Scored, r: seq<Scored>, b: int)
    requires x.score <= b
    requires forall k :: 0 <= k < |r| ==> r[k].score <= b
    ensures forall k :: 0 <= k < |Insert(x, r)| ==> Insert(x, r)[k].score <= b
    decreases r
  {
    if r == [] || x.score >= r[0].score {
      assert forall k :: 0 < k < |r| + 1 ==> ([x] + r)[k] == r[k - 1];
    } else {
      InsertBound(x, r[1..], b);
      var rest := Insert(x, r[1..]);
      assert forall k :: 0 < k < |rest| + 1 ==> ([r[0]] + rest)[k] == rest[k - 1];
    }
  }

  lemma {:induction false} InsertStable(x: Scored, r: seq<Scored>, v: int)
    ensures Filter(HasScore(v), Insert(x, r)) == (if x.score == v then [x] else []) + Filter(HasScore(v), r)
    decreases r
  {
    if r == [] || x.score >= r[0].score {
      assert ([x] + r)[1..] == r;
    } else {
      var rest := Insert(x, r[1..]);
      InsertStable(x, r[1..], v);
      assert ([r[0]] + rest)[1..] == rest;
      assert r[0].score != v || x.score != v;
    }
  }

  /**
    The sorted list is ordered by non-increasing score, is a permutation of
    the input, and keeps the input order among tasks of equal score.
   */
  lemma {:induction false} SortSpec(s: seq<Scored>, v: int)
    ensures NonIncreasing(SortByScore(s))
    ensures multiset(SortByScore(s)) == multiset(s)
    ensures Filter(HasScore(v), SortByScore(s)) == Filter(HasScore(v), s)
    decreases s
  {
    SortSorted(s);
    SortPermutes(s);
    SortStable(s, v);
  }

  lemma {:induction false} SortSorted(s: seq<Scored>)
    ensures NonIncreasing(SortByScore(s))
    decreases s
  {
    if s != [] {
      SortSorted(s[1..]);
      InsertSorted(s[0], SortByScore(s[1..]));
    }
  }

  lemma {:induction false} SortPermutes(s: seq<Scored>)
    ensures multiset(SortByScore(s)) == multiset(s)
    decreases s
  {
    if s != [] {
      SortPermutes(s[1..]);
      InsertPermutes(s[0], SortByScore(s[1..]));
      assert s == [s[0]] + s[1..];
    }
  }

  lemma {:induction false} SortStable(s: seq<Scored>, v: int)
    ensures Filter(HasScore(v), SortByScore(s)) == Filter(HasScore(v), s)
    decreases s
  {
    if s != [] {
      SortStable(s[1..], v);
      InsertStable(s[0], SortByScore(s[1..]), v);
    }
  }

  /** `Array.prototype.slice(0, k)`'s end: a negative count is taken from the end, and it never passes the length. */
  function SliceEnd(len: nat, k: int): (e: nat)
    ensures e <= len
    ensures k >= 0 ==> e == if k < len then k else len
    ensures k < 0 ==> e == if len + k > 0 then len + k else 0
  {
    if k < 0 then (if len + k > 0 then len + k else 0) else if k < len then k else len
  }

  datatype Suggestion = Suggestion(id: Value, title: Value, priorityScore: int, reasons: seq<Reason>)

  function Suggest(now: int): Scored -> Suggestion {
    (x: Scored) => Suggestion(x.task.id, x.task.title, x.score, Reasons(x.task, now))
  }

  /** The not-done tasks of the project when `projectId` is truthy, of all tasks otherwise. */
  function Candidates(tasks: seq<Task>, projectId: Value): seq<Task> {
    var scoped := if Truthy(projectId) then Filter((t: Task) => t.projectId == projectId, tasks) else tasks;
    Filter((t: Task) => !t.isDone, scoped)
  }

  /** The scored candidates in the order the reply lists them. */
  function Ranked(tasks: seq<Task>, projectId: Value, now: int): seq<Scored> {
    SortByScore(Map(ScoreWith(now), Candidates(tasks, projectId)))
  }

  function TopScored(tasks: seq<Task>, projectId: Value, maxTasks: int, now: int): seq<Scored> {
    var ranked := Ranked(tasks, projectId, now);
    ranked[..SliceEnd(|ranked|, maxTasks)]
  }

  function Suggestions(tasks: seq<Task>, projectId: Value, maxTasks: int, now: int): seq<Suggestion> {
    Map(Suggest(now), TopScored(tasks, projectId, maxTasks, now))
  }

  /**
    The suggestion pipeline as the handler runs it: filter, score each task
    with the scoring closure, sort, slice, and explain each selected task.
   */
  method SuggestPriorities(tasks: seq<Task>, projectId: Value, maxTasks: int, now: int)
    returns (suggestions: seq<Suggestion>)
    ensures suggestions == Suggestions(tasks, projectId, maxTasks, now)
  {
    var pending := Candidates(tasks, projectId);
    var scored: seq<Scored> := [];
    var i := 0;
    while i < |pending|
      invariant 0 <= i <= |pending|
      invariant scored == Map(ScoreWith(now), pending[..i])
    {
      var score := PriorityScore(pending[i], now);
      MapPrefixStep(ScoreWith(now), pending, i);
      scored := scored + [Scored(pending[i], score)];
      i := i + 1;
    }
    assert pending[..i] == pending;
    var ranked := SortByScore(scored);
    var top := ranked[..SliceEnd(|ranked|, maxTasks)];
    suggestions := [];
    var j := 0;
    while j < |top|
      invariant 0 <= j <= |top|
      invariant suggestions == Map(Suggest(now), top[..j])
    {
      var reasons := ExplainPriority(top[j].task, top[j].score, now);
      MapPrefixStep(Suggest(now), top, j);
      suggestions := suggestions + [Suggestion(top[j].task.id, top[j].task.title, top[j].score, reasons)];
      j := j + 1;
    }
    assert top[..j] == top;
  }

  /** The candidates are the not-done tasks, of the given project when one is given. */
  lemma CandidatesSpec(tasks: seq<Task>, projectId: Value)
    ensures forall t :: t in Candidates(tasks, projectId) ==>
      t in tasks && !t.isDone && (Truthy(projectId) ==> t.projectId == projectId)
    ensures forall t :: t in tasks && !t.isDone && (Truthy(projectId) ==> t.projectId == projectId) ==>
      t in Candidates(tasks, projectId)
  {
    var scoped := if Truthy(projectId) then Filter((t: Task) => t.projectId == projectId, tasks) else tasks;
    FilterSpec((t: Task) => !t.isDone, scoped);
    if Truthy(projectId) {
      FilterSpec((t: Task) => t.projectId == projectId, tasks);
    }
  }

  /** The ranking lists every candidate once with its score, best first. */
  lemma RankedSpec(tasks: seq<Task>, projectId: Value, now: int)
    ensures
      var pending := Candidates(tasks, projectId);
      var ranked := Ranked(tasks, projectId, now);
      && |ranked| == |pending|
      && NonIncreasing(ranked)
      && multiset(ranked) == multiset(Map(ScoreWith(now), pending))
      && forall i :: 0 <= i < |ranked| ==> ranked[i].task in pending && ranked[i].score == Score(ranked[i].task, now)
  {
    var pending := Candidates(tasks, projectId);
    var scored := Map(ScoreWith(now), pending);
    var ranked := SortByScore(scored);
    SortSpec(scored, 0);
    assert |ranked| == |scored| by {
      assert |multiset(ranked)| == |multiset(scored)|;
    }
    forall i | 0 <= i < |ranked|
      ensures ranked[i].task in pending && ranked[i].score == Score(ranked[i].task, now)
    {
      assert ranked[i] in multiset(scored);
      var m :| 0 <= m < |scored| && scored[m] == ranked[i];
    }
  }

  /** No candidate left out of the top slice outscores one inside it. */
  lemma TopIsBest(tasks: seq<Task>, projectId: Value, maxTasks: int, now: int, t: Task, i: nat)
    requires t in Candidates(tasks, projectId)
    requires t !in Map((x: Scored) => x.task, TopScored(tasks, projectId, maxTasks, now))
    requires i < |TopScored(tasks, projectId, maxTasks, now)|
    ensures Score(t, now) <= TopScored(tasks, projectId, maxTasks, now)[i].score
  {
    var pending := Candidates(tasks, projectId);
    var ranked := Ranked(tasks, projectId, now);
    RankedSpec(tasks, projectId, now);
    var top := TopScored(tasks, projectId, maxTasks, now);
    var tops := Map((x: Scored) => x.task, top);
    var scored := Map(ScoreWith(now), pending);
    var m :| 0 <= m < |pending| && pending[m] == t;
    assert scored[m] == Scored(t, Score(t, now));
    assert scored[m] in multiset(ranked);
    var j :| 0 <= j < |ranked| && ranked[j] == scored[m];
    forall k | 0 <= k < |top|
      ensures ranked[k].task != t
    {
      assert top[k] == ranked[k];
      assert tops[k] == ranked[k].task && tops[k] in tops;
    }
    assert top[i] == ranked[i];
  }

  /**
    `suggest_priorities` returns at most `maxTasks` suggestions (all the
    candidates when there are fewer), in non-increasing score; each is a
    not-done task, of the given project when one is given, with its score
    and reasons; and no candidate left out outscores one that was chosen.
   */
  lemma SuggestionsSpec(tasks: seq<Task>, projectId: Value, maxTasks: int, now: int)
    ensures
      var r := Suggestions(tasks, projectId, maxTasks, now);
      var top := TopScored(tasks, projectId, maxTasks, now);
      && |r| == |top| == SliceEnd(|Candidates(tasks, projectId)|, maxTasks)
      && (maxTasks >= 0 ==> |r| <= maxTasks)
      && (forall i, j :: 0 <= i < j < |r| ==> r[i].priorityScore >= r[j].priorityScore)
      && (forall i :: 0 <= i < |r| ==>
            && top[i].task in tasks && !top[i].task.isDone
            && (Truthy(projectId) ==> top[i].task.projectId == projectId)
            && r[i] == Suggestion(top[i].task.id, top[i].task.title, Score(top[i].task, now), Reasons(top[i].task, now)))
      && (forall t, i :: t in Candidates(tasks, projectId) && t !in Map((x: Scored) => x.task, top) && 0 <= i < |top| ==>
            Score(t, now) <= top[i].score)
  {
    CandidatesSpec(tasks, projectId);
    RankedSpec(tasks, projectId, now);
    var ranked := Ranked(tasks, projectId, now);
    var top := TopScored(tasks, projectId, maxTasks, now);
    assert forall i :: 0 <= i < |top| ==> top[i] == ranked[i];
    forall t, i | t in Candidates(tasks, projectId) && t !in Map((x: Scored) => x.task, top) && 0 <= i < |top|
      ensures Score(t, now) <= top[i].score
    {
      TopIsBest(tasks, projectId, maxTasks, now, t, i);
    }
  }
}
