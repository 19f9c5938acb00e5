/**
  The three smart-action tools (src/tools/smart-actions.ts):
  `analyze_productivity`, `suggest_priorities` and `create_daily_plan`.
  Each decodes its arguments, fetches tasks with one façade call, and
  replies with a report computed from them, or with `Error: <message>` when
  the fetch fails.  The fetched tasks are given already shaped as `Task`
  records, and the clock reading `now` is a parameter.
 */
module SmartActions {
  import opened Json
  import opened Schema
  import opened Analytics
  import opened Priorities
  import opened DailyPlan
  import F = Facade

  const AnalyzeFields: seq<Field> := [Field("days", TNumber, Defaulted(Num(7)))]

  const SuggestFields: seq<Field> := [
    Field("projectId", TString, Optional),
    Field("maxTasks", TNumber, Defaulted(Num(5)))
  ]

  const PlanFields: seq<Field> := [
    Field("availableHours", TNumber, Defaulted(Num(8))),
    Field("includeBreaks", TBool, Defaulted(Bool(true)))
  ]

  /** How the task fetch settles: the tasks, or the message of the rejection. */
  datatype Fetched = FetchFailed(message: string) | FetchedTasks(tasks: seq<Task>)

  /** The handler's reply: the report it serialises, or the text of the caught error. */
  datatype Report<T> = Reported(report: T) | ErrorReport(text: string)

  /** Arguments that fail validation never reach the handler; otherwise the handler fetches once and replies. */
  datatype SmartResult<T> = InvalidArgs | Ran(call: F.Call, reply: Report<T>)

  function OnFetch<T>(fetched: Fetched, report: seq<Task> -> T): Report<T> {
    match fetched
    case FetchFailed(message) => ErrorReport("Error: " + message)
    case FetchedTasks(tasks) => Reported(report(tasks))
  }

  function AnalyzeProductivity(args: map<string, Value>, fetched: Fetched, now: int): SmartResult<Analysis> {
    match DecodeArgs(AnalyzeFields, args)
    case None => InvalidArgs
    case Some(p) =>
      match Get(Obj(p), "days")
      case Num(days) => Ran(F.GetTasks, OnFetch(fetched, (tasks: seq<Task>) => Analyze(tasks, now, days)))
      case _ => InvalidArgs
  }

  /** The `suggest_priorities` reply: the suggestions and the `Top <n> priority tasks identified` message. */
  datatype SuggestReport = SuggestReport(suggestions: seq<Suggestion>, message: string)

  function SuggestReportOf(suggestions: seq<Suggestion>): SuggestReport {
    SuggestReport(suggestions, "Top " + IntToString(|suggestions|) + " priority tasks identified")
  }

  function SuggestPrioritiesTool(args: map<string, Value>, fetched: Fetched, now: int): SmartResult<SuggestReport> {
    match DecodeArgs(SuggestFields, args)
    case None => InvalidArgs
    case Some(p) =>
      match Get(Obj(p), "maxTasks")
      case Num(maxTasks) =>
        var projectId := Get(Obj(p), "projectId");
        Ran(F.GetCurrentContextTasks,
          OnFetch(fetched, (tasks: seq<Task>) => SuggestReportOf(Suggestions(tasks, projectId, maxTasks, now))))
      case _ => InvalidArgs
  }

  function CreateDailyPlanTool(args: map<string, Value>, fetched: Fetched): SmartResult<Plan> {
    match DecodeArgs(PlanFields, args)
    case None => InvalidArgs
    case Some(p) =>
      match (Get(Obj(p), "availableHours"), Get(Obj(p), "includeBreaks"))
      case (Num(hours), Bool(breaks)) =>
        Ran(F.GetCurrentContextTasks, OnFetch(fetched, (tasks: seq<Task>) => MakePlan(tasks, hours, breaks)))
      case _ => InvalidArgs
  }

  // ---------------------------------------------------------------------------
  // What the tools promise

  /** The `days` a call passes, 7 when left out. */
  function DaysArg(args: map<string, Value>): Value {
    if "days" in args && args["days"] != Undefined then args["days"] else Num(7)
  }

  /**
    `analyze_productivity` reads every task, analyses the window of the
    `days` it was given (7 when left out), and rejects a `days` that is not
    a number.
   */
  lemma AnalyzeSpec(args: map<string, Value>, fetched: Fetched, now: int)
    ensures
      var r := AnalyzeProductivity(args, fetched, now);
      && (r.InvalidArgs? <==> !DaysArg(args).Num?)
      && (DaysArg(args).Num? ==> r.call == F.GetTasks)
      && (DaysArg(args).Num? && fetched.FetchedTasks? ==> r.reply == Reported(Analyze(fetched.tasks, now, DaysArg(args).n)))
      && (DaysArg(args).Num? && fetched.FetchFailed? ==> r.reply == ErrorReport("Error: " + fetched.message))
  {
    DecodeArgsSpec(AnalyzeFields, args);
  }

  /** The `projectId` a call passes, `undefined` when left out. */
  function ProjectIdArg(args: map<string, Value>): Value {
    if "projectId" in args then args["projectId"] else Undefined
  }

  /** The `maxTasks` a call passes, 5 when left out. */
  function MaxTasksArg(args: map<string, Value>): Value {
    if "maxTasks" in args && args["maxTasks"] != Undefined then args["maxTasks"] else Num(5)
  }

  /** The `suggest_priorities` arguments decode when `projectId` is absent or a string and `maxTasks` is a number. */
  lemma SuggestArgs(args: map<string, Value>)
    ensures DecodeArgs(SuggestFields, args).Some? <==>
      (ProjectIdArg(args) == Undefined || ProjectIdArg(args).Str?) && MaxTasksArg(args).Num?
    ensures DecodeArgs(SuggestFields, args).Some? ==>
      && Get(Obj(DecodeArgs(SuggestFields, args).value), "projectId") == ProjectIdArg(args)
      && Get(Obj(DecodeArgs(SuggestFields, args).value), "maxTasks") == MaxTasksArg(args)
  {
    DecodeArgsSpec(SuggestFields, args);
    var p := DecodeArgs(SuggestFields, args);
    if p.Some? {
      if "projectId" in args && args["projectId"] != Undefined {
        assert SuggestFields[0].name == "projectId";
      } else {
        assert "projectId" !in OutputNames(SuggestFields, 0, args);
      }
    }
  }

  /**
    `suggest_priorities` reads the current context's tasks and suggests up
    to `maxTasks` of them (5 when left out) from the project `projectId`
    when one is passed; a `projectId` that is not a string or a `maxTasks`
    that is not a number are rejected.
   */
  lemma SuggestSpec(args: map<string, Value>, fetched: Fetched, now: int)
    ensures
      var r := SuggestPrioritiesTool(args, fetched, now);
      var valid := (ProjectIdArg(args) == Undefined || ProjectIdArg(args).Str?) && MaxTasksArg(args).Num?;
      && (r.InvalidArgs? <==> !valid)
      && (valid ==> r.call == F.GetCurrentContextTasks)
      && (valid && fetched.FetchedTasks? ==>
            r.reply == Reported(SuggestReportOf(Suggestions(fetched.tasks, ProjectIdArg(args), MaxTasksArg(args).n, now))))
      && (valid && fetched.FetchFailed? ==> r.reply == ErrorReport("Error: " + fetched.message))
  {
    SuggestArgs(args);
  }

  /** The `availableHours` a call passes, 8 when left out. */
  function HoursArg(args: map<string, Value>): Value {
    if "availableHours" in args && args["availableHours"] != Undefined then args["availableHours"] else Num(8)
  }

  /** The `includeBreaks` a call passes, `true` when left out. */
  function BreaksArg(args: map<string, Value>): Value {
    if "includeBreaks" in args && args["includeBreaks"] != Undefined then args["includeBreaks"] else Bool(true)
  }

  /** The `create_daily_plan` arguments decode when `availableHours` is a number and `includeBreaks` a boolean. */
  lemma PlanArgs(args: map<string, Value>)
    ensures DecodeArgs(PlanFields, args).Some? <==> HoursArg(args).Num? && BreaksArg(args).Bool?
    ensures DecodeArgs(PlanFields, args).Some? ==>
      && Get(Obj(DecodeArgs(PlanFields, args).value), "availableHours") == HoursArg(args)
      && Get(Obj(DecodeArgs(PlanFields, args).value), "includeBreaks") == BreaksArg(args)
  {
    DecodeArgsSpec(PlanFields, args);
  }

  /**
    `create_daily_plan` reads the current context's tasks and plans the
    given hours (8 when left out), keeping 15% for breaks unless
    `includeBreaks` is passed as `false`; arguments of the wrong type are
    rejected.
   */
  lemma PlanToolSpec(args: map<string, Value>, fetched: Fetched)
    ensures
      var r := CreateDailyPlanTool(args, fetched);
      var valid := HoursArg(args).Num? && BreaksArg(args).Bool?;
      && (r.InvalidArgs? <==> !valid)
      && (valid ==> r.call == F.GetCurrentContextTasks)
      && (valid && fetched.FetchedTasks? ==> r.reply == Reported(MakePlan(fetched.tasks, HoursArg(args).n, BreaksArg(args).b)))
      && (valid && fetched.FetchFailed? ==> r.reply == ErrorReport("Error: " + fetched.message))
  {
    PlanArgs(args);
  }

  /** With no arguments, `analyze_productivity` analyses the last seven days. */
  lemma AnalyzeDefaults(tasks: seq<Task>, now: int)
    ensures AnalyzeProductivity(map[], FetchedTasks(tasks), now) == Ran(F.GetTasks, Reported(Analyze(tasks, now, 7)))
  {
    AnalyzeSpec(map[], FetchedTasks(tasks), now);
  }

  /** With no arguments, `suggest_priorities` suggests at most five tasks from all projects. */
  lemma SuggestDefaults(tasks: seq<Task>, now: int)
    ensures SuggestPrioritiesTool(map[], FetchedTasks(tasks), now) ==
      Ran(F.GetCurrentContextTasks, Reported(SuggestReportOf(Suggestions(tasks, Undefined, 5, now))))
  {
    SuggestSpec(map[], FetchedTasks(tasks), now);
  }

  /** With no arguments, `create_daily_plan` plans eight hours with 72 minutes of breaks and 408 minutes of work. */
  lemma PlanDefaults(tasks: seq<Task>)
    ensures CreateDailyPlanTool(map[], FetchedTasks(tasks)) == Ran(F.GetCurrentContextTasks, Reported(MakePlan(tasks, 8, true)))
    ensures MakePlan(tasks, 8, true).workMinutes == 408 && MakePlan(tasks, 8, true).breakMinutes == 72
  {
    PlanToolSpec(map[], FetchedTasks(tasks));
  }
}
