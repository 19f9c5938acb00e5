/**
  The task tools (src/tools/tasks.ts): `list_tasks`, `create_task`,
  `update_task`, `complete_task` and `batch_update_tasks`.  Each tool is a
  function of the call's arguments and of how the one façade request it
  makes settles.
 */
module Tasks {
  import opened Json
  import opened Seqs
  import opened Schema
  import opened Bridge
  import opened Replies
  import F = Facade

  const ListTasksFields: seq<Field> := [
    Field("projectId", TString, Optional),
    Field("includeArchived", TBool, Defaulted(Bool(false))),
    Field("currentContextOnly", TBool, Defaulted(Bool(false)))
  ]

  const CreateTaskFields: seq<Field> := [
    Field("title", TString, Required),
    Field("projectId", TString, Optional),
    Field("notes", TString, Optional),
    Field("timeEstimate", TNumber, Optional),
    Field("tagIds", TArray(TString), Optional),
    Field("parentId", TString, Optional)
  ]

  const UpdateTaskFields: seq<Field> := [
    Field("taskId", TString, Required),
    Field("title", TString, Optional),
    Field("notes", TString, Optional),
    Field("timeEstimate", TNumber, Optional),
    Field("isDone", TBool, Optional),
    Field("projectId", TString, Optional)
  ]

  const CompleteTaskFields: seq<Field> := [Field("taskId", TString, Required)]

  const BatchOperationTypes: seq<string> := ["create", "update", "delete", "reorder"]

  const OperationFields: seq<Field> := [
    Field("type", TEnum(BatchOperationTypes), Required),
    Field("taskId", TString, Optional),
    Field("tempId", TString, Optional),
    Field("data", TRecord, Optional),
    Field("updates", TRecord, Optional),
    Field("taskIds", TArray(TString), Optional)
  ]

  const BatchFields: seq<Field> := [
    Field("projectId", TString, Required),
    Field("operations", TArray(TObject(OperationFields)), Required)
  ]

  /** The seven keys of a task in the `list_tasks` reply. */
  const SummaryKeys: set<string> := {"id", "title", "isDone", "timeEstimate", "timeSpent", "projectId", "notes"}

  function Summary(t: Value): Value {
    Obj(map[
      "id" := Get(t, "id"), "title" := Get(t, "title"), "isDone" := Get(t, "isDone"),
      "timeEstimate" := Get(t, "timeEstimate"), "timeSpent" := Get(t, "timeSpent"),
      "projectId" := Get(t, "projectId"), "notes" := Get(t, "notes")])
  }

  /** `t => t.projectId === projectId`. */
  function InProject(projectId: Value): Value -> bool {
    (t: Value) => Get(t, "projectId") == projectId
  }

  predicate HasNullish(items: seq<Value>) {
    exists i :: 0 <= i < |items| && Nullish(items[i])
  }

  /** The tasks `list_tasks` keeps: those of the project when `projectId` is truthy, all of them otherwise. */
  function Kept(projectId: Value, items: seq<Value>): seq<Value> {
    if Truthy(projectId) then Filter(InProject(projectId), items) else items
  }

  /**
    The reply to the fetched tasks: `filter`, `length` and `map` on
    anything but an array, and reading a field of a `null` or `undefined`
    task, raise a TypeError.
   */
  function ListTasksReply(projectId: Value, v: Value): Envelope {
    if !v.Arr? || HasNullish(v.items) then TypeFailure
    else
      var kept := Kept(projectId, v.items);
      Ok(Structured(Obj(map["count" := Num(|kept|), "tasks" := Arr(Map(Summary, kept))])))
  }

  function ListTasks(args: map<string, Value>, o: Outcome): ToolResult {
    match DecodeArgs(ListTasksFields, args)
    case None => InvalidParams
    case Some(p) =>
      var call := if Get(Obj(p), "currentContextOnly") == Bool(true) then F.GetCurrentContextTasks else F.GetTasks;
      Handled(call, Respond(o, (v: Value) => ListTasksReply(Get(Obj(p), "projectId"), v)))
  }

  function CreateTask(args: map<string, Value>, o: Outcome): ToolResult {
    match DecodeArgs(CreateTaskFields, args)
    case None => InvalidParams
    case Some(p) =>
      var message := "Task created: " + ToJsString(Get(Obj(p), "title"));
      Handled(F.CreateTask(Obj(p)), Respond(o, (v: Value) => Ok(Structured(Created("taskId", v, message)))))
  }

  function UpdateTask(args: map<string, Value>, o: Outcome): ToolResult {
    match DecodeArgs(UpdateTaskFields, args)
    case None => InvalidParams
    case Some(p) =>
      match Get(Obj(p), "taskId")
      case Str(taskId) =>
        Handled(F.UpdateTask(taskId, Obj(p - {"taskId"})),
          Respond(o, (v: Value) => Ok(Structured(Done("Task updated successfully")))))
      case _ => InvalidParams
  }

  function CompleteTask(args: map<string, Value>, o: Outcome): ToolResult {
    match DecodeArgs(CompleteTaskFields, args)
    case None => InvalidParams
    case Some(p) =>
      match Get(Obj(p), "taskId")
      case Str(taskId) =>
        Handled(F.UpdateTask(taskId, Obj(map["isDone" := Bool(true)])),
          Respond(o, (v: Value) => Ok(Structured(Done("Task marked as complete")))))
      case _ => InvalidParams
  }

  function BatchUpdateTasks(args: map<string, Value>, o: Outcome): ToolResult {
    match DecodeFields(TObject(BatchFields), 0, args)
    case None => InvalidParams
    case Some(p) =>
      match Get(Obj(p), "projectId")
      case Str(projectId) =>
        Handled(F.BatchUpdate(projectId, Get(Obj(p), "operations")), Respond(o, (v: Value) => Ok(Structured(v))))
      case _ => InvalidParams
  }

  // ---------------------------------------------------------------------------
  // What the tools promise

  /** `list_tasks` asks for the current context's tasks exactly when `currentContextOnly` is passed as `true`. */
  lemma ListTasksFetch(args: map<string, Value>, o: Outcome)
    requires ListTasks(args, o).Handled?
    ensures ListTasks(args, o).call ==
      if "currentContextOnly" in args && args["currentContextOnly"] == Bool(true) then F.GetCurrentContextTasks
      else F.GetTasks
  {
    assert DistinctNames(ListTasksFields);
    DecodeArgsSpec(ListTasksFields, args);
    assert ListTasksFields[2].name == "currentContextOnly";
  }

  /** A summary has exactly the seven keys, each read from the task. */
  lemma SummarySpec(t: Value)
    ensures Summary(t).fields.Keys == SummaryKeys
    ensures forall k :: k in SummaryKeys ==> Get(Summary(t), k) == Get(t, k)
  {
  }

  /** `tasks` are the reply's summaries of `kept`: one per task, in order, with the seven keys read from it. */
  predicate SummariesOf(tasks: seq<Value>, kept: seq<Value>) {
    && |tasks| == |kept|
    && forall i :: 0 <= i < |tasks| ==>
         tasks[i].Obj? && tasks[i].fields.Keys == SummaryKeys
         && forall k :: k in SummaryKeys ==> Get(tasks[i], k) == Get(kept[i], k)
  }

  /**
    On a fetched array of tasks, `list_tasks` replies with the count and the
    seven-key summaries of the tasks it keeps (`KeptSpec` says which).
   */
  lemma ListTasksOutput(projectId: Value, items: seq<Value>)
    requires !HasNullish(items)
    ensures ListTasksReply(projectId, Arr(items)).Ok?
    ensures
      var out := ListTasksReply(projectId, Arr(items)).body.value;
      && Get(out, "count") == Num(|Get(out, "tasks").items|)
      && SummariesOf(Get(out, "tasks").items, Kept(projectId, items))
  {
    ListTasksReplyOk(projectId, items);
    SummariesSpec(Kept(projectId, items));
  }

  lemma ListTasksReplyOk(projectId: Value, items: seq<Value>)
    requires !HasNullish(items)
    ensures ListTasksReply(projectId, Arr(items)).Ok? && ListTasksReply(projectId, Arr(items)).body.Structured?
    ensures Get(ListTasksReply(projectId, Arr(items)).body.value, "count") == Num(|Kept(projectId, items)|)
    ensures Get(ListTasksReply(projectId, Arr(items)).body.value, "tasks") == Arr(Map(Summary, Kept(projectId, items)))
  {
    assert "count"[0] != "tasks"[0];
    GetOfPair("count", Num(|Kept(projectId, items)|), "tasks", Arr(Map(Summary, Kept(projectId, items))));
  }

  /** Each summary has the seven keys, read from the task in the same position. */
  lemma SummariesSpec(kept: seq<Value>)
    ensures SummariesOf(Map(Summary, kept), kept)
  {
    forall i | 0 <= i < |kept|
      ensures Map(Summary, kept)[i].Obj? && Map(Summary, kept)[i].fields.Keys == SummaryKeys
      ensures forall k :: k in SummaryKeys ==> Get(Map(Summary, kept)[i], k) == Get(kept[i], k)
    {
      SummarySpec(kept[i]);
    }
  }

  /** With a truthy `projectId` the kept tasks are exactly the project's, in order; otherwise all tasks. */
  lemma KeptSpec(projectId: Value, items: seq<Value>)
    ensures Truthy(projectId) ==>
      var kept := Kept(projectId, items);
      && SubsequenceOf(kept, items)
      && |kept| == Count(InProject(projectId), items)
      && forall t :: t in kept <==> t in items && Get(t, "projectId") == projectId
    ensures !Truthy(projectId) ==> Kept(projectId, items) == items
  {
    if Truthy(projectId) {
      FilterSpec(InProject(projectId), items);
    }
  }

  /** A fetched value that is not an array, or an array with a `null` or `undefined` task, ends in the error envelope. */
  lemma ListTasksTypeErrors(projectId: Value, v: Value)
    requires !v.Arr? || HasNullish(v.items)
    ensures IsError(ListTasksReply(projectId, v))
  {
  }

  /**
    The decoded arguments of `list_tasks`: validation fails only on a
    mistyped field; the project id is the caller's or absent, and
    `currentContextOnly` is the caller's or `false`.
   */
  lemma ListTasksArgs(args: map<string, Value>)
    ensures DecodeArgs(ListTasksFields, args).Some? <==>
      Accepts(ListTasksFields[0], args) && Accepts(ListTasksFields[1], args) && Accepts(ListTasksFields[2], args)
    ensures DecodeArgs(ListTasksFields, args).Some? ==>
      var p := Obj(DecodeArgs(ListTasksFields, args).value);
      && Get(p, "projectId") == (if Supplied(ListTasksFields[0], args) then args["projectId"] else Undefined)
      && Get(p, "currentContextOnly") == (if Supplied(ListTasksFields[2], args) then args["currentContextOnly"] else Bool(false))
  {
    assert DistinctNames(ListTasksFields);
    DecodeArgsSpec(ListTasksFields, args);
    if DecodeArgs(ListTasksFields, args).Some? && !Supplied(ListTasksFields[0], args) {
      assert "projectId" !in OutputNames(ListTasksFields, 0, args);
    }
  }

  /** `includeArchived` is validated but does not change what `list_tasks` asks for or replies. */
  lemma IncludeArchivedIgnored(args: map<string, Value>, b: bool, o: Outcome)
    ensures ListTasks(args["includeArchived" := Bool(b)], o) == ListTasks(args["includeArchived" := Bool(false)], o)
  {
    var a1 := args["includeArchived" := Bool(b)];
    var a2 := args["includeArchived" := Bool(false)];
    ListTasksArgs(a1);
    ListTasksArgs(a2);
    assert Supplied(ListTasksFields[0], a1) == Supplied(ListTasksFields[0], a2);
    assert Supplied(ListTasksFields[2], a1) == Supplied(ListTasksFields[2], a2);
  }

  /**
    `create_task` needs a string `title`, forwards exactly the declared
    fields the caller supplied, and on success reports the new task's id
    and `Task created: <title>`.
   */
  lemma CreateTaskSpec(args: map<string, Value>, o: Outcome)
    ensures !("title" in args && args["title"].Str?) ==> CreateTask(args, o) == InvalidParams
    ensures CreateTask(args, o).Handled? ==>
      && CreateTask(args, o).call == F.CreateTask(Obj(Pick(Names(CreateTaskFields), args)))
      && (o.Resolved? ==>
            CreateTask(args, o).envelope ==
              Ok(Structured(Created("taskId", o.value, "Task created: " + args["title"].s))))
  {
    if DecodeArgs(CreateTaskFields, args).Some? {
      CreateTaskArgs(args);
    }
  }

  lemma CreateTaskArgs(args: map<string, Value>)
    requires DecodeArgs(CreateTaskFields, args).Some?
    ensures DecodeArgs(CreateTaskFields, args).value == Pick(Names(CreateTaskFields), args)
    ensures "title" in args && args["title"].Str?
    ensures Get(Obj(DecodeArgs(CreateTaskFields, args).value), "title") == args["title"]
  {
    assert DistinctNames(CreateTaskFields);
    RequiredField(CreateTaskFields, args, 0);
    DecodeArgsPicks(CreateTaskFields, args);
  }

  /**
    `update_task` sends the task id on its own and every other supplied
    field as the updates, which never hold `taskId`.
   */
  lemma UpdateTaskSpec(args: map<string, Value>, o: Outcome)
    ensures !("taskId" in args && args["taskId"].Str?) ==> UpdateTask(args, o) == InvalidParams
    ensures UpdateTask(args, o).Handled? ==>
      && UpdateTask(args, o).call == F.UpdateTask(args["taskId"].s, Obj(Pick(Names(UpdateTaskFields) - {"taskId"}, args)))
      && "taskId" !in UpdateTask(args, o).call.updates.fields
      && (o.Resolved? ==> UpdateTask(args, o).envelope == Ok(Structured(Done("Task updated successfully"))))
  {
    if DecodeArgs(UpdateTaskFields, args).Some? {
      UpdateTaskArgs(args);
    }
  }

  lemma UpdateTaskArgs(args: map<string, Value>)
    requires DecodeArgs(UpdateTaskFields, args).Some?
    ensures "taskId" in args && args["taskId"].Str?
    ensures Get(Obj(DecodeArgs(UpdateTaskFields, args).value), "taskId") == args["taskId"]
    ensures DecodeArgs(UpdateTaskFields, args).value - {"taskId"} == Pick(Names(UpdateTaskFields) - {"taskId"}, args)
  {
    assert DistinctNames(UpdateTaskFields);
    RequiredField(UpdateTaskFields, args, 0);
    DecodeArgsPicks(UpdateTaskFields, args);
    var p := DecodeArgs(UpdateTaskFields, args).value;
    assert p - {"taskId"} == Pick(Names(UpdateTaskFields) - {"taskId"}, args);
  }

  /** `complete_task` sends exactly `{isDone: true}` as the update of the given task. */
  lemma CompleteTaskSpec(args: map<string, Value>, o: Outcome)
    ensures CompleteTask(args, o).Handled? <==> "taskId" in args && args["taskId"].Str?
    ensures CompleteTask(args, o).Handled? ==>
      && CompleteTask(args, o).call == F.UpdateTask(args["taskId"].s, Obj(map["isDone" := Bool(true)]))
      && (o.Resolved? ==> CompleteTask(args, o).envelope == Ok(Structured(Done("Task marked as complete"))))
  {
    DecodeArgsSpec(CompleteTaskFields, args);
    assert CompleteTaskFields[0].name == "taskId";
  }

  /** One batch operation passes validation only with a `type` among the four operation kinds, which it keeps. */
  lemma OperationSpec(item: Value)
    requires Decode(TObject(OperationFields), item).Some?
    ensures item.Obj? && "type" in item.fields && item.fields["type"].Str?
    ensures item.fields["type"].s in BatchOperationTypes
    ensures
      var op := Decode(TObject(OperationFields), item).value;
      && op.Obj? && op.fields.Keys <= Names(OperationFields)
      && "type" in op.fields && op.fields["type"] == item.fields["type"]
  {
    var ty := TObject(OperationFields);
    assert DistinctNames(OperationFields);
    DecodeFieldsSpec(ty, 0, item.fields);
    var f := OperationFields[0];
    assert Accepts(f, item.fields);
    var out := DecodeFields(ty, 0, item.fields).value;
    assert out.Keys == OutputNames(OperationFields, 0, item.fields);
  }

  /** The decoded arguments of `batch_update_tasks`: the caller's project id and the decoded operations array. */
  lemma BatchArgs(args: map<string, Value>)
    requires DecodeFields(TObject(BatchFields), 0, args).Some?
    ensures "projectId" in args && args["projectId"].Str? && "operations" in args
    ensures Decode(TArray(TObject(OperationFields)), args["operations"]).Some?
    ensures
      var p := Obj(DecodeFields(TObject(BatchFields), 0, args).value);
      && Get(p, "projectId") == args["projectId"]
      && Get(p, "operations") == Decode(TArray(TObject(OperationFields)), args["operations"]).value
  {
    assert DistinctNames(BatchFields);
    DecodeFieldsSpec(TObject(BatchFields), 0, args);
    assert Accepts(BatchFields[0], args) && Accepts(BatchFields[1], args);
  }

  /** An operations array validates item by item, keeping the number and order of the operations. */
  lemma OperationsSpec(v: Value)
    requires Decode(TArray(TObject(OperationFields)), v).Some?
    ensures v.Arr?
    ensures
      var ops := Decode(TArray(TObject(OperationFields)), v).value;
      && ops.Arr? && |ops.items| == |v.items|
      && forall j :: 0 <= j < |v.items| ==>
           && Decode(TObject(OperationFields), v.items[j]).Some?
           && ops.items[j] == Decode(TObject(OperationFields), v.items[j]).value
  {
    DecodeItemsSpec(TArray(TObject(OperationFields)), v.items, 0);
  }

  /** Every operation of a valid array has a `type` among the four operation kinds. */
  lemma OperationKinds(items: seq<Value>)
    requires forall j :: 0 <= j < |items| ==> Decode(TObject(OperationFields), items[j]).Some?
    ensures forall j :: 0 <= j < |items| ==>
      && items[j].Obj? && "type" in items[j].fields && items[j].fields["type"].Str?
      && items[j].fields["type"].s in BatchOperationTypes
  {
    forall j | 0 <= j < |items|
      ensures items[j].Obj? && "type" in items[j].fields && items[j].fields["type"].Str?
      ensures items[j].fields["type"].s in BatchOperationTypes
    {
      OperationSpec(items[j]);
    }
  }

  /**
    `batch_update_tasks` forwards the project id and the validated
    operations, one for each operation passed and in the same order, each
    with its kind among create, update, delete and reorder.  A single
    operation of another kind rejects the whole call.
   */
  lemma BatchUpdateSpec(args: map<string, Value>, o: Outcome)
    ensures BatchUpdateTasks(args, o).Handled? ==>
      && "projectId" in args && args["projectId"].Str? && "operations" in args && args["operations"].Arr?
      && var call := BatchUpdateTasks(args, o).call;
         var given := args["operations"].items;
         && call.BatchUpdate? && call.projectId == args["projectId"].s
         && call.operations.Arr? && |call.operations.items| == |given|
         && forall j :: 0 <= j < |given| ==>
              && given[j].Obj? && "type" in given[j].fields && given[j].fields["type"].Str?
              && given[j].fields["type"].s in BatchOperationTypes
              && Decode(TObject(OperationFields), given[j]).Some?
              && call.operations.items[j] == Decode(TObject(OperationFields), given[j]).value
    ensures BatchUpdateTasks(args, o).Handled? && o.Resolved? ==>
      BatchUpdateTasks(args, o).envelope == Ok(Structured(o.value))
  {
    if DecodeFields(TObject(BatchFields), 0, args).Some? {
      BatchArgs(args);
      OperationsSpec(args["operations"]);
      OperationKinds(args["operations"].items);
    }
  }

  /** Every task tool whose request fails replies `Error: <message>` with `isError` set, and never throws. */
  lemma TaskToolsReportFailures(args: map<string, Value>, message: string)
    ensures ListTasks(args, Rejected(message)).Handled? ==>
      ListTasks(args, Rejected(message)).envelope == ErrorEnvelope(message)
    ensures CreateTask(args, Rejected(message)).Handled? ==>
      CreateTask(args, Rejected(message)).envelope == ErrorEnvelope(message)
    ensures UpdateTask(args, Rejected(message)).Handled? ==>
      UpdateTask(args, Rejected(message)).envelope == ErrorEnvelope(message)
    ensures CompleteTask(args, Rejected(message)).Handled? ==>
      CompleteTask(args, Rejected(message)).envelope == ErrorEnvelope(message)
    ensures BatchUpdateTasks(args, Rejected(message)).Handled? ==>
      BatchUpdateTasks(args, Rejected(message)).envelope == ErrorEnvelope(message)
  {
  }
}
