/**
  The plugin side of the bridge (mcp-bridge-plugin/plugin-logic.js): the
  command handlers that turn a socket request into a plugin API call and the
  API's outcome into the acknowledgement, and the hooks that forward plugin
  events to the server.  The API itself is outside the model: its outcome is
  a parameter.
 */
module PluginLogic {
  import opened Json
  import opened Facade
  import opened Bridge

  /** What a rejected API promise carries: an Error object, or any other thrown value. */
  datatype Thrown = ErrorObject(name: string, message: string) | OtherValue(v: Value)

  datatype ApiResult = Fulfilled(value: Value) | Failed(reason: Thrown)

  /** The plugin API calls the handlers make. */
  datatype ApiCall =
    | GetTasksApi
    | GetCurrentContextTasksApi
    | AddTask(taskData: Value)
    | UpdateTaskApi(taskId: Value, updates: Value)
    | DeleteTaskApi(taskId: Value)
    | BatchUpdateForProject(data: Value)
    | GetAllProjects
    | AddProject(projectData: Value)
    | GetAllTags

  /** What the plugin does with a request: nothing, throw before any API call, or call the API. */
  datatype Reaction = Unhandled | HandlerThrows | Invokes(call: ApiCall)

  /**
    The handler table (plugin-logic.js:27-84): nine events have a handler;
    `tasks:update` and `tasks:delete` read `data.taskId`, which throws when
    the payload is `null` or `undefined`.
   */
  function Dispatch(event: string, data: Value): Reaction {
    match event
    case "tasks:get" => Invokes(GetTasksApi)
    case "tasks:getCurrent" => Invokes(GetCurrentContextTasksApi)
    case "tasks:create" => Invokes(AddTask(data))
    case "tasks:update" =>
      if Nullish(data) then HandlerThrows else Invokes(UpdateTaskApi(Get(data, "taskId"), Get(data, "updates")))
    case "tasks:delete" =>
      if Nullish(data) then HandlerThrows else Invokes(DeleteTaskApi(Get(data, "taskId")))
    case "tasks:batch" => Invokes(BatchUpdateForProject(data))
    case "projects:get" => Invokes(GetAllProjects)
    case "projects:create" => Invokes(AddProject(data))
    case "tags:get" => Invokes(GetAllTags)
    case _ => Unhandled
  }

  /** `String(err)` for an Error object: `Error.prototype.toString`. */
  function ErrorToString(name: string, message: string): string {
    if name == "" then message else if message == "" then name else name + ": " + message
  }

  /**
    `err.message || String(err)`, the error text of the failure ack.  `None`
    when reading `message` throws, because the rejection reason is `null` or
    `undefined`: the catch handler then fails and no ack is sent.
   */
  function ErrorText(err: Thrown): Option<Value> {
    match err
    case ErrorObject(name, message) =>
      if message != "" then Some(Str(message)) else Some(Str(ErrorToString(name, message)))
    case OtherValue(v) =>
      if Nullish(v) then None
      else if Truthy(Get(v, "message")) then Some(Get(v, "message"))
      else Some(Str(ToJsString(v)))
  }

  function SuccessAck(): Value {
    Obj(map["success" := Bool(true)])
  }

  /**
    The acknowledgement a handler sends once the API call settles: update and
    delete report plain success, the other handlers echo the API result, and
    a failure is reported as `{error: text}`.  `None` means no ack is sent.
   */
  function AckValue(call: ApiCall, result: ApiResult): Option<Value> {
    match result
    case Fulfilled(v) =>
      if call.UpdateTaskApi? || call.DeleteTaskApi? then Some(SuccessAck()) else Some(v)
    case Failed(reason) =>
      var text := ErrorText(reason);
      if text.Some? then Some(Obj(map["error" := text.value])) else None
  }

  /**
    The acknowledgement of a façade call as the server's callback receives
    it, given how the API call the plugin makes settles.  The request's
    payload and the ack both cross the socket, so each arrives as `OnWire`
    of what its sender passed.
   */
  function AckFor(c: Call, result: ApiResult): Option<Value> {
    var m := Command(c);
    var r := Dispatch(m.event, OnWire(m.payload));
    if r.Invokes? then
      var ack := AckValue(r.call, result);
      if ack.Some? then Some(OnWire(ack.value)) else None
    else None
  }

  predicate Unserved(c: Call) {
    c.CreateTag? || c.UpdateTag? || c.Notify? || c.ShowSnack? || c.OpenDialog?
  }

  /** The plugin's reaction to a façade call, as its payload arrives. */
  function Received(c: Call): Reaction {
    Dispatch(Command(c).event, OnWire(Command(c).payload))
  }

  /**
    The plugin has no handler for exactly five of the server's commands:
    creating and updating tags and the three UI requests.  Every other
    command calls the API with the arguments the server packed, as they
    arrive over the socket.
   */
  lemma DispatchOfCommand(c: Call)
    ensures Received(c).Unhandled? <==> Unserved(c)
    ensures !Received(c).HandlerThrows?
    ensures c.GetTasks? ==> Received(c) == Invokes(GetTasksApi)
    ensures c.GetCurrentContextTasks? ==> Received(c) == Invokes(GetCurrentContextTasksApi)
    ensures c.CreateTask? ==> Received(c) == Invokes(AddTask(OnWire(c.taskData)))
    ensures c.UpdateTask? ==>
      Received(c) == Invokes(UpdateTaskApi(Str(c.taskId), if c.updates.Undefined? then Undefined else OnWire(c.updates)))
    ensures c.DeleteTask? ==> Received(c) == Invokes(DeleteTaskApi(Str(c.taskId)))
    ensures c.BatchUpdate? ==> Received(c) == Invokes(BatchUpdateForProject(OnWire(Command(c).payload)))
    ensures c.GetProjects? ==> Received(c) == Invokes(GetAllProjects)
    ensures c.CreateProject? ==> Received(c) == Invokes(AddProject(OnWire(c.projectData)))
    ensures c.GetTags? ==> Received(c) == Invokes(GetAllTags)
  {
    if c.UpdateTask? {
      GetOnWire(Command(c).payload, "taskId");
      GetOnWire(Command(c).payload, "updates");
    } else if c.DeleteTask? {
      GetOnWire(Command(c).payload, "taskId");
    }
  }

  /**
    A successful call, acknowledged by the plugin and read back by the
    server: update and delete resolve with `{success: true}`, and every other
    handled call resolves with the API's result as it crosses the socket
    (unchanged when nothing in it is `undefined`), unless that result itself
    carries a truthy `error`, which the server takes for a failure.
   */
  lemma {:induction false} SuccessRoundTrip(c: Call, v: Value)
    requires !Unserved(c)
    ensures AckFor(c, Fulfilled(v)).Some?
    ensures (c.UpdateTask? || c.DeleteTask?) ==> AckOutcome(AckFor(c, Fulfilled(v)).value) == Resolved(SuccessAck())
    ensures !(c.UpdateTask? || c.DeleteTask?) && !(Truthy(v) && Truthy(Get(v, "error"))) ==>
      AckOutcome(AckFor(c, Fulfilled(v)).value) == Resolved(OnWire(v))
    ensures !(c.UpdateTask? || c.DeleteTask?) && !(Truthy(v) && Truthy(Get(v, "error"))) && Defined(v) ==>
      AckOutcome(AckFor(c, Fulfilled(v)).value) == Resolved(v)
    ensures !(c.UpdateTask? || c.DeleteTask?) && Truthy(v) && Truthy(Get(v, "error")) ==>
      AckOutcome(AckFor(c, Fulfilled(v)).value) == Rejected(ToJsString(Get(v, "error")))
  {
    DispatchOfCommand(c);
    OnWireSpec(v);
    TruthyOnWire(v);
    GetOnWire(v, "error");
    TruthyOnWire(Get(v, "error"));
    if Truthy(Get(v, "error")) {
      ToJsStringOnWire(Get(v, "error"));
    }
    assert OnWire(SuccessAck()) == SuccessAck() by {
      OnWireSpec(SuccessAck());
    }
  }

  /**
    An API call that fulfils with `undefined` (creating a task, whose id the
    plugin API does not return) resolves on the server with `null`.
   */
  lemma UndefinedResultArrivesAsNull(c: Call)
    requires !Unserved(c) && !c.UpdateTask? && !c.DeleteTask?
    ensures AckOutcome(AckFor(c, Fulfilled(Undefined)).value) == Resolved(Null)
  {
    SuccessRoundTrip(c, Undefined);
  }

  /**
    A failed call, acknowledged by the plugin and read back by the server:
    an Error with a non-empty message rejects with that message, one with an
    empty message rejects with its name, and any other non-nullish reason
    rejects with its text when that text is truthy.  An empty text is
    resolved as the value `{error: ""}` instead, and a nullish reason sends
    no ack at all.
   */
  lemma {:induction false} FailureRoundTrip(c: Call, reason: Thrown)
    requires !Unserved(c)
    ensures AckFor(c, Failed(reason)).None? <==> reason.OtherValue? && Nullish(reason.v)
    ensures reason.ErrorObject? && reason.message != "" ==>
      AckOutcome(AckFor(c, Failed(reason)).value) == Rejected(reason.message)
    ensures reason.ErrorObject? && reason.message == "" && reason.name != "" ==>
      AckOutcome(AckFor(c, Failed(reason)).value) == Rejected(reason.name)
    ensures AckFor(c, Failed(reason)).Some? ==>
      var text := ErrorText(reason).value;
      && AckFor(c, Failed(reason)).value == Obj(map["error" := OnWire(text)])
      && (Truthy(text) ==> AckOutcome(AckFor(c, Failed(reason)).value) == Rejected(ToJsString(text)))
      && (!Truthy(text) ==> AckOutcome(AckFor(c, Failed(reason)).value) == Resolved(Obj(map["error" := text])))
  {
    DispatchOfCommand(c);
    var text := ErrorText(reason);
    if text.Some? {
      var t := text.value;
      assert !t.Undefined?;
      var sent := Obj(map["error" := t]);
      assert OnWire(sent) == Obj(map["error" := OnWire(t)]);
      TruthyOnWire(t);
      if Truthy(t) {
        ToJsStringOnWire(t);
      } else {
        OnWireSpec(t);
      }
    }
  }

  /** A thrown empty string is acknowledged as `{error: ""}`, which the server resolves as a value. */
  lemma EmptyErrorResolves(c: Call)
    requires !Unserved(c)
    ensures AckOutcome(AckFor(c, Failed(OtherValue(Str("")))).value) == Resolved(Obj(map["error" := Str("")]))
  {
    FailureRoundTrip(c, OtherValue(Str("")));
  }

  /**
    A request the plugin never acknowledges, for want of a handler or
    because the rejection reason is nullish, ends only by the timeout: from
    the moment it is sent it is pending until its deadline and rejected with
    the timeout message once the clock reaches it.
   */
  lemma {:induction false} NoAckEndsByTimeout(c: Call, result: ApiResult, now: int, ticks: seq<Event>)
    requires AckFor(c, result).None?
    requires forall j :: 0 <= j < |ticks| ==> ticks[j].Tick?
    requires exists j :: 0 <= j < |ticks| && ticks[j].now >= now + ReplyTimeoutMs
    ensures Unserved(c) || (result.Failed? && result.reason.OtherValue? && Nullish(result.reason.v))
    ensures Run(Cell(Command(c).event, now + ReplyTimeoutMs, Pending, true), ticks).state ==
      Settled(Rejected(TimeoutMessage(Command(c).event)))
  {
    DispatchOfCommand(c);
    UnansweredRequestTimesOut(Cell(Command(c).event, now + ReplyTimeoutMs, Pending, true), ticks);
  }

  // ---------------------------------------------------------------------------
  // Hooks (plugin -> server)

  datatype Hook = AnyTaskUpdate | ProjectListUpdate | CurrentTaskChange | TaskComplete

  /** The socket message a plugin hook emits (plugin-logic.js:88-102): a renamed event, the payload unchanged. */
  function Forward(h: Hook, payload: Value): (m: Message)
    ensures m.payload == payload
    ensures Uncommand(m).None?
  {
    match h
    case AnyTaskUpdate => Message("event:taskUpdate", payload)
    case ProjectListUpdate => Message("event:projectListUpdate", payload)
    case CurrentTaskChange => Message("event:currentTaskChange", payload)
    case TaskComplete => Message("event:taskComplete", payload)
  }

  /** Each hook has its own event name, so the server can tell which hook fired and with what. */
  lemma ForwardInjective(h1: Hook, p1: Value, h2: Hook, p2: Value)
    requires Forward(h1, p1) == Forward(h2, p2)
    ensures h1 == h2 && p1 == p2
  {
  }
}
