/**
  The capability façade of `SocketSuperProductivityClient`: fourteen
  operations, each one socket request with a fixed event name and a payload
  built from its arguments (src/index.ts:53-107).
 */
module Facade {
  import opened Json

  datatype Call =
    | GetTasks
    | GetCurrentContextTasks
    | CreateTask(taskData: Value)
    | UpdateTask(taskId: string, updates: Value)
    | DeleteTask(taskId: string)
    | BatchUpdate(projectId: string, operations: Value)
    | GetProjects
    | CreateProject(projectData: Value)
    | GetTags
    | CreateTag(tagData: Value)
    | UpdateTag(tagId: string, updates: Value)
    | Notify(config: Value)
    | ShowSnack(config: Value)
    | OpenDialog(config: Value)

  /** One socket emission: an event name and its payload (`undefined` when none is sent). */
  datatype Message = Message(event: string, payload: Value)

  /**
    The command table.  Reading the message back recovers the call, so no
    two operations share an event name and every argument reaches the wire.
   */
  function Command(c: Call): (m: Message)
    ensures Uncommand(m) == Some(c)
  {
    match c
    case GetTasks => Message("tasks:get", Undefined)
    case GetCurrentContextTasks => Message("tasks:getCurrent", Undefined)
    case CreateTask(taskData) => Message("tasks:create", taskData)
    case UpdateTask(taskId, updates) =>
      Message("tasks:update", Obj(map["taskId" := Str(taskId), "updates" := updates]))
    case DeleteTask(taskId) => Message("tasks:delete", Obj(map["taskId" := Str(taskId)]))
    case BatchUpdate(projectId, operations) =>
      Message("tasks:batch", Obj(map["projectId" := Str(projectId), "operations" := operations]))
    case GetProjects => Message("projects:get", Undefined)
    case CreateProject(projectData) => Message("projects:create", projectData)
    case GetTags => Message("tags:get", Undefined)
    case CreateTag(tagData) => Message("tags:create", tagData)
    case UpdateTag(tagId, updates) =>
      Message("tags:update", Obj(map["tagId" := Str(tagId), "updates" := updates]))
    case Notify(config) => Message("ui:notify", config)
    case ShowSnack(config) => Message("ui:showSnack", config)
    case OpenDialog(config) => Message("ui:openDialog", config)
  }

  /** Reads a message back as the façade call that sends it, if any does. */
  function Uncommand(m: Message): Option<Call> {
    var p := m.payload;
    match m.event
    case "tasks:get" => Some(GetTasks)
    case "tasks:getCurrent" => Some(GetCurrentContextTasks)
    case "tasks:create" => Some(CreateTask(p))
    case "tasks:update" =>
      if Get(p, "taskId").Str? then Some(UpdateTask(Get(p, "taskId").s, Get(p, "updates"))) else None
    case "tasks:delete" =>
      if Get(p, "taskId").Str? then Some(DeleteTask(Get(p, "taskId").s)) else None
    case "tasks:batch" =>
      if Get(p, "projectId").Str? then Some(BatchUpdate(Get(p, "projectId").s, Get(p, "operations"))) else None
    case "projects:get" => Some(GetProjects)
    case "projects:create" => Some(CreateProject(p))
    case "tags:get" => Some(GetTags)
    case "tags:create" => Some(CreateTag(p))
    case "tags:update" =>
      if Get(p, "tagId").Str? then Some(UpdateTag(Get(p, "tagId").s, Get(p, "updates"))) else None
    case "ui:notify" => Some(Notify(p))
    case "ui:showSnack" => Some(ShowSnack(p))
    case "ui:openDialog" => Some(OpenDialog(p))
    case _ => None
  }

  /** Operations that only read send no payload at all. */
  predicate SendsNothing(c: Call) {
    c.GetTasks? || c.GetCurrentContextTasks? || c.GetProjects? || c.GetTags?
  }

  /**
    Payload shapes: the reading operations send `undefined`, the creating
    and UI operations pass their argument through, and the four others wrap
    their arguments in an object with exactly the named keys.
   */
  lemma PayloadShapes(c: Call)
    ensures SendsNothing(c) ==> Command(c).payload == Undefined
    ensures c.CreateTask? ==> Command(c).payload == c.taskData
    ensures c.CreateProject? ==> Command(c).payload == c.projectData
    ensures c.CreateTag? ==> Command(c).payload == c.tagData
    ensures (c.Notify? || c.ShowSnack? || c.OpenDialog?) ==> Command(c).payload == c.config
    ensures c.UpdateTask? ==>
      (&& Command(c).payload.Obj? && Command(c).payload.fields.Keys == {"taskId", "updates"}
       && Get(Command(c).payload, "taskId") == Str(c.taskId) && Get(Command(c).payload, "updates") == c.updates)
    ensures c.DeleteTask? ==>
      (&& Command(c).payload.Obj? && Command(c).payload.fields.Keys == {"taskId"}
       && Get(Command(c).payload, "taskId") == Str(c.taskId))
    ensures c.BatchUpdate? ==>
      (&& Command(c).payload.Obj? && Command(c).payload.fields.Keys == {"projectId", "operations"}
       && Get(Command(c).payload, "projectId") == Str(c.projectId)
       && Get(Command(c).payload, "operations") == c.operations)
    ensures c.UpdateTag? ==>
      (&& Command(c).payload.Obj? && Command(c).payload.fields.Keys == {"tagId", "updates"}
       && Get(Command(c).payload, "tagId") == Str(c.tagId) && Get(Command(c).payload, "updates") == c.updates)
  {
  }

  /** Two calls that put the same message on the wire are the same call. */
  lemma CommandInjective(c1: Call, c2: Call)
    requires Command(c1) == Command(c2)
    ensures c1 == c2
  {
  }

  /** The operations that share an event name are only the ones that are equal up to their arguments. */
  lemma EventNamesDistinct(c1: Call, c2: Call)
    requires Command(c1).event == Command(c2).event
    ensures c1.GetTasks? == c2.GetTasks? && c1.CreateTask? == c2.CreateTask? && c1.UpdateTask? == c2.UpdateTask?
      && c1.DeleteTask? == c2.DeleteTask? && c1.BatchUpdate? == c2.BatchUpdate? && c1.GetProjects? == c2.GetProjects?
      && c1.CreateProject? == c2.CreateProject? && c1.GetTags? == c2.GetTags? && c1.CreateTag? == c2.CreateTag?
      && c1.UpdateTag? == c2.UpdateTag? && c1.Notify? == c2.Notify? && c1.ShowSnack? == c2.ShowSnack?
      && c1.OpenDialog? == c2.OpenDialog? && c1.GetCurrentContextTasks? == c2.GetCurrentContextTasks?
  {
  }
}
