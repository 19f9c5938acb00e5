/**
  What every tool handler returns (the files under src/tools): a text content item,
  flagged `isError` when the handler caught an exception.  The handler body
  runs inside `try`, so a rejected façade call and a TypeError raised while
  shaping a reply both end in the error envelope and never escape.
 */
module Replies {
  import opened Json
  import opened Bridge
  import Facade

  /** The content of a successful reply: a fixed text, or a value the handler serialises with `JSON.stringify`. */
  datatype Body = Text(text: string) | Structured(value: Value)

  /**
    `Err` carries the text `Error: <message>` of a caught Error; `TypeFailure`
    stands for a TypeError the engine raised inside the handler, whose
    message text is the engine's own.
   */
  datatype Envelope = Ok(body: Body) | Err(text: string) | TypeFailure

  predicate IsError(e: Envelope) {
    !e.Ok?
  }

  function ErrorEnvelope(message: string): Envelope {
    Err("Error: " + message)
  }

  /**
    A tool invocation: arguments that fail validation never reach the
    handler; otherwise the handler makes one façade call and replies.
   */
  datatype ToolResult = InvalidParams | Handled(call: Facade.Call, envelope: Envelope)

  /** The shared `try { await call; ... } catch (error) { "Error: " + error.message }` shape. */
  function Respond(o: Outcome, onValue: Value -> Envelope): (e: Envelope)
    ensures o.Rejected? ==> e == ErrorEnvelope(o.message) && IsError(e)
    ensures o.Resolved? ==> e == onValue(o.value)
  {
    match o
    case Rejected(message) => ErrorEnvelope(message)
    case Resolved(v) => onValue(v)
  }

  /**
    A tool reports an error exactly when its façade call was rejected or
    shaping the resolved value failed; a rejection's message can be read
    back from the text after the `Error: ` prefix.
   */
  lemma RespondReportsFailure(o: Outcome, onValue: Value -> Envelope)
    ensures IsError(Respond(o, onValue)) <==> o.Rejected? || IsError(onValue(o.value))
    ensures o.Resolved? && !IsError(onValue(o.value)) ==> Respond(o, onValue) == onValue(o.value)
    ensures o.Rejected? ==>
      && Respond(o, onValue).Err?
      && |Respond(o, onValue).text| >= 7
      && Respond(o, onValue).text[..7] == "Error: "
      && Respond(o, onValue).text[7..] == o.message
  {
  }

  /** The `{success: true, <idKey>: id, message}` reply of the three creating tools. */
  function Created(idKey: string, id: Value, message: string): Value {
    Obj(map["success" := Bool(true), idKey := id, "message" := Str(message)])
  }

  /** The `{success: true, message}` reply of the updating tools. */
  function Done(message: string): Value {
    Obj(map["success" := Bool(true), "message" := Str(message)])
  }
}
