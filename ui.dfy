/** The UI tools (src/tools/ui.ts): `show_notification`, `show_snack` and `open_dialog`. */
module Ui {
  import opened Json
  import opened Schema
  import opened Bridge
  import opened Replies
  import F = Facade

  const NoticeTypes: seq<string> := ["SUCCESS", "ERROR", "INFO"]
  const DialogTypes: seq<string> := ["CONFIRM", "PROMPT"]

  const NotificationFields: seq<Field> := [
    Field("message", TString, Required),
    Field("type", TEnum(NoticeTypes), Defaulted(Str("INFO"))),
    Field("duration", TNumber, Optional)
  ]

  const SnackFields: seq<Field> := [
    Field("message", TString, Required),
    Field("type", TEnum(NoticeTypes), Defaulted(Str("INFO"))),
    Field("config", TRecord, Optional)
  ]

  const DialogFields: seq<Field> := [
    Field("type", TEnum(DialogTypes), Defaulted(Str("CONFIRM"))),
    Field("title", TString, Optional),
    Field("message", TString, Required),
    Field("confirmText", TString, Optional),
    Field("cancelText", TString, Optional)
  ]

  function ShowNotification(args: map<string, Value>, o: Outcome): ToolResult {
    match DecodeArgs(NotificationFields, args)
    case None => InvalidParams
    case Some(p) => Handled(F.Notify(Obj(p)), Respond(o, (v: Value) => Ok(Text("Notification sent"))))
  }

  function ShowSnack(args: map<string, Value>, o: Outcome): ToolResult {
    match DecodeArgs(SnackFields, args)
    case None => InvalidParams
    case Some(p) => Handled(F.ShowSnack(Obj(p)), Respond(o, (v: Value) => Ok(Text("Snack shown"))))
  }

  function OpenDialog(args: map<string, Value>, o: Outcome): ToolResult {
    match DecodeArgs(DialogFields, args)
    case None => InvalidParams
    case Some(p) => Handled(F.OpenDialog(Obj(p)), Respond(o, (v: Value) => Ok(Structured(v))))
  }

  /**
    The decoded parameters of a UI tool: exactly the supplied fields, each
    unchanged, plus `type` set to its default when not supplied; and the
    call needs a `message` string and a `type` among the allowed ones.
   */
  lemma {:induction false} UiParams(fields: seq<Field>, args: map<string, Value>, options: seq<string>, default: string, ti: nat, mi: nat)
    requires DistinctNames(fields) && forall j :: 0 <= j < |fields| ==> Flat(fields[j].ty)
    requires ti < |fields| && fields[ti] == Field("type", TEnum(options), Defaulted(Str(default)))
    requires mi < |fields| && fields[mi] == Field("message", TString, Required)
    requires forall j :: 0 <= j < |fields| && j != ti ==> !fields[j].presence.Defaulted?
    ensures !("message" in args && args["message"].Str?) ==> DecodeArgs(fields, args).None?
    ensures "type" in args && args["type"] != Undefined && !(args["type"].Str? && args["type"].s in options) ==>
      DecodeArgs(fields, args).None?
    ensures DecodeArgs(fields, args).Some? ==>
      DecodeArgs(fields, args).value ==
        Pick(Names(fields), args)["type" := if "type" in args && args["type"] != Undefined then args["type"] else Str(default)]
  {
    DecodeArgsSpec(fields, args);
    assert Accepts(fields[mi], args) ==> args["message"].Str?;
    assert Accepts(fields[ti], args) && Supplied(fields[ti], args) ==> args["type"].Str? && args["type"].s in options;
    if DecodeArgs(fields, args).Some? {
      UiPick(fields, args, default, ti);
    }
  }

  lemma UiPick(fields: seq<Field>, args: map<string, Value>, default: string, ti: nat)
    requires DistinctNames(fields) && forall j :: 0 <= j < |fields| ==> Flat(fields[j].ty)
    requires ti < |fields| && fields[ti].name == "type" && fields[ti].presence == Defaulted(Str(default))
    requires forall j :: 0 <= j < |fields| && j != ti ==> !fields[j].presence.Defaulted?
    requires DecodeArgs(fields, args).Some?
    ensures DecodeArgs(fields, args).value ==
      Pick(Names(fields), args)["type" := if "type" in args && args["type"] != Undefined then args["type"] else Str(default)]
  {
    DecodeArgsSpec(fields, args);
    var p := DecodeArgs(fields, args).value;
    var typeValue := if "type" in args && args["type"] != Undefined then args["type"] else Str(default);
    var q := Pick(Names(fields), args)["type" := typeValue];
    assert "type" in p && p["type"] == typeValue;
    forall k | k in q && k != "type"
      ensures k in p && p[k] == q[k]
    {
      var j :| 0 <= j < |fields| && fields[j].name == k;
      assert Supplied(fields[j], args);
    }
    forall k | k in p
      ensures k in q
    {
      assert k in OutputNames(fields, 0, args);
      var j :| 0 <= j < |fields| && (Supplied(fields[j], args) || fields[j].presence.Defaulted?) && fields[j].name == k;
    }
    assert p.Keys == q.Keys;
  }

  /**
    `show_notification` notifies with the supplied parameters and `type`
    defaulting to INFO, and replies the fixed text `Notification sent`
    whatever the plugin answers.
   */
  lemma ShowNotificationSpec(args: map<string, Value>, o: Outcome)
    ensures !("message" in args && args["message"].Str?) ==> ShowNotification(args, o) == InvalidParams
    ensures "type" in args && args["type"] != Undefined && !(args["type"].Str? && args["type"].s in NoticeTypes) ==>
      ShowNotification(args, o) == InvalidParams
    ensures ShowNotification(args, o).Handled? ==>
      && ShowNotification(args, o).call == F.Notify(Obj(Pick(Names(NotificationFields), args)[
           "type" := if "type" in args && args["type"] != Undefined then args["type"] else Str("INFO")]))
      && (o.Resolved? ==> ShowNotification(args, o).envelope == Ok(Text("Notification sent")))
  {
    assert DistinctNames(NotificationFields);
    UiParams(NotificationFields, args, NoticeTypes, "INFO", 1, 0);
  }

  /** `show_snack` shows a snack with the supplied parameters and `type` defaulting to INFO, and replies `Snack shown`. */
  lemma ShowSnackSpec(args: map<string, Value>, o: Outcome)
    ensures !("message" in args && args["message"].Str?) ==> ShowSnack(args, o) == InvalidParams
    ensures "type" in args && args["type"] != Undefined && !(args["type"].Str? && args["type"].s in NoticeTypes) ==>
      ShowSnack(args, o) == InvalidParams
    ensures ShowSnack(args, o).Handled? ==>
      && ShowSnack(args, o).call == F.ShowSnack(Obj(Pick(Names(SnackFields), args)[
           "type" := if "type" in args && args["type"] != Undefined then args["type"] else Str("INFO")]))
      && (o.Resolved? ==> ShowSnack(args, o).envelope == Ok(Text("Snack shown")))
  {
    assert DistinctNames(SnackFields);
    UiParams(SnackFields, args, NoticeTypes, "INFO", 1, 0);
  }

  /**
    `open_dialog` needs a `message`, opens the dialog with the supplied
    parameters and `type` defaulting to CONFIRM, and replies with the
    dialog's result.
   */
  lemma OpenDialogSpec(args: map<string, Value>, o: Outcome)
    ensures !("message" in args && args["message"].Str?) ==> OpenDialog(args, o) == InvalidParams
    ensures "type" in args && args["type"] != Undefined && !(args["type"].Str? && args["type"].s in DialogTypes) ==>
      OpenDialog(args, o) == InvalidParams
    ensures OpenDialog(args, o).Handled? ==>
      && OpenDialog(args, o).call == F.OpenDialog(Obj(Pick(Names(DialogFields), args)[
           "type" := if "type" in args && args["type"] != Undefined then args["type"] else Str("CONFIRM")]))
      && (o.Resolved? ==> OpenDialog(args, o).envelope == Ok(Structured(o.value)))
  {
    assert DistinctNames(DialogFields);
    UiParams(DialogFields, args, DialogTypes, "CONFIRM", 0, 2);
  }

  /** Every UI tool whose request fails replies `Error: <message>` with `isError` set. */
  lemma UiToolsReportFailures(args: map<string, Value>, message: string)
    ensures ShowNotification(args, Rejected(message)).Handled? ==>
      ShowNotification(args, Rejected(message)).envelope == ErrorEnvelope(message)
    ensures ShowSnack(args, Rejected(message)).Handled? ==>
      ShowSnack(args, Rejected(message)).envelope == ErrorEnvelope(message)
    ensures OpenDialog(args, Rejected(message)).Handled? ==>
      OpenDialog(args, Rejected(message)).envelope == ErrorEnvelope(message)
  {
  }
}
