/** The tag tools (src/tools/tags.ts): `list_tags`, `create_tag` and `update_tag`. */
module Tags {
  import opened Json
  import opened Schema
  import opened Bridge
  import opened Replies
  import F = Facade

  const CreateTagFields: seq<Field> := [
    Field("title", TString, Required),
    Field("color", TString, Optional),
    Field("icon", TString, Optional)
  ]

  const UpdateTagFields: seq<Field> := [
    Field("tagId", TString, Required),
    Field("title", TString, Optional),
    Field("color", TString, Optional),
    Field("icon", TString, Optional)
  ]

  /** `{count: tags.length, tags}`; reading `length` of `null` or `undefined` raises a TypeError. */
  function ListReply(key: string, v: Value): Envelope {
    if Nullish(v) then TypeFailure else Ok(Structured(Obj(map["count" := Length(v), key := v])))
  }

  /** `list_tags` takes no arguments; anything passed is stripped. */
  function ListTags(o: Outcome): ToolResult {
    Handled(F.GetTags, Respond(o, (v: Value) => ListReply("tags", v)))
  }

  function CreateTag(args: map<string, Value>, o: Outcome): ToolResult {
    match DecodeArgs(CreateTagFields, args)
    case None => InvalidParams
    case Some(p) =>
      var message := "Tag created: " + ToJsString(Get(Obj(p), "title"));
      Handled(F.CreateTag(Obj(p)), Respond(o, (v: Value) => Ok(Structured(Created("tagId", v, message)))))
  }

  function UpdateTag(args: map<string, Value>, o: Outcome): ToolResult {
    match DecodeArgs(UpdateTagFields, args)
    case None => InvalidParams
    case Some(p) =>
      match Get(Obj(p), "tagId")
      case Str(tagId) =>
        Handled(F.UpdateTag(tagId, Obj(p - {"tagId"})),
          Respond(o, (v: Value) => Ok(Structured(Done("Tag updated successfully")))))
      case _ => InvalidParams
  }

  /**
    `list_tags` reports the fetched tags unchanged with their `length` as
    the count; nothing to read a length from is an error.
   */
  lemma ListTagsSpec(o: Outcome)
    ensures ListTags(o).call == F.GetTags
    ensures o.Resolved? && !Nullish(o.value) ==>
      var out := ListTags(o).envelope.body.value;
      && ListTags(o).envelope.Ok? && Get(out, "tags") == o.value && Get(out, "count") == Length(o.value)
      && (o.value.Arr? ==> Get(out, "count") == Num(|o.value.items|))
    ensures o.Resolved? && Nullish(o.value) ==> IsError(ListTags(o).envelope)
  {
  }

  /**
    `create_tag` needs a string `title`, passes exactly the supplied
    title, colour and icon, and on success reports the new tag's id and
    `Tag created: <title>`.
   */
  lemma CreateTagSpec(args: map<string, Value>, o: Outcome)
    ensures !("title" in args && args["title"].Str?) ==> CreateTag(args, o) == InvalidParams
    ensures CreateTag(args, o).Handled? ==>
      && CreateTag(args, o).call == F.CreateTag(Obj(Pick(Names(CreateTagFields), args)))
      && (o.Resolved? ==>
            CreateTag(args, o).envelope ==
              Ok(Structured(Created("tagId", o.value, "Tag created: " + args["title"].s))))
  {
    assert DistinctNames(CreateTagFields);
    DecodeArgsSpec(CreateTagFields, args);
    assert CreateTagFields[0].name == "title";
    assert Accepts(CreateTagFields[0], args) ==> args["title"].Str?;
    if DecodeArgs(CreateTagFields, args).Some? {
      DecodeArgsPicks(CreateTagFields, args);
    }
  }

  /** `update_tag` sends the tag id on its own; the updates are the other supplied fields and never hold `tagId`. */
  lemma UpdateTagSpec(args: map<string, Value>, o: Outcome)
    ensures !("tagId" in args && args["tagId"].Str?) ==> UpdateTag(args, o) == InvalidParams
    ensures UpdateTag(args, o).Handled? ==>
      && UpdateTag(args, o).call == F.UpdateTag(args["tagId"].s, Obj(Pick(Names(UpdateTagFields) - {"tagId"}, args)))
      && "tagId" !in UpdateTag(args, o).call.updates.fields
      && (o.Resolved? ==> UpdateTag(args, o).envelope == Ok(Structured(Done("Tag updated successfully"))))
  {
    if DecodeArgs(UpdateTagFields, args).Some? {
      UpdateTagArgs(args);
    }
  }

  lemma UpdateTagArgs(args: map<string, Value>)
    requires DecodeArgs(UpdateTagFields, args).Some?
    ensures "tagId" in args && args["tagId"].Str?
    ensures Get(Obj(DecodeArgs(UpdateTagFields, args).value), "tagId") == args["tagId"]
    ensures DecodeArgs(UpdateTagFields, args).value - {"tagId"} == Pick(Names(UpdateTagFields) - {"tagId"}, args)
  {
    assert DistinctNames(UpdateTagFields);
    RequiredField(UpdateTagFields, args, 0);
    DecodeArgsPicks(UpdateTagFields, args);
    var p := DecodeArgs(UpdateTagFields, args).value;
    assert p - {"tagId"} == Pick(Names(UpdateTagFields) - {"tagId"}, args);
  }

  /** Every tag tool whose request fails replies `Error: <message>` with `isError` set. */
  lemma TagToolsReportFailures(args: map<string, Value>, message: string)
    ensures ListTags(Rejected(message)).envelope == ErrorEnvelope(message)
    ensures CreateTag(args, Rejected(message)).Handled? ==>
      CreateTag(args, Rejected(message)).envelope == ErrorEnvelope(message)
    ensures UpdateTag(args, Rejected(message)).Handled? ==>
      UpdateTag(args, Rejected(message)).envelope == ErrorEnvelope(message)
  {
  }
}
