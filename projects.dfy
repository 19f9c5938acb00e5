/** The project tools (src/tools/projects.ts): `list_projects` and `create_project`. */
module Projects {
  import opened Json
  import opened Schema
  import opened Bridge
  import opened Replies
  import Tags
  import F = Facade

  const CreateProjectFields: seq<Field> := [
    Field("title", TString, Required),
    Field("theme", TRecord, Optional),
    Field("isArchived", TBool, Defaulted(Bool(false)))
  ]

  /** `list_projects` takes no arguments. */
  function ListProjects(o: Outcome): ToolResult {
    Handled(F.GetProjects, Respond(o, (v: Value) => Tags.ListReply("projects", v)))
  }

  function CreateProject(args: map<string, Value>, o: Outcome): ToolResult {
    match DecodeArgs(CreateProjectFields, args)
    case None => InvalidParams
    case Some(p) =>
      var message := "Project created: " + ToJsString(Get(Obj(p), "title"));
      Handled(F.CreateProject(Obj(p)), Respond(o, (v: Value) => Ok(Structured(Created("projectId", v, message)))))
  }

  /** `list_projects` reports the fetched projects unchanged with their `length` as the count. */
  lemma ListProjectsSpec(o: Outcome)
    ensures ListProjects(o).call == F.GetProjects
    ensures o.Resolved? && !Nullish(o.value) ==>
      var out := ListProjects(o).envelope.body.value;
      && ListProjects(o).envelope.Ok? && Get(out, "projects") == o.value && Get(out, "count") == Length(o.value)
      && (o.value.Arr? ==> Get(out, "count") == Num(|o.value.items|))
    ensures o.Resolved? && Nullish(o.value) ==> IsError(ListProjects(o).envelope)
  {
  }

  /** The `isArchived` the decoded arguments carry: the supplied one, or `false`. */
  function ArchivedArg(args: map<string, Value>): Value {
    if "isArchived" in args && args["isArchived"] != Undefined then args["isArchived"] else Bool(false)
  }

  /** The decoded `create_project` arguments: the supplied title and theme, and `isArchived`. */
  lemma CreateProjectArgs(args: map<string, Value>)
    requires DecodeArgs(CreateProjectFields, args).Some?
    ensures DecodeArgs(CreateProjectFields, args).value == Pick({"title", "theme"}, args)["isArchived" := ArchivedArg(args)]
    ensures "title" in args && args["title"].Str?
  {
    var fs := CreateProjectFields;
    assert DistinctNames(fs);
    DecodeArgsSpec(fs, args);
    assert fs[0].name == "title" && fs[1].name == "theme" && fs[2].name == "isArchived";
    assert Accepts(fs[0], args);
    var p := DecodeArgs(fs, args).value;
    var q := Pick({"title", "theme"}, args)["isArchived" := ArchivedArg(args)];
    assert p.Keys == OutputNames(fs, 0, args);
    assert forall k :: k in q ==> k in p && p[k] == q[k];
    assert p.Keys == q.Keys;
  }

  /**
    `create_project` needs a string `title`; it sends the supplied title and
    theme and `isArchived`, which is `false` unless given, and on success
    reports the new project's id and `Project created: <title>`.
   */
  lemma CreateProjectSpec(args: map<string, Value>, o: Outcome)
    ensures !("title" in args && args["title"].Str?) ==> CreateProject(args, o) == InvalidParams
    ensures CreateProject(args, o).Handled? ==>
      && CreateProject(args, o).call == F.CreateProject(Obj(Pick({"title", "theme"}, args)["isArchived" := ArchivedArg(args)]))
      && (o.Resolved? ==>
            CreateProject(args, o).envelope ==
              Ok(Structured(Created("projectId", o.value, "Project created: " + args["title"].s))))
  {
    if DecodeArgs(CreateProjectFields, args).Some? {
      CreateProjectArgs(args);
      var p := DecodeArgs(CreateProjectFields, args).value;
      assert Get(Obj(p), "title") == args["title"];
    }
  }

  /** Both project tools reply `Error: <message>` with `isError` set when their request fails. */
  lemma ProjectToolsReportFailures(args: map<string, Value>, message: string)
    ensures ListProjects(Rejected(message)).envelope == ErrorEnvelope(message)
    ensures CreateProject(args, Rejected(message)).Handled? ==>
      CreateProject(args, Rejected(message)).envelope == ErrorEnvelope(message)
  {
  }
}
