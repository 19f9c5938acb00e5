/**
  The part of the zod validator the tool declarations use: strings, numbers,
  booleans, string enums, records, arrays and objects, each field required,
  optional or defaulted.  Decoding an object keeps only the declared fields
  (zod strips the others), fills in defaults and rejects a value of the wrong
  type or a missing required field.  Validation messages are not modelled;
  a failed decode is `None`.
 */
module Schema {
  import opened Json

  datatype FieldType =
    | TString
    | TNumber
    | TBool
    | TEnum(options: seq<string>)
    | TRecord
    | TArray(elem: FieldType)
    | TObject(fields: seq<Field>)

  datatype Presence = Required | Optional | Defaulted(default: Value)

  datatype Field = Field(name: string, ty: FieldType, presence: Presence)

  /** A field counts as supplied when its key is there with a value other than `undefined`. */
  predicate Supplied(f: Field, m: map<string, Value>) {
    f.name in m && m[f.name] != Undefined
  }

  function Decode(ty: FieldType, v: Value): Option<Value>
    decreases ty, 1
  {
    match ty
    case TString => if v.Str? then Some(v) else None
    case TNumber => if v.Num? then Some(v) else None
    case TBool => if v.Bool? then Some(v) else None
    case TEnum(options) => if v.Str? && v.s in options then Some(v) else None
    case TRecord => if v.Obj? then Some(v) else None
    case TArray(_) =>
      if v.Arr? then
        var items := DecodeItems(ty, v.items, 0);
        if items.Some? then Some(Arr(items.value)) else None
      else None
    case TObject(_) =>
      if v.Obj? then
        var m := DecodeFields(ty, 0, v.fields);
        if m.Some? then Some(Obj(m.value)) else None
      else None
  }

  function DecodeItems(ty: FieldType, items: seq<Value>, i: nat): Option<seq<Value>>
    requires ty.TArray?
    decreases ty, 0, |items| - i
  {
    if i >= |items| then Some([])
    else
      var head := Decode(ty.elem, items[i]);
      var tail := DecodeItems(ty, items, i + 1);
      if head.Some? && tail.Some? then Some([head.value] + tail.value) else None
  }

  function DecodeFields(ty: FieldType, i: nat, m: map<string, Value>): Option<map<string, Value>>
    requires ty.TObject?
    decreases ty, 0, |ty.fields| - i
  {
    if i >= |ty.fields| then Some(map[])
    else
      var f := ty.fields[i];
      var rest := DecodeFields(ty, i + 1, m);
      if rest.None? then None
      else if Supplied(f, m) then
        var d := Decode(f.ty, m[f.name]);
        if d.Some? then Some(rest.value[f.name := d.value]) else None
      else
        match f.presence
        case Required => None
        case Optional => rest
        case Defaulted(dv) => Some(rest.value[f.name := dv])
  }

  /** The arguments of a tool call decoded against the tool's declared fields. */
  function DecodeArgs(fields: seq<Field>, args: map<string, Value>): Option<map<string, Value>> {
    DecodeFields(TObject(fields), 0, args)
  }

  predicate DistinctNames(fields: seq<Field>) {
    forall i, j :: 0 <= i < j < |fields| ==> fields[i].name != fields[j].name
  }

  /** What zod demands of one field: a supplied value of the right type, or a field that may be left out. */
  predicate Accepts(f: Field, m: map<string, Value>) {
    if Supplied(f, m) then Decode(f.ty, m[f.name]).Some? else !f.presence.Required?
  }

  /** The names the decoded object carries: the supplied fields and the defaulted ones. */
  function OutputNames(fields: seq<Field>, i: nat, m: map<string, Value>): set<string> {
    set j | i <= j < |fields| && (Supplied(fields[j], m) || fields[j].presence.Defaulted?) :: fields[j].name
  }

  /**
    Decoding an object succeeds exactly when every declared field is
    accepted; the result then holds exactly the supplied and defaulted
    fields, each supplied one decoded from the input and each missing
    defaulted one set to its default.
   */
  lemma {:induction false} DecodeFieldsSpec(ty: FieldType, i: nat, m: map<string, Value>)
    requires ty.TObject? && i <= |ty.fields| && DistinctNames(ty.fields)
    ensures DecodeFields(ty, i, m).Some? <==> forall j :: i <= j < |ty.fields| ==> Accepts(ty.fields[j], m)
    ensures DecodeFields(ty, i, m).Some? ==>
      var out := DecodeFields(ty, i, m).value;
      && out.Keys == OutputNames(ty.fields, i, m)
      && forall j :: i <= j < |ty.fields| ==>
           var f := ty.fields[j];
           && (Supplied(f, m) ==> out[f.name] == Decode(f.ty, m[f.name]).value)
           && (!Supplied(f, m) && f.presence.Defaulted? ==> out[f.name] == f.presence.default)
    decreases |ty.fields| - i
  {
    var fs := ty.fields;
    if i < |fs| {
      DecodeFieldsSpec(ty, i + 1, m);
      var f := fs[i];
      var rest := DecodeFields(ty, i + 1, m);
      if rest.Some? {
        assert OutputNames(fs, i, m) ==
          OutputNames(fs, i + 1, m) + (if Supplied(f, m) || f.presence.Defaulted? then {f.name} else {});
      }
    } else {
      assert OutputNames(fs, i, m) == {};
    }
  }

  /** Types whose decoded value is the input value itself. */
  predicate Flat(ty: FieldType) {
    ty.TString? || ty.TNumber? || ty.TBool? || ty.TEnum? || ty.TRecord? || (ty.TArray? && ty.elem.TString?)
  }

  /** A string array decodes to itself. */
  lemma {:induction false} StringItemsUnchanged(ty: FieldType, items: seq<Value>, i: nat)
    requires ty == TArray(TString) && i <= |items|
    ensures DecodeItems(ty, items, i).Some? <==> forall j :: i <= j < |items| ==> items[j].Str?
    ensures DecodeItems(ty, items, i).Some? ==> DecodeItems(ty, items, i).value == items[i..]
    decreases |items| - i
  {
    if i < |items| {
      StringItemsUnchanged(ty, items, i + 1);
      assert items[i..] == [items[i]] + items[i + 1..];
    }
  }

  /** Scalar, record and string-array fields pass through decoding unchanged. */
  lemma FlatDecodeIsIdentity(ty: FieldType, v: Value)
    requires Flat(ty)
    ensures Decode(ty, v).Some? ==> Decode(ty, v).value == v
  {
    if ty.TArray? && v.Arr? {
      StringItemsUnchanged(ty, v.items, 0);
      assert v.items[0..] == v.items;
    }
  }

  /**
    The decoded arguments of a tool whose fields are all flat: every key is
    declared, every supplied field keeps the caller's value, and every
    missing defaulted field holds its default.
   */
  lemma DecodeArgsSpec(fields: seq<Field>, args: map<string, Value>)
    requires DistinctNames(fields)
    requires forall j :: 0 <= j < |fields| ==> Flat(fields[j].ty)
    ensures DecodeArgs(fields, args).Some? <==> forall j :: 0 <= j < |fields| ==> Accepts(fields[j], args)
    ensures DecodeArgs(fields, args).Some? ==>
      var p := DecodeArgs(fields, args).value;
      && p.Keys == OutputNames(fields, 0, args)
      && forall j :: 0 <= j < |fields| ==>
           var f := fields[j];
           && (Supplied(f, args) ==> p[f.name] == args[f.name])
           && (!Supplied(f, args) && f.presence.Defaulted? ==> p[f.name] == f.presence.default)
  {
    DecodeFieldsSpec(TObject(fields), 0, args);
    forall j | 0 <= j < |fields| && Supplied(fields[j], args) {
      FlatDecodeIsIdentity(fields[j].ty, args[fields[j].name]);
    }
  }

  /** A required field of a successful decode was supplied with a value of its type, which the result keeps. */
  lemma RequiredField(fields: seq<Field>, args: map<string, Value>, j: nat)
    requires DistinctNames(fields) && j < |fields| && fields[j].presence.Required? && Flat(fields[j].ty)
    requires DecodeArgs(fields, args).Some?
    ensures fields[j].name in args && Decode(fields[j].ty, args[fields[j].name]).Some?
    ensures fields[j].name in DecodeArgs(fields, args).value
    ensures DecodeArgs(fields, args).value[fields[j].name] == args[fields[j].name]
  {
    DecodeFieldsSpec(TObject(fields), 0, args);
    assert Accepts(fields[j], args);
    FlatDecodeIsIdentity(fields[j].ty, args[fields[j].name]);
  }

  /** The declared field names. */
  function Names(fields: seq<Field>): set<string> {
    set j | 0 <= j < |fields| :: fields[j].name
  }

  /** The supplied arguments among the given names, as zod keeps them when nothing is defaulted. */
  function Pick(names: set<string>, args: map<string, Value>): map<string, Value> {
    map k | k in args && k in names && args[k] != Undefined :: args[k]
  }

  /**
    For a tool whose fields are flat and have no defaults, the decoded
    arguments are exactly what the caller supplied for the declared names.
   */
  lemma DecodeArgsPicks(fields: seq<Field>, args: map<string, Value>)
    requires DistinctNames(fields)
    requires forall j :: 0 <= j < |fields| ==> Flat(fields[j].ty) && !fields[j].presence.Defaulted?
    requires DecodeArgs(fields, args).Some?
    ensures DecodeArgs(fields, args).value == Pick(Names(fields), args)
  {
    DecodeArgsSpec(fields, args);
    var p := DecodeArgs(fields, args).value;
    var q := Pick(Names(fields), args);
    forall k | k in q
      ensures k in p && p[k] == q[k]
    {
      var j :| 0 <= j < |fields| && fields[j].name == k;
      assert Supplied(fields[j], args);
    }
    assert p.Keys == q.Keys;
  }

  /** An array decodes exactly when each item does, and the result holds the decoded items in order. */
  lemma {:induction false} DecodeItemsSpec(ty: FieldType, items: seq<Value>, i: nat)
    requires ty.TArray? && i <= |items|
    ensures DecodeItems(ty, items, i).Some? <==> forall j :: i <= j < |items| ==> Decode(ty.elem, items[j]).Some?
    ensures DecodeItems(ty, items, i).Some? ==>
      && |DecodeItems(ty, items, i).value| == |items| - i
      && forall j :: i <= j < |items| ==> DecodeItems(ty, items, i).value[j - i] == Decode(ty.elem, items[j]).value
    decreases |items| - i
  {
    if i < |items| {
      DecodeItemsSpec(ty, items, i + 1);
    }
  }
}
