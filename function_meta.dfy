// Model of compiler/parser/function_meta.rs: turning the deserialised
// description of an external function into a `FunctionMeta`, resolving type
// names against the context's datatypes. The datatypes are searched in the
// order of the sequence that stands for the context's hash map; the fresh
// ids of the arguments come from a counter starting at `next`.

module FunctionMetas {
  import opened Wrappers
  import opened Objects

  /** `FunctionStyle`. */
  datatype FunctionStyle = C | Smisc

  /** `FunctionArgument`: the name the body uses (none for `_`), the
      argument's own object id and the id of its type. */
  datatype FunctionArgument = FunctionArgument(name: Option<string>, ownUuid: Uuid, typeUuid: Uuid)

  /** `FunctionMeta`. */
  datatype FunctionMeta = FunctionMeta(
    codeName: string,
    assemblyName: string,
    assemblyStyle: FunctionStyle,
    returnTypeUuid: Option<Uuid>,
    arguments: seq<FunctionArgument>)

  /** `FunctionArgumentJson`. */
  datatype FunctionArgumentJson = FunctionArgumentJson(name: string, typeName: string)

  /** `FunctionMetaJson`. */
  datatype FunctionMetaJson = FunctionMetaJson(
    codeName: string,
    assemblyName: string,
    assemblyStyle: string,
    returnTypeName: string,
    arguments: seq<FunctionArgumentJson>)

  /** The id of the first datatype called `name`. */
  function FindType(datatypes: seq<(Uuid, ObjectType)>, name: string): (r: Option<Uuid>)
    ensures r.Some? <==> exists i :: 0 <= i < |datatypes| && datatypes[i].1.name == name
    ensures r.Some? ==> exists i :: 0 <= i < |datatypes| && datatypes[i].1.name == name && datatypes[i].0 == r.value
  {
    if |datatypes| == 0 then None
    else if datatypes[0].1.name == name then Some(datatypes[0].0)
    else
      var rest := FindType(datatypes[1..], name);
      assert forall i :: 1 <= i < |datatypes| ==> datatypes[i] == datatypes[1..][i - 1];
      rest
  }

  /** The style named by its serialised form. */
  function StyleFrom(s: string): (r: Option<FunctionStyle>)
    ensures r == Some(C) <==> s == "C"
    ensures r == Some(Smisc) <==> s == "SMISC"
  {
    if s == "C" then Some(C)
    else if s == "SMISC" then Some(Smisc)
    else None
  }

  /** `FunctionArgumentJson::to_function_argument`, with `ownId` as the new
      own id. An unknown type name panics. */
  function ToFunctionArgument(json: FunctionArgumentJson, datatypes: seq<(Uuid, ObjectType)>, ownId: Uuid)
    : (r: Outcome<FunctionArgument>)
    ensures r.Ok? <==> FindType(datatypes, json.typeName).Some?
    ensures !r.Diverged?
    ensures r.Ok? ==> r.value.ownUuid == ownId && r.value.typeUuid == FindType(datatypes, json.typeName).value
    ensures r.Ok? ==> (r.value.name.None? <==> json.name == "_")
    ensures r.Ok? && json.name != "_" ==> r.value.name == Some(json.name)
  {
    match FindType(datatypes, json.typeName)
    case None => Panic("called `Option::unwrap()` on a `None` value")
    case Some(typeUuid) =>
      var name := if json.name == "_" then None else Some(json.name);
      Ok(FunctionArgument(name, ownId, typeUuid))
  }

  /** The arguments converted in order, the `i`-th receiving the id
      `next + i`; the first failure is the result. */
  function ToFunctionArguments(jsons: seq<FunctionArgumentJson>, datatypes: seq<(Uuid, ObjectType)>, next: Uuid)
    : (r: Outcome<seq<FunctionArgument>>)
    ensures !r.Diverged?
    ensures r.Ok? <==> forall i :: 0 <= i < |jsons| ==> FindType(datatypes, jsons[i].typeName).Some?
    ensures r.Ok? ==> |r.value| == |jsons|
    ensures r.Ok? ==> forall i :: 0 <= i < |jsons| ==> Ok(r.value[i]) == ToFunctionArgument(jsons[i], datatypes, next + i)
  {
    if |jsons| == 0 then Ok([])
    else
      var first := ToFunctionArgument(jsons[0], datatypes, next);
      if first.Panic? then Panic(first.reason)
      else
        var rest := ToFunctionArguments(jsons[1..], datatypes, next + 1);
        ArgumentsTail(jsons, datatypes);
        if rest.Panic? then Panic(rest.reason)
        else
          ArgumentsCons(jsons, datatypes, next, first.value, rest.value);
          Ok([first.value] + rest.value)
  }

  /** The type names after the first resolve exactly when those of the tail
      do. */
  lemma ArgumentsTail(jsons: seq<FunctionArgumentJson>, datatypes: seq<(Uuid, ObjectType)>)
    requires |jsons| > 0
    ensures (forall i :: 0 <= i < |jsons| ==> FindType(datatypes, jsons[i].typeName).Some?)
            <==> FindType(datatypes, jsons[0].typeName).Some?
                 && forall i :: 0 <= i < |jsons[1..]| ==> FindType(datatypes, jsons[1..][i].typeName).Some?
  {
    assert forall i :: 1 <= i < |jsons| ==> jsons[i] == jsons[1..][i - 1];
  }

  /** The first argument's conversion followed by the tail's is the
      conversion of every argument at its own id. */
  lemma ArgumentsCons(jsons: seq<FunctionArgumentJson>, datatypes: seq<(Uuid, ObjectType)>, next: Uuid,
                      first: FunctionArgument, rest: seq<FunctionArgument>)
    requires |jsons| > 0 && Ok(first) == ToFunctionArgument(jsons[0], datatypes, next)
    requires |rest| == |jsons| - 1
    requires forall i :: 0 <= i < |jsons[1..]| ==> Ok(rest[i]) == ToFunctionArgument(jsons[1..][i], datatypes, next + 1 + i)
    ensures forall i :: 0 <= i < |jsons| ==> Ok(([first] + rest)[i]) == ToFunctionArgument(jsons[i], datatypes, next + i)
  {
    forall i | 1 <= i < |jsons|
      ensures Ok(([first] + rest)[i]) == ToFunctionArgument(jsons[i], datatypes, next + i)
    {
      assert jsons[i] == jsons[1..][i - 1];
    }
  }

  /** `FunctionMetaJson::to_function_meta`: the style is resolved first,
      then the arguments, then the return type; each can panic. The
      conversion succeeds exactly when the style is known, every argument
      type exists and the return type is absent or exists. */
  function ToFunctionMeta(json: FunctionMetaJson, datatypes: seq<(Uuid, ObjectType)>, next: Uuid): (r: Outcome<FunctionMeta>)
    ensures r.Ok?
      <==> (json.assemblyStyle == "C" || json.assemblyStyle == "SMISC")
           && (forall i :: 0 <= i < |json.arguments| ==> FindType(datatypes, json.arguments[i].typeName).Some?)
           && (json.returnTypeName == "" || FindType(datatypes, json.returnTypeName).Some?)
    ensures !r.Diverged?
  {
    match StyleFrom(json.assemblyStyle)
    case None => Panic("Unknown assembly style: " + json.assemblyStyle)
    case Some(style) =>
      var arguments := ToFunctionArguments(json.arguments, datatypes, next);
      if arguments.Panic? then Panic(arguments.reason)
      else if arguments.Diverged? then Diverged
      else
        var returnType :=
          if json.returnTypeName == "" then Ok(None)
          else
            match FindType(datatypes, json.returnTypeName)
            case Some(t) => Ok(Some(t))
            case None => Panic("Type not found: " + json.returnTypeName);
        if returnType.Panic? then Panic(returnType.reason)
        else if returnType.Diverged? then Diverged
        else Ok(FunctionMeta(json.codeName, json.assemblyName, style, returnType.value, arguments.value))
  }

  /** A converted meta keeps both names, has the named style, one argument
      per described argument in order, and a return type exactly when one is
      named. */
  lemma ToFunctionMetaContents(json: FunctionMetaJson, datatypes: seq<(Uuid, ObjectType)>, next: Uuid)
    requires ToFunctionMeta(json, datatypes, next).Ok?
    ensures var m := ToFunctionMeta(json, datatypes, next).value;
      m.codeName == json.codeName && m.assemblyName == json.assemblyName
      && StyleFrom(json.assemblyStyle) == Some(m.assemblyStyle)
      && (m.returnTypeUuid.None? <==> json.returnTypeName == "")
      && (m.returnTypeUuid.Some? ==> m.returnTypeUuid == FindType(datatypes, json.returnTypeName))
      && |m.arguments| == |json.arguments|
      && (forall i :: 0 <= i < |m.arguments| ==>
            Ok(m.arguments[i]) == ToFunctionArgument(json.arguments[i], datatypes, next + i))
  {
  }

  /** The arguments of one meta receive pairwise distinct own ids. */
  lemma {:induction false} ArgumentIdsDistinct(json: FunctionMetaJson, datatypes: seq<(Uuid, ObjectType)>, next: Uuid)
    requires ToFunctionMeta(json, datatypes, next).Ok?
    ensures var args := ToFunctionMeta(json, datatypes, next).value.arguments;
      forall i, j :: 0 <= i < j < |args| ==> args[i].ownUuid != args[j].ownUuid
  {
    ToFunctionMetaContents(json, datatypes, next);
    var args := ToFunctionMeta(json, datatypes, next).value.arguments;
    forall i, j | 0 <= i < j < |args|
      ensures args[i].ownUuid != args[j].ownUuid
    {
      assert args[i].ownUuid == next + i;
      assert args[j].ownUuid == next + j;
    }
  }
}
