// The syntax tree of compiler/parser/tree/node.rs: one variant per node
// kind, with the queries that do not lower anything: whether a node's output
// may be mutated in place, and the datatypes it can have.

module Nodes {
  import opened Wrappers
  import opened Objects
  import Tokens
  import IntegerTypes
  import Operators
  import FunctionMetas
  import Diagnostics

  /** A node's position: its line number and the position of its token. */
  datatype NodePosition = NodePosition(line: nat, token: Tokens.TokenPosition)

  /** `ParameterDescriptor` of compiler/parser/parse_datatype.rs: the
      external name, the name inside the body, and the type's id. */
  datatype ParameterDescriptor = ParameterDescriptor(name: Option<string>, internalName: Option<string>, datatypeUuid: Uuid)

  /** The node kinds. `ValueNode` and `LiteralValueNode` are shells around
      one other node; `AssignmentNode.leftSide` is an identifier node,
      `FunctionDeclarationNode.block` and the elements of
      `CodeBlockArray.codeBlocks` are code blocks. */
  datatype Node =
    | ValueNode(inner: Node)
    | LiteralValueNode(inner: Node)
    | IdentifierNode(identifier: string, dataType: Option<ObjectType>, position: NodePosition)
    | BoolLiteralNode(truth: bool, position: NodePosition)
    | IntegerLiteralNode(content: int, kind: Option<IntegerTypes.IntegerType>, position: NodePosition)
    | ArithmeticNode(operation: Operators.Operation, argumentA: Node, argumentB: Node, position: NodePosition)
    | AssignmentNode(leftSide: Node, rightSide: Node, position: NodePosition)
    | AssignmentSymbolNode(position: NodePosition)
    | LetNode(identifier: string, assignedValue: Option<Node>, isMutable: bool, position: NodePosition)
    | CodeBlockNode(position: NodePosition, blockLabel: Option<string>, code: seq<Node>)
    | ExitNode(returnValue: Node, position: NodePosition)
    | FunctionCallNode(name: string, arguments: seq<Node>, position: NodePosition)
    | CodeBlockArray(position: NodePosition, codeBlocks: seq<Node>)
    | FunctionDeclarationNode(position: NodePosition, name: string, block: Node,
                              parameters: seq<ParameterDescriptor>,
                              parameterFunctionArgs: seq<FunctionMetas.FunctionArgument>)
    | ArgumentsNode(position: NodePosition, args: seq<ParameterDescriptor>)
    | StringLiteralNode(position: NodePosition, text: string)

  /** `get_position`: shells report the position of what they contain,
      every other node its own. */
  function GetPosition(n: Node): (r: NodePosition)
    ensures !n.ValueNode? && !n.LiteralValueNode? ==> r == n.position
  {
    match n
    case ValueNode(inner) => GetPosition(inner)
    case LiteralValueNode(inner) => GetPosition(inner)
    case _ => n.position
  }

  /** The nodes that stand for a statement rather than a value: none of
      them delivers an output. */
  predicate IsStatement(n: Node): (r: bool)
    ensures r ==> OutputIsRandomlyMutable(n).None?
  {
    n.AssignmentNode? || n.AssignmentSymbolNode? || n.LetNode? || n.CodeBlockNode? || n.ExitNode?
      || n.FunctionCallNode? || n.CodeBlockArray? || n.FunctionDeclarationNode? || n.ArgumentsNode?
  }

  /** `output_is_randomly_mutable`: `None` when the node delivers no
      output, `Some(true)` when its output is a temporary that may be
      computed into, `Some(false)` when it must be preserved. Arithmetic
      is `a? || b?`, which short-circuits: a mutable left operand makes the
      node mutable without asking the right one. */
  function OutputIsRandomlyMutable(n: Node): (r: Option<bool>)
    ensures n.IdentifierNode? ==> r == Some(false)
    ensures n.BoolLiteralNode? || n.IntegerLiteralNode? || n.StringLiteralNode? || n.LiteralValueNode? ==> r == Some(true)
  {
    match n
    case ValueNode(inner) => OutputIsRandomlyMutable(inner)
    case LiteralValueNode(_) => Some(true)
    case IdentifierNode(_, _, _) => Some(false)
    case BoolLiteralNode(_, _) => Some(true)
    case IntegerLiteralNode(_, _, _) => Some(true)
    case StringLiteralNode(_, _) => Some(true)
    case ArithmeticNode(_, a, b, _) =>
      var ma := OutputIsRandomlyMutable(a);
      if ma.None? then None
      else if ma.value then Some(true)
      else OutputIsRandomlyMutable(b)
    case _ => None
  }

  /** Arithmetic output is mutable exactly when one operand's is, reading
      the left one first; it is absent when the left one is, or when the
      left one is preserved and the right one absent. */
  lemma ArithmeticMutability(op: Operators.Operation, a: Node, b: Node, p: NodePosition)
    ensures OutputIsRandomlyMutable(ArithmeticNode(op, a, b, p)) == Some(true)
      <==> OutputIsRandomlyMutable(a) == Some(true)
           || (OutputIsRandomlyMutable(a) == Some(false) && OutputIsRandomlyMutable(b) == Some(true))
    ensures OutputIsRandomlyMutable(ArithmeticNode(op, a, b, p)).None?
      <==> OutputIsRandomlyMutable(a).None?
           || (OutputIsRandomlyMutable(a) == Some(false) && OutputIsRandomlyMutable(b).None?)
    ensures OutputIsRandomlyMutable(a).Some? && OutputIsRandomlyMutable(b).Some? ==>
      OutputIsRandomlyMutable(ArithmeticNode(op, a, b, p))
        == Some(OutputIsRandomlyMutable(a).value || OutputIsRandomlyMutable(b).value)
  {
  }

  /** `unpack`: shells are replaced by what they contain, the code block,
      exit and call nodes cannot be unpacked (`todo!`), and every other
      node is its own unpacking. */
  function Unpack(n: Node): (r: Outcome<Node>)
    ensures !r.Diverged?
    ensures r.Ok? ==> !r.value.ValueNode? && !r.value.LiteralValueNode?
    ensures r.Panic? <==> UnpacksTo(n).CodeBlockNode? || UnpacksTo(n).ExitNode? || UnpacksTo(n).FunctionCallNode?
  {
    match n
    case ValueNode(inner) => Unpack(inner)
    case LiteralValueNode(inner) => Unpack(inner)
    case CodeBlockNode(_, _, _) => Panic("not yet implemented")
    case ExitNode(_, _) => Panic("not yet implemented")
    case FunctionCallNode(_, _, _) => Panic("not yet implemented")
    case _ => Ok(n)
  }

  /** The node found below all the shells. */
  function UnpacksTo(n: Node): (r: Node)
    ensures !r.ValueNode? && !r.LiteralValueNode?
  {
    if n.ValueNode? || n.LiteralValueNode? then UnpacksTo(n.inner) else n
  }

  /** The trait that marks the string type. */
  const BasicString: string := "basic_string"

  /** The first type having (a trait starting with) `q`. */
  function FirstWithTrait(types: seq<ObjectType>, q: string): (r: Option<ObjectType>)
    ensures r.Some? ==> r.value in types && HasTrait(r.value, q)
    ensures r.None? ==> forall i :: 0 <= i < |types| ==> !HasTrait(types[i], q)
  {
    if |types| == 0 then None
    else if HasTrait(types[0], q) then Some(types[0])
    else FirstWithTrait(types[1..], q)
  }

  /** Every type having (a trait starting with) `q`, in order. */
  function AllWithTrait(types: seq<ObjectType>, q: string): (r: seq<ObjectType>)
    ensures forall i :: 0 <= i < |r| ==> r[i] in types && HasTrait(r[i], q)
    ensures forall i :: 0 <= i < |types| && HasTrait(types[i], q) ==> types[i] in r
  {
    if |types| == 0 then []
    else (if HasTrait(types[0], q) then [types[0]] else []) + AllWithTrait(types[1..], q)
  }

  /** The first type called `name`. */
  function FirstNamed(types: seq<ObjectType>, name: string): (r: Option<ObjectType>)
    ensures r.Some? ==> r.value in types && r.value.name == name
    ensures r.None? ==> forall i :: 0 <= i < |types| ==> types[i].name != name
  {
    if |types| == 0 then None
    else if types[0].name == name then Some(types[0])
    else FirstNamed(types[1..], name)
  }

  /** The first type holding exactly the trait `t`. */
  function FirstHolding(types: seq<ObjectType>, t: Trait): (r: Option<ObjectType>)
    ensures r.Some? ==> r.value in types && t in r.value.traits
    ensures r.None? ==> forall i :: 0 <= i < |types| ==> t !in types[i].traits
  {
    if |types| == 0 then None
    else if t in types[0].traits then Some(types[0])
    else FirstHolding(types[1..], t)
  }

  /** `datatypes.get(id)`: the type registered under `id`. */
  function LookupType(datatypes: seq<(Uuid, ObjectType)>, id: Uuid): (r: Option<ObjectType>)
    ensures r.Some? ==> exists i :: 0 <= i < |datatypes| && datatypes[i] == (id, r.value)
    ensures r.None? ==> forall i :: 0 <= i < |datatypes| ==> datatypes[i].0 != id
  {
    if |datatypes| == 0 then None
    else if datatypes[0].0 == id then Some(datatypes[0].1)
    else
      var rest := LookupType(datatypes[1..], id);
      assert forall i :: 1 <= i < |datatypes| ==> datatypes[i] == datatypes[1..][i - 1];
      rest
  }

  /** The registered types, in registration order (`datatypes.values()`). */
  function TypeValues(datatypes: seq<(Uuid, ObjectType)>): (r: seq<ObjectType>)
    ensures |r| == |datatypes| && forall i :: 0 <= i < |r| ==> r[i] == datatypes[i].1
  {
    if |datatypes| == 0 then [] else [datatypes[0].1] + TypeValues(datatypes[1..])
  }

  /** The first function meta with the given code name. */
  function FindMeta(metas: seq<FunctionMetas.FunctionMeta>, name: string): (r: Option<FunctionMetas.FunctionMeta>)
    ensures r.Some? ==> r.value in metas && r.value.codeName == name
    ensures r.None? ==> forall i :: 0 <= i < |metas| ==> metas[i].codeName != name
  {
    if |metas| == 0 then None
    else if metas[0].codeName == name then Some(metas[0])
    else FindMeta(metas[1..], name)
  }

  /** The context state that type queries and lowering read: the fields of
      the back-end `Context`, with the line map as the diagnostics log. */
  datatype ContextState = ContextState(
    objects: map<Uuid, Uuid>,
    mutableObjects: seq<Uuid>,
    nameMap: map<string, Uuid>,
    datatypes: seq<(Uuid, ObjectType)>,
    functionMetas: seq<FunctionMetas.FunctionMeta>,
    labelCount: nat,
    lineMap: seq<Diagnostics.Notification>)

  /** `get_datatypes`: the types the node's value can have, or `None`
      when it has none; a bool literal without a boolean type panics. */
  function GetDatatypes(n: Node, allTypes: seq<ObjectType>, context: ContextState): (r: Outcome<Option<seq<ObjectType>>>)
    ensures !r.Diverged?
    ensures IsStatement(n) && !n.FunctionCallNode? ==> r == Ok(None)
  {
    match n
    case ValueNode(inner) => GetDatatypes(inner, allTypes, context)
    case LiteralValueNode(inner) => GetDatatypes(inner, allTypes, context)
    case IdentifierNode(identifier, dataType, _) =>
      if dataType.Some? then Ok(Some([dataType.value]))
      else if identifier !in context.nameMap then Ok(None)
      else if context.nameMap[identifier] !in context.objects then Ok(None)
      else
        var t := LookupType(context.datatypes, context.objects[context.nameMap[identifier]]);
        if t.None? then Ok(None) else Ok(Some([t.value]))
    case BoolLiteralNode(_, _) =>
      var t := FirstWithTrait(allTypes, BooleanCompatible);
      if t.None? then Panic("Can't Find Boolean Data Type") else Ok(Some([t.value]))
    case IntegerLiteralNode(_, kind, _) =>
      var named := if kind.Some? then FirstNamed(allTypes, IntegerTypes.CodeName(kind.value)) else None;
      if named.Some? then Ok(Some([named.value]))
      else Ok(Some(AllWithTrait(allTypes, Integer)))
    case ArithmeticNode(operation, a, _, _) =>
      var boolean := if Operators.IsBoolean(operation) then FirstWithTrait(allTypes, BooleanCompatible) else None;
      if boolean.Some? then Ok(Some([boolean.value]))
      else GetDatatypes(a, allTypes, context)
    case FunctionCallNode(name, _, _) =>
      var meta := FindMeta(context.functionMetas, name);
      if meta.None? || meta.value.returnTypeUuid.None? then Ok(None)
      else
        var t := LookupType(context.datatypes, meta.value.returnTypeUuid.value);
        if t.None? then Ok(None) else Ok(Some([t.value]))
    case StringLiteralNode(_, _) =>
      var t := FirstHolding(allTypes, Trait(BasicString));
      if t.None? then Ok(None) else Ok(Some([t.value]))
    case _ => Ok(None)
  }

  /** An integer literal of a known kind whose type is present has exactly
      that type; otherwise it may be any integer type. */
  lemma IntegerLiteralTypes(content: int, kind: Option<IntegerTypes.IntegerType>, p: NodePosition,
                            allTypes: seq<ObjectType>, context: ContextState)
    ensures var r := GetDatatypes(IntegerLiteralNode(content, kind, p), allTypes, context);
      r.Ok? && r.value.Some?
      && (forall i :: 0 <= i < |r.value.value| ==> r.value.value[i] in allTypes)
      && (kind.Some? && FirstNamed(allTypes, IntegerTypes.CodeName(kind.value)).Some? ==>
            |r.value.value| == 1 && r.value.value[0].name == IntegerTypes.CodeName(kind.value))
      && (kind.None? ==> forall i :: 0 <= i < |r.value.value| ==> HasTrait(r.value.value[i], Integer))
  {
  }

  /** A comparison has the boolean type when there is one; a bool literal
      has it or panics. */
  lemma BooleanTypes(op: Operators.Operation, a: Node, b: Node, p: NodePosition, truth: bool,
                     allTypes: seq<ObjectType>, context: ContextState)
    requires FirstWithTrait(allTypes, BooleanCompatible).Some?
    ensures Operators.IsBoolean(op) ==>
      GetDatatypes(ArithmeticNode(op, a, b, p), allTypes, context)
        == Ok(Some([FirstWithTrait(allTypes, BooleanCompatible).value]))
    ensures GetDatatypes(BoolLiteralNode(truth, p), allTypes, context)
        == Ok(Some([FirstWithTrait(allTypes, BooleanCompatible).value]))
    ensures HasTrait(FirstWithTrait(allTypes, BooleanCompatible).value, BooleanCompatible)
  {
  }
}
