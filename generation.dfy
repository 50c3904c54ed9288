// `generate_instructions` of compiler/parser/tree/node.rs as it runs: one
// method per node kind, updating the back-end context in place and drawing
// fresh ids from a supply, each proved to agree with the lowering functions
// of lowering.dfy (and so with everything proved about them).

module Generation {
  import opened Wrappers
  import opened Objects
  import opened Nodes
  import opened Instructions
  import opened Lowering
  import opened Contexts
  import Operators

  /** `Uuid::new_v4()`: a supply of ids, each handed out once. */
  class IdSupply {
    var next: nat

    constructor (start: nat)
      ensures next == start
    {
      next := start;
    }

    /** A fresh id: the counter before the call, which then moves on. */
    method Fresh() returns (id: Uuid)
      modifies this
      ensures id == old(next) && next == old(next) + 1
    {
      id := next;
      next := next + 1;
    }
  }

  /** The part of the context lowering reads and writes. */
  function StateOf(c: BackendContext): ContextState
    reads c
  {
    ContextState(c.objects, c.mutableObjects, c.nameMap, c.datatypes, c.functionMetas, c.labelCount, c.lineMap)
  }

  /** What `generate_instructions` returns: the instructions and the id
      holding the node's value. */
  type Generated = Outcome<(seq<Instruction>, Option<Uuid>)>

  /** A run agrees with the lowering function: it succeeds exactly when the
      function does, with the same instructions and value id, leaving the
      same context and counter; otherwise it panics for the same reason. */
  predicate Agrees(r: Generated, l: Outcome<Lowered>, s: ContextState, next: nat) {
    match l
    case Ok(v) => r == Ok((v.instructions, v.result)) && s == v.context && next == v.next
    case Panic(reason) => r == Panic(reason)
    case Diverged => r == Diverged
  }

  /** `Node::generate_instructions`, dispatched on the node kind. */
  method Generate(n: Node, context: BackendContext, ids: IdSupply) returns (r: Generated)
    modifies context, ids
    ensures Agrees(r, Lower(n, old(StateOf(context)), old(ids.next)), StateOf(context), ids.next)
    decreases n, 1
  {
    match n
    case ValueNode(inner) => r := GenerateUnpacked(inner, context, ids);
    case LiteralValueNode(_) => r := Panic(NotImplemented);
    case IdentifierNode(identifier, _, _) =>
      r := Ok(([], if identifier in context.nameMap then Some(context.nameMap[identifier]) else None));
    case BoolLiteralNode(truth, _) =>
      var id := ids.Fresh();
      r := Ok(([MoveData(id, BoolValue(truth))], Some(id)));
    case IntegerLiteralNode(content, _, _) =>
      var id := ids.Fresh();
      r := Ok(([MoveData(id, WrapI64(content))], Some(id)));
    case ArithmeticNode(_, _, _, _) => r := GenerateArithmetic(n, context, ids);
    case AssignmentNode(_, _, _) => r := GenerateAssignment(n, context, ids);
    case AssignmentSymbolNode(_) => r := Panic(NotImplemented);
    case LetNode(_, _, _, _) => r := GenerateLet(n, context, ids);
    case CodeBlockNode(_, _, _) => r := GenerateCodeBlock(n, context, ids);
    case ExitNode(_, _) => r := GenerateExit(n, context, ids);
    case FunctionCallNode(_, _, _) => r := GenerateFunctionCall(n, context, ids);
    case CodeBlockArray(_, _) => r := GenerateCodeBlockArray(n, context, ids);
    case FunctionDeclarationNode(_, _, _, _, _) => r := GenerateFunctionDeclaration(n, context, ids);
    case ArgumentsNode(_, _) => r := Ok(([], None));
    case StringLiteralNode(_, _) => r := Panic(NotImplemented);
  }

  /** A shell generates what `unpack` finds inside it. */
  method GenerateUnpacked(m: Node, context: BackendContext, ids: IdSupply) returns (r: Generated)
    modifies context, ids
    ensures Agrees(r, LowerUnpacked(m, old(StateOf(context)), old(ids.next)), StateOf(context), ids.next)
    decreases m, 2
  {
    match m
    case ValueNode(inner) => r := GenerateUnpacked(inner, context, ids);
    case LiteralValueNode(inner) => r := GenerateUnpacked(inner, context, ids);
    case CodeBlockNode(_, _, _) => r := Panic(NotImplemented);
    case ExitNode(_, _) => r := Panic(NotImplemented);
    case FunctionCallNode(_, _, _) => r := Panic(NotImplemented);
    case _ => r := Generate(m, context, ids);
  }

  /** `ArithmeticNode::generate_instructions`. */
  method GenerateArithmetic(n: Node, context: BackendContext, ids: IdSupply) returns (r: Generated)
    requires n.ArithmeticNode?
    modifies context, ids
    ensures Agrees(r, LowerArithmetic(n, old(StateOf(context)), old(ids.next)), StateOf(context), ids.next)
    decreases n, 0
  {
    var ga := Generate(n.argumentA, context, ids);
    if !ga.Ok? { return ga; }
    var gb := Generate(n.argumentB, context, ids);
    if !gb.Ok? { return gb; }
    if ga.value.1.None? { return Panic(Unwrapped); }
    var a := ga.value.1.value;
    var x := a;
    var mutableA := OutputIsRandomlyMutable(n.argumentA) == Some(true);
    if OutputIsRandomlyMutable(n.argumentB) == Some(true) && Operators.IsCommutative(n.operation) && !mutableA {
      if !OperationOrderIsArithmetic(n.operation) { return Panic(NotImplemented); }
      if gb.value.1.None? { return Panic(Unwrapped); }
      var b := gb.value.1.value;
      return Ok((ga.value.0 + gb.value.0 + [OperationInstruction(n.operation, b, x).value], Some(b)));
    }
    if !mutableA {
      x := ids.Fresh();
    }
    var move := if x != a then [Move(x, a)] else [];
    if !OperationOrderIsArithmetic(n.operation) { return Panic(NotImplemented); }
    if gb.value.1.None? { return Panic(Unwrapped); }
    r := Ok((ga.value.0 + gb.value.0 + move + [OperationInstruction(n.operation, x, gb.value.1.value).value], Some(x)));
  }

  /** `AssignmentNode::generate_instructions`. */
  method GenerateAssignment(n: Node, context: BackendContext, ids: IdSupply) returns (r: Generated)
    requires n.AssignmentNode?
    modifies context, ids
    ensures Agrees(r, LowerAssignment(n, old(StateOf(context)), old(ids.next)), StateOf(context), ids.next)
    decreases n, 0
  {
    var gl := Generate(n.leftSide, context, ids);
    if !gl.Ok? { return gl; }
    var gr := Generate(n.rightSide, context, ids);
    if !gr.Ok? { return gr; }
    var instructions := gl.value.0 + gr.value.0;
    if gl.value.1.None? { return Panic(Unwrapped); }
    if gl.value.1.value !in context.mutableObjects {
      context.lineMap := context.lineMap + [ImmutableAssignment];
      return Ok((instructions, None));
    }
    if gr.value.1.None? { return Panic(Unwrapped); }
    instructions := instructions + [Move(gl.value.1.value, gr.value.1.value)];
    r := Ok((instructions, None));
  }

  /** `LetNode::generate_instructions`. */
  method GenerateLet(n: Node, context: BackendContext, ids: IdSupply) returns (r: Generated)
    requires n.LetNode?
    modifies context, ids
    ensures Agrees(r, LowerLet(n, old(StateOf(context)), old(ids.next)), StateOf(context), ids.next)
    decreases n, 0
  {
    var instructions: seq<Instruction> := [];
    var result: Option<Uuid> := None;
    if n.assignedValue.Some? {
      var value := n.assignedValue.value;
      var g := Generate(value, context, ids);
      if !g.Ok? { return g; }
      instructions := g.value.0;
      if OutputIsRandomlyMutable(value) == Some(true) {
        result := g.value.1;
      } else {
        var id := ids.Fresh();
        result := Some(id);
        if g.value.1.None? { return Panic(Unwrapped); }
        instructions := instructions + [Move(id, g.value.1.value)];
      }
    }
    if result.None? {
      var id := ids.Fresh();
      result := Some(id);
    }
    if n.assignedValue.None? { return Panic(Unwrapped); }
    var types := GetDatatypes(n.assignedValue.value, TypeValues(context.datatypes), StateOf(context));
    if !types.Ok? { return Panic(types.reason); }
    if types.value.None? { return Panic(Unwrapped); }
    if |types.value.value| == 0 { return Panic(OutOfBounds); }
    context.objects := context.objects[result.value := types.value.value[0].typeUuid];
    context.nameMap := context.nameMap[n.identifier := result.value];
    if n.isMutable {
      context.mutableObjects := context.mutableObjects + [result.value];
    }
    r := Ok((instructions, None));
  }

  /** `CodeBlockNode::assign_label`: the block keeps its label or takes the
      next generated one, which is counted; the labelled block is returned,
      as the source updates the node in place. */
  method AssignBlockLabel(block: Node, context: BackendContext) returns (name: string, labelled: Node)
    requires block.CodeBlockNode?
    modifies context
    ensures (name, context.labelCount) == AssignLabel(block.blockLabel, old(context.labelCount))
    ensures labelled == block.(blockLabel := Some(name))
    ensures StateOf(context) == old(StateOf(context)).(labelCount := context.labelCount)
  {
    if block.blockLabel.Some? {
      name := block.blockLabel.value;
    } else {
      context.labelCount := context.labelCount + 1;
      name := LabelName(context.labelCount - 1);
    }
    labelled := block.(blockLabel := Some(name));
  }

  /** `CodeBlockNode::generate_instructions`: the label of a labelled copy,
      then every child's instructions in order. */
  method GenerateCodeBlock(n: Node, context: BackendContext, ids: IdSupply) returns (r: Generated)
    requires n.CodeBlockNode?
    modifies context, ids
    ensures Agrees(r, Lower(n, old(StateOf(context)), old(ids.next)), StateOf(context), ids.next)
    decreases n, 0
  {
    var name, copy := AssignBlockLabel(n, context);
    var instructions := [Label(name, false)];
    ghost var start := StateOf(context);
    ghost var startNext := ids.next;
    for i := 0 to |n.code|
      invariant LowerCode(n.code, i, instructions, StateOf(context), ids.next)
                == LowerCode(n.code, 0, [Label(name, false)], start, startNext)
    {
      var g := Generate(n.code[i], context, ids);
      if !g.Ok? { return g; }
      instructions := instructions + g.value.0;
    }
    r := Ok((instructions, None));
  }

  /** `CodeBlockArray::generate_instructions`: the blocks' instructions in
      order. */
  method GenerateCodeBlockArray(n: Node, context: BackendContext, ids: IdSupply) returns (r: Generated)
    requires n.CodeBlockArray?
    modifies context, ids
    ensures Agrees(r, Lower(n, old(StateOf(context)), old(ids.next)), StateOf(context), ids.next)
    decreases n, 0
  {
    var instructions: seq<Instruction> := [];
    for i := 0 to |n.codeBlocks|
      invariant LowerCode(n.codeBlocks, i, instructions, StateOf(context), ids.next)
                == LowerCode(n.codeBlocks, 0, [], old(StateOf(context)), old(ids.next))
    {
      var g := Generate(n.codeBlocks[i], context, ids);
      if !g.Ok? { return g; }
      instructions := instructions + g.value.0;
    }
    r := Ok((instructions, None));
  }

  /** `ExitNode::generate_instructions`. */
  method GenerateExit(n: Node, context: BackendContext, ids: IdSupply) returns (r: Generated)
    requires n.ExitNode?
    modifies context, ids
    ensures Agrees(r, LowerExit(n, old(StateOf(context)), old(ids.next)), StateOf(context), ids.next)
    decreases n, 0
  {
    var g := Generate(n.returnValue, context, ids);
    if !g.Ok? { return g; }
    if g.value.1.None? { return Panic(Unwrapped); }
    r := Ok((g.value.0 + [Instructions.Exit(g.value.1.value)], None));
  }

  /** `FunctionCallNode::generate_instructions`: the return id first, an
      error when the argument count is wrong, the arguments in order, the
      deferred moves, then the call. */
  method GenerateFunctionCall(n: Node, context: BackendContext, ids: IdSupply) returns (r: Generated)
    requires n.FunctionCallNode?
    modifies context, ids
    ensures Agrees(r, LowerFunctionCall(n, old(StateOf(context)), old(ids.next)), StateOf(context), ids.next)
    decreases n, 0
  {
    var meta := FindMeta(context.functionMetas, n.name);
    if meta.None? { return Panic(Unwrapped); }
    var m := meta.value;
    var returnUuid: Option<Uuid> := None;
    var returnUuids: seq<Uuid> := [];
    if m.returnTypeUuid.Some? {
      var id := ids.Fresh();
      returnUuid := Some(id);
      returnUuids := [id];
    }
    if |n.arguments| != |m.arguments| {
      context.lineMap := context.lineMap + [WrongArgumentCount(m.codeName, |m.arguments|, |n.arguments|)];
    }
    var lowered := GenerateArguments(n.arguments, context, ids);
    if !lowered.Ok? { return if lowered.Panic? then Panic(lowered.reason) else Diverged; }
    var (instructions, arguments, moves) := lowered.value;
    instructions := AppendMoves(instructions, moves);
    r := Ok((instructions + [Call(m.assemblyName, arguments, returnUuids)], returnUuid));
  }

  /** The loop that appends the deferred moves, in order. */
  method AppendMoves(instructions: seq<Instruction>, moves: seq<(Uuid, Uuid)>) returns (r: seq<Instruction>)
    ensures r == instructions + MoveInstructions(moves)
  {
    r := instructions;
    for k := 0 to |moves|
      invariant |r| == |instructions| + k && r[..|instructions|] == instructions
      invariant forall j :: 0 <= j < k ==> r[|instructions| + j] == Move(moves[j].0, moves[j].1)
    {
      r := r + [Move(moves[k].0, moves[k].1)];
    }
    assert r == instructions + MoveInstructions(moves);
  }

  /** The argument loop of `FunctionCallNode::generate_instructions`: each
      argument's instructions in order; a mutable value is passed as it is,
      any other is passed through a fresh id and a deferred move. */
  method GenerateArguments(args: seq<Node>, context: BackendContext, ids: IdSupply)
    returns (r: Outcome<(seq<Instruction>, seq<Uuid>, seq<(Uuid, Uuid)>)>)
    modifies context, ids
    ensures var l := LowerArguments(args, 0, ArgumentsLowered([], [], [], old(StateOf(context)), old(ids.next)));
      (r.Ok? <==> l.Ok?)
      && (r.Ok? ==> r.value == (l.value.instructions, l.value.arguments, l.value.moves)
                    && StateOf(context) == l.value.context && ids.next == l.value.next)
    ensures var l := LowerArguments(args, 0, ArgumentsLowered([], [], [], old(StateOf(context)), old(ids.next)));
      (l.Panic? ==> r == Panic(l.reason)) && (l.Diverged? ==> r == Diverged)
    decreases args, 0
  {
    var instructions: seq<Instruction> := [];
    var arguments: seq<Uuid> := [];
    var moves: seq<(Uuid, Uuid)> := [];
    for i := 0 to |args|
      invariant LowerArguments(args, i, ArgumentsLowered(instructions, arguments, moves, StateOf(context), ids.next))
                == LowerArguments(args, 0, ArgumentsLowered([], [], [], old(StateOf(context)), old(ids.next)))
    {
      var g := Generate(args[i], context, ids);
      if !g.Ok? { return if g.Panic? then Panic(g.reason) else Diverged; }
      instructions := instructions + g.value.0;
      if OutputIsRandomlyMutable(args[i]) == Some(true) {
        if g.value.1.None? { return Panic(Unwrapped); }
        arguments := arguments + [g.value.1.value];
      } else {
        var id := ids.Fresh();
        arguments := arguments + [id];
        if g.value.1.None? { return Panic(Unwrapped); }
        moves := moves + [(id, g.value.1.value)];
      }
    }
    r := Ok((instructions, arguments, moves));
  }

  /** `FunctionDeclarationNode::generate_instructions`: one receive per
      argument, the named parameters bound in the context, the body, then
      the end of the function. */
  method GenerateFunctionDeclaration(n: Node, context: BackendContext, ids: IdSupply) returns (r: Generated)
    requires n.FunctionDeclarationNode?
    modifies context, ids
    ensures Agrees(r, LowerFunctionDeclaration(n, old(StateOf(context)), old(ids.next)), StateOf(context), ids.next)
    decreases n, 0
  {
    var instructions := Receives(n.parameterFunctionArgs);
    var bound := BindInPlace(n.parameters, n.parameterFunctionArgs, context);
    if !bound { return Panic(OutOfBounds); }
    var g := Generate(n.block, context, ids);
    if !g.Ok? { return g; }
    r := Ok((instructions + g.value.0 + [FunctionEnd], None));
  }

  /** The parameter loop of `FunctionDeclarationNode::generate_instructions`:
      each named parameter is bound in place to the generated argument at
      its index, which fails only on an index past the arguments. */
  method BindInPlace(parameters: seq<ParameterDescriptor>, args: seq<FunctionMetas.FunctionArgument>,
                     context: BackendContext) returns (ok: bool)
    modifies context
    ensures var b := BindParameters(parameters, args, 0, old(StateOf(context)));
      (ok ==> b == Ok(StateOf(context))) && (!ok ==> b == Panic(OutOfBounds))
  {
    for i := 0 to |parameters|
      invariant BindParameters(parameters, args, i, StateOf(context))
                == BindParameters(parameters, args, 0, old(StateOf(context)))
    {
      if parameters[i].internalName.Some? {
        if i >= |args| { return false; }
        context.objects := context.objects[args[i].ownUuid := args[i].typeUuid];
        context.nameMap := context.nameMap[parameters[i].internalName.value := args[i].ownUuid];
      }
    }
    return true;
  }
}
