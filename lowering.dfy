// Lowering of compiler/parser/tree/node.rs: `generate_instructions` for every
// node kind, turning the tree into instructions over object ids while
// updating the back-end context. `Uuid::new_v4()` is a counter: `next` is the
// next fresh id. A panic (`todo!`, `unwrap` of `None`, an index out of
// bounds) ends the lowering with `Panic`.
//
// The functions below state what each kind does; the class methods in
// generation.dfy do it step by step on a `BackendContext` and are proved to
// agree with them.

module Lowering {
  import opened Wrappers
  import opened Objects
  import opened Nodes
  import opened Instructions
  import Operators
  import Diagnostics
  import Statements
  import Text
  import Contexts
  import FunctionMetas

  /** The instructions a lowering produced, the id holding its value, and
      the context and fresh-id counter afterwards. */
  datatype Lowered = Lowered(instructions: seq<Instruction>, result: Option<Uuid>, context: ContextState, next: nat)

  /** The state left by the arguments of a call: their instructions, the
      ids passed, the deferred moves, the context and the counter. */
  datatype ArgumentsLowered = ArgumentsLowered(
    instructions: seq<Instruction>,
    arguments: seq<Uuid>,
    moves: seq<(Uuid, Uuid)>,
    context: ContextState,
    next: nat)

  const TwoTo63: int := 0x8000_0000_0000_0000
  const TwoTo64: int := 0x1_0000_0000_0000_0000

  /** `as i64` on an `i128`: the low 64 bits, read as two's complement. */
  function WrapI64(v: int): (r: int)
    ensures -TwoTo63 <= r < TwoTo63
    ensures (r - v) % TwoTo64 == 0
    ensures -TwoTo63 <= v < TwoTo63 ==> r == v
  {
    (v + TwoTo63) % TwoTo64 - TwoTo63
  }

  /** `bool as i64`. */
  function BoolValue(b: bool): (r: int)
    ensures r == 0 || r == 1
    ensures r == 1 <==> b
  {
    if b then 1 else 0
  }

  /** The in-place instruction of an arithmetic operation; comparisons have
      none (`todo!`). */
  function OperationInstruction(op: Operators.Operation, a: Uuid, b: Uuid): (r: Option<Instruction>)
    ensures r.Some? <==> !Operators.IsBoolean(op) && OperationOrderIsArithmetic(op)
    ensures r.Some? ==> GetObjects(r.value) == [a, b] && GetOverridden(r.value) == []
  {
    match op
    case Addition => Some(Add(a, b))
    case Subtraction => Some(Sub(a, b))
    case Multiplication => Some(Mul(a, b))
    case Division => Some(Div(a, b))
    case Modulo => Some(Mod(a, b))
    case _ => None
  }

  /** The five arithmetic operations are those of positive precedence. */
  predicate OperationOrderIsArithmetic(op: Operators.Operation) {
    Operators.OperationOrder(op) > 0
  }

  /** `assign_label`: an existing label is kept; otherwise the next
      generated name is taken and the count goes up by one. */
  function AssignLabel(blockLabel: Option<string>, labelCount: nat): (r: (string, nat))
    ensures blockLabel.Some? ==> r == (blockLabel.value, labelCount)
    ensures blockLabel.None? ==> r == (Contexts.LabelName(labelCount), labelCount + 1)
  {
    if blockLabel.Some? then (blockLabel.value, labelCount)
    else (Contexts.LabelName(labelCount), labelCount + 1)
  }

  /** The error reported for an assignment to an immutable object. */
  const ImmutableAssignment: Diagnostics.Notification :=
    Diagnostics.Notification("Attempt To Modify Immutable Variable",
                             "This assignment tries to alter a left side that is immutable")

  /** The error reported for a call with the wrong number of arguments. */
  function WrongArgumentCount(name: string, expected: nat, actual: nat): (r: Diagnostics.Notification)
    ensures r.title != ImmutableAssignment.title
    ensures "Function '" + name + "'" <= r.message && r.message[|r.message| - 1] == '.'
  {
    Diagnostics.Notification("Wrong Amount of Arguments",
      "Function '" + name + "' expected " + Text.NatToString(expected) + " argument(s) but received "
      + Text.NatToString(actual) + ".")
  }

  const Unwrapped: string := "called `Option::unwrap()` on a `None` value"
  const OutOfBounds: string := Statements.OutOfBounds
  const NotImplemented: string := "not yet implemented"

  /** `generate_instructions` of any node. */
  function Lower(n: Node, c: ContextState, next: nat): (r: Outcome<Lowered>)
    ensures !r.Diverged?
    decreases n, 1
  {
    match n
    case ValueNode(inner) => LowerUnpacked(inner, c, next)
    case LiteralValueNode(_) => Panic(NotImplemented)
    case IdentifierNode(identifier, _, _) =>
      Ok(Lowered([], if identifier in c.nameMap then Some(c.nameMap[identifier]) else None, c, next))
    case BoolLiteralNode(truth, _) => Ok(Lowered([MoveData(next, BoolValue(truth))], Some(next), c, next + 1))
    case IntegerLiteralNode(content, _, _) => Ok(Lowered([MoveData(next, WrapI64(content))], Some(next), c, next + 1))
    case ArithmeticNode(_, _, _, _) => LowerArithmetic(n, c, next)
    case AssignmentNode(_, _, _) => LowerAssignment(n, c, next)
    case AssignmentSymbolNode(_) => Panic(NotImplemented)
    case LetNode(_, _, _, _) => LowerLet(n, c, next)
    case CodeBlockNode(_, blockLabel, code) =>
      var (name, count) := AssignLabel(blockLabel, c.labelCount);
      LowerCode(code, 0, [Label(name, false)], c.(labelCount := count), next)
    case ExitNode(_, _) => LowerExit(n, c, next)
    case FunctionCallNode(_, _, _) => LowerFunctionCall(n, c, next)
    case CodeBlockArray(_, blocks) => LowerCode(blocks, 0, [], c, next)
    case FunctionDeclarationNode(_, _, _, _, _) => LowerFunctionDeclaration(n, c, next)
    case ArgumentsNode(_, _) => Ok(Lowered([], None, c, next))
    case StringLiteralNode(_, _) => Panic(NotImplemented)
  }

  /** A shell lowers what `unpack` finds inside it. */
  function LowerUnpacked(m: Node, c: ContextState, next: nat): (r: Outcome<Lowered>)
    ensures !r.Diverged?
    decreases m, 2
  {
    match m
    case ValueNode(inner) => LowerUnpacked(inner, c, next)
    case LiteralValueNode(inner) => LowerUnpacked(inner, c, next)
    case CodeBlockNode(_, _, _) => Panic(NotImplemented)
    case ExitNode(_, _) => Panic(NotImplemented)
    case FunctionCallNode(_, _, _) => Panic(NotImplemented)
    case _ => Lower(m, c, next)
  }

  /** The nodes `code[i..]` lowered in order after `acc`; their values are
      dropped. */
  function LowerCode(code: seq<Node>, i: nat, acc: seq<Instruction>, c: ContextState, next: nat): (r: Outcome<Lowered>)
    requires i <= |code|
    ensures !r.Diverged?
    ensures r.Ok? ==> r.value.result.None?
    decreases code, |code| - i
  {
    if i == |code| then Ok(Lowered(acc, None, c, next))
    else
      var l :- Lower(code[i], c, next);
      LowerCode(code, i + 1, acc + l.instructions, l.context, l.next)
  }

  /** `ArithmeticNode::generate_instructions`. */
  function LowerArithmetic(n: Node, c: ContextState, next: nat): (r: Outcome<Lowered>)
    requires n.ArithmeticNode?
    ensures !r.Diverged?
    decreases n, 0
  {
    var la :- Lower(n.argumentA, c, next);
    var lb :- Lower(n.argumentB, la.context, la.next);
    if la.result.None? then Panic(Unwrapped)
    else
      var a := la.result.value;
      var mutableA := OutputIsRandomlyMutable(n.argumentA) == Some(true);
      var mutableB := OutputIsRandomlyMutable(n.argumentB) == Some(true);
      if mutableB && Operators.IsCommutative(n.operation) && !mutableA then
        if !OperationOrderIsArithmetic(n.operation) || lb.result.None? then
          Panic(if OperationOrderIsArithmetic(n.operation) then Unwrapped else NotImplemented)
        else
          var b := lb.result.value;
          Ok(Lowered(la.instructions + lb.instructions + [OperationInstruction(n.operation, b, a).value],
                     Some(b), lb.context, lb.next))
      else
        var x := if mutableA then a else lb.next;
        var next' := if mutableA then lb.next else lb.next + 1;
        if !OperationOrderIsArithmetic(n.operation) || lb.result.None? then
          Panic(if OperationOrderIsArithmetic(n.operation) then Unwrapped else NotImplemented)
        else
          Ok(Lowered(la.instructions + lb.instructions + (if x != a then [Move(x, a)] else [])
                       + [OperationInstruction(n.operation, x, lb.result.value).value],
                     Some(x), lb.context, next'))
  }

  /** `AssignmentNode::generate_instructions`. */
  function LowerAssignment(n: Node, c: ContextState, next: nat): (r: Outcome<Lowered>)
    requires n.AssignmentNode?
    ensures !r.Diverged?
    ensures r.Ok? ==> r.value.result.None?
    decreases n, 0
  {
    var ll :- Lower(n.leftSide, c, next);
    var lr :- Lower(n.rightSide, ll.context, ll.next);
    var instructions := ll.instructions + lr.instructions;
    if ll.result.None? then Panic(Unwrapped)
    else if ll.result.value !in lr.context.mutableObjects then
      Ok(Lowered(instructions, None, lr.context.(lineMap := lr.context.lineMap + [ImmutableAssignment]), lr.next))
    else if lr.result.None? then Panic(Unwrapped)
    else Ok(Lowered(instructions + [Move(ll.result.value, lr.result.value)], None, lr.context, lr.next))
  }

  /** `LetNode::generate_instructions`. */
  function LowerLet(n: Node, c: ContextState, next: nat): (r: Outcome<Lowered>)
    requires n.LetNode?
    ensures !r.Diverged?
    ensures r.Ok? ==> r.value.result.None?
    decreases n, 0
  {
    if n.assignedValue.None? then Panic(Unwrapped)
    else
      var value := n.assignedValue.value;
      var lv :- Lower(value, c, next);
      var mutableValue := OutputIsRandomlyMutable(value) == Some(true);
      if !mutableValue && lv.result.None? then Panic(Unwrapped)
      else
        var instructions := if mutableValue then lv.instructions else lv.instructions + [Move(lv.next, lv.result.value)];
        var result := if mutableValue then lv.result else Some(lv.next);
        var next1 := if mutableValue then lv.next else lv.next + 1;
        var id := if result.Some? then result.value else next1;
        var next2 := if result.Some? then next1 else next1 + 1;
        var types :- GetDatatypes(value, TypeValues(lv.context.datatypes), lv.context);
        if types.None? then Panic(Unwrapped)
        else if |types.value| == 0 then Panic(OutOfBounds)
        else
          var context := lv.context.(
            objects := lv.context.objects[id := types.value[0].typeUuid],
            nameMap := lv.context.nameMap[n.identifier := id],
            mutableObjects := if n.isMutable then lv.context.mutableObjects + [id] else lv.context.mutableObjects);
          Ok(Lowered(instructions, None, context, next2))
  }

  /** `ExitNode::generate_instructions`. */
  function LowerExit(n: Node, c: ContextState, next: nat): (r: Outcome<Lowered>)
    requires n.ExitNode?
    ensures !r.Diverged?
    ensures r.Ok? ==> r.value.result.None?
    decreases n, 0
  {
    var lv :- Lower(n.returnValue, c, next);
    if lv.result.None? then Panic(Unwrapped)
    else Ok(Lowered(lv.instructions + [Instructions.Exit(lv.result.value)], None, lv.context, lv.next))
  }

  /** The moves deferred until every argument is lowered. */
  function MoveInstructions(moves: seq<(Uuid, Uuid)>): (r: seq<Instruction>)
    ensures |r| == |moves|
    ensures forall k :: 0 <= k < |moves| ==> r[k] == Move(moves[k].0, moves[k].1)
  {
    if |moves| == 0 then [] else [Move(moves[0].0, moves[0].1)] + MoveInstructions(moves[1..])
  }

  /** `FunctionCallNode::generate_instructions`. */
  function LowerFunctionCall(n: Node, c: ContextState, next: nat): (r: Outcome<Lowered>)
    requires n.FunctionCallNode?
    ensures !r.Diverged?
    decreases n, 0
  {
    var meta := FindMeta(c.functionMetas, n.name);
    if meta.None? then Panic(Unwrapped)
    else
      var m := meta.value;
      var returnUuids := if m.returnTypeUuid.Some? then [next] else [];
      var next1 := if m.returnTypeUuid.Some? then next + 1 else next;
      var c1 := if |n.arguments| != |m.arguments| then
                  c.(lineMap := c.lineMap + [WrongArgumentCount(m.codeName, |m.arguments|, |n.arguments|)])
                else c;
      var la :- LowerArguments(n.arguments, 0, ArgumentsLowered([], [], [], c1, next1));
      Ok(Lowered(la.instructions + MoveInstructions(la.moves) + [Call(m.assemblyName, la.arguments, returnUuids)],
                 if m.returnTypeUuid.Some? then Some(next) else None, la.context, la.next))
  }

  /** The arguments `args[i..]` lowered in order: a mutable value is passed
      as it is, anything else through a fresh id and a deferred move. */
  function LowerArguments(args: seq<Node>, i: nat, acc: ArgumentsLowered): (r: Outcome<ArgumentsLowered>)
    requires i <= |args|
    ensures !r.Diverged?
    ensures r.Ok? ==> |r.value.arguments| == |acc.arguments| + |args| - i
    decreases args, |args| - i
  {
    if i == |args| then Ok(acc)
    else
      var l :- Lower(args[i], acc.context, acc.next);
      if l.result.None? then Panic(Unwrapped)
      else if OutputIsRandomlyMutable(args[i]) == Some(true) then
        LowerArguments(args, i + 1, ArgumentsLowered(acc.instructions + l.instructions, acc.arguments + [l.result.value],
                                                      acc.moves, l.context, l.next))
      else
        LowerArguments(args, i + 1, ArgumentsLowered(acc.instructions + l.instructions, acc.arguments + [l.next],
                                                      acc.moves + [(l.next, l.result.value)], l.context, l.next + 1))
  }

  /** One `ReceiveArgument` per generated parameter, with its index as a
      `u8`. */
  function Receives(args: seq<FunctionMetas.FunctionArgument>): (r: seq<Instruction>)
    ensures |r| == |args|
    ensures forall k :: 0 <= k < |args| ==> r[k] == ReceiveArgument(args[k].ownUuid, k % 256)
  {
    seq(|args|, k requires 0 <= k < |args| => ReceiveArgument(args[k].ownUuid, k % 256))
  }

  /** Every parameter from `i` on that has an internal name is bound to the
      own id of the generated argument at the same index. */
  function BindParameters(parameters: seq<ParameterDescriptor>, args: seq<FunctionMetas.FunctionArgument>, i: nat,
                          c: ContextState): (r: Outcome<ContextState>)
    requires i <= |parameters|
    ensures !r.Diverged? && (r.Panic? ==> r.reason == OutOfBounds)
    ensures r.Panic? <==> exists j :: i <= j < |parameters| && parameters[j].internalName.Some? && j >= |args|
    decreases |parameters| - i
  {
    if i == |parameters| then Ok(c)
    else if parameters[i].internalName.None? then BindParameters(parameters, args, i + 1, c)
    else if i >= |args| then Panic(OutOfBounds)
    else
      BindParameters(parameters, args, i + 1,
        c.(objects := c.objects[args[i].ownUuid := args[i].typeUuid],
           nameMap := c.nameMap[parameters[i].internalName.value := args[i].ownUuid]))
  }

  /** `FunctionDeclarationNode::generate_instructions`. */
  function LowerFunctionDeclaration(n: Node, c: ContextState, next: nat): (r: Outcome<Lowered>)
    requires n.FunctionDeclarationNode?
    ensures !r.Diverged?
    ensures r.Ok? ==> r.value.result.None?
    decreases n, 0
  {
    var c1 :- BindParameters(n.parameters, n.parameterFunctionArgs, 0, c);
    var lb :- Lower(n.block, c1, next);
    Ok(Lowered(Receives(n.parameterFunctionArgs) + lb.instructions + [FunctionEnd], None, lb.context, lb.next))
  }
}
