// What lowering promises, proved about the functions of lowering.dfy: the
// state it threads only ever grows, and each node kind emits the
// instructions compiler/parser/tree/node.rs builds for it.

module LoweringProperties {
  import opened Wrappers
  import opened Objects
  import opened Nodes
  import opened Instructions
  import opened Lowering
  import Operators
  import Contexts
  import LoweringFreshness

  /** What a lowering step may do to the context: fresh ids are only used
      up, labels only counted up, errors and mutable objects only appended,
      and the datatypes and function metas stay as they are. */
  predicate Extends(c: ContextState, next: nat, c': ContextState, next': nat) {
    next <= next' && c.labelCount <= c'.labelCount
    && c.lineMap <= c'.lineMap && c.mutableObjects <= c'.mutableObjects
    && c'.datatypes == c.datatypes && c'.functionMetas == c.functionMetas
  }

  /** Every successful lowering extends its context and emits no `Drop`. */
  lemma {:induction false} LowerExtends(n: Node, c: ContextState, next: nat)
    ensures var r := Lower(n, c, next);
      r.Ok? ==> Extends(c, next, r.value.context, r.value.next) && NoDrops(r.value.instructions)
    decreases n, 1
  {
    match n
    case ValueNode(inner) => LowerUnpackedExtends(inner, c, next);
    case ArithmeticNode(_, _, _, _) => ArithmeticExtends(n, c, next);
    case AssignmentNode(_, _, _) => AssignmentExtends(n, c, next);
    case LetNode(_, _, _, _) => LetExtends(n, c, next);
    case CodeBlockNode(_, blockLabel, code) =>
      var (name, count) := AssignLabel(blockLabel, c.labelCount);
      LowerCodeExtends(code, 0, [Label(name, false)], c.(labelCount := count), next);
    case ExitNode(v, _) =>
      LowerExtends(v, c, next);
    case FunctionCallNode(_, _, _) => FunctionCallExtends(n, c, next);
    case CodeBlockArray(_, blocks) => LowerCodeExtends(blocks, 0, [], c, next);
    case FunctionDeclarationNode(_, _, _, _, _) => FunctionDeclarationExtends(n, c, next);
    case _ =>
  }

  lemma {:induction false} LowerUnpackedExtends(m: Node, c: ContextState, next: nat)
    ensures var r := LowerUnpacked(m, c, next);
      r.Ok? ==> Extends(c, next, r.value.context, r.value.next) && NoDrops(r.value.instructions)
    decreases m, 2
  {
    match m
    case ValueNode(inner) => LowerUnpackedExtends(inner, c, next);
    case LiteralValueNode(inner) => LowerUnpackedExtends(inner, c, next);
    case CodeBlockNode(_, _, _) =>
    case ExitNode(_, _) =>
    case FunctionCallNode(_, _, _) =>
    case _ => LowerExtends(m, c, next);
  }

  /** Lowering a list of nodes extends the context and keeps what was
      already emitted as a prefix. */
  lemma {:induction false} LowerCodeExtends(code: seq<Node>, i: nat, acc: seq<Instruction>, c: ContextState, next: nat)
    requires i <= |code|
    ensures var r := LowerCode(code, i, acc, c, next);
      r.Ok? ==> Extends(c, next, r.value.context, r.value.next) && acc <= r.value.instructions && r.value.result.None?
                && (NoDrops(acc) ==> NoDrops(r.value.instructions))
    decreases code, |code| - i
  {
    if i < |code| {
      LowerExtends(code[i], c, next);
      var l := Lower(code[i], c, next);
      if l.Ok? {
        LowerCodeExtends(code, i + 1, acc + l.value.instructions, l.value.context, l.value.next);
      }
    }
  }

  lemma {:induction false} ArithmeticExtends(n: Node, c: ContextState, next: nat)
    requires n.ArithmeticNode?
    ensures var r := LowerArithmetic(n, c, next);
      r.Ok? ==> Extends(c, next, r.value.context, r.value.next) && NoDrops(r.value.instructions)
    decreases n, 0
  {
    LowerExtends(n.argumentA, c, next);
    var la := Lower(n.argumentA, c, next);
    if la.Ok? {
      LowerExtends(n.argumentB, la.value.context, la.value.next);
    }
  }

  lemma {:induction false} AssignmentExtends(n: Node, c: ContextState, next: nat)
    requires n.AssignmentNode?
    ensures var r := LowerAssignment(n, c, next);
      r.Ok? ==> Extends(c, next, r.value.context, r.value.next) && NoDrops(r.value.instructions)
    decreases n, 0
  {
    LowerExtends(n.leftSide, c, next);
    var ll := Lower(n.leftSide, c, next);
    if ll.Ok? {
      LowerExtends(n.rightSide, ll.value.context, ll.value.next);
    }
  }

  lemma {:induction false} LetExtends(n: Node, c: ContextState, next: nat)
    requires n.LetNode?
    ensures var r := LowerLet(n, c, next);
      r.Ok? ==> Extends(c, next, r.value.context, r.value.next) && NoDrops(r.value.instructions)
    decreases n, 0
  {
    if n.assignedValue.Some? {
      LowerExtends(n.assignedValue.value, c, next);
    }
  }

  lemma {:induction false} LowerArgumentsExtends(args: seq<Node>, i: nat, acc: ArgumentsLowered)
    requires i <= |args|
    ensures var r := LowerArguments(args, i, acc);
      r.Ok? ==> Extends(acc.context, acc.next, r.value.context, r.value.next)
                && acc.instructions <= r.value.instructions && acc.moves <= r.value.moves
                && |r.value.arguments| == |acc.arguments| + |args| - i
                && acc.arguments <= r.value.arguments
                && (NoDrops(acc.instructions) ==> NoDrops(r.value.instructions))
    decreases args, |args| - i
  {
    if i < |args| {
      LowerExtends(args[i], acc.context, acc.next);
      var l := Lower(args[i], acc.context, acc.next);
      if l.Ok? && l.value.result.Some? {
        if OutputIsRandomlyMutable(args[i]) == Some(true) {
          LowerArgumentsExtends(args, i + 1, ArgumentsLowered(acc.instructions + l.value.instructions,
            acc.arguments + [l.value.result.value], acc.moves, l.value.context, l.value.next));
        } else {
          LowerArgumentsExtends(args, i + 1, ArgumentsLowered(acc.instructions + l.value.instructions,
            acc.arguments + [l.value.next], acc.moves + [(l.value.next, l.value.result.value)],
            l.value.context, l.value.next + 1));
        }
      }
    }
  }

  lemma {:induction false} FunctionCallExtends(n: Node, c: ContextState, next: nat)
    requires n.FunctionCallNode?
    ensures var r := LowerFunctionCall(n, c, next);
      r.Ok? ==> Extends(c, next, r.value.context, r.value.next) && NoDrops(r.value.instructions)
    decreases n, 0
  {
    var meta := FindMeta(c.functionMetas, n.name);
    if meta.Some? {
      var m := meta.value;
      var next1 := if m.returnTypeUuid.Some? then next + 1 else next;
      var c1 := if |n.arguments| != |m.arguments| then
                  c.(lineMap := c.lineMap + [WrongArgumentCount(m.codeName, |m.arguments|, |n.arguments|)])
                else c;
      LowerArgumentsExtends(n.arguments, 0, ArgumentsLowered([], [], [], c1, next1));
    }
  }

  /** Binding parameters changes only the objects and the name map. */
  lemma {:induction false} BindParametersKeeps(parameters: seq<ParameterDescriptor>,
                                               args: seq<FunctionMetas.FunctionArgument>, i: nat, c: ContextState)
    requires i <= |parameters|
    ensures var r := BindParameters(parameters, args, i, c);
      r.Ok? ==> r.value == c.(objects := r.value.objects, nameMap := r.value.nameMap)
    decreases |parameters| - i
  {
    if i < |parameters| {
      if parameters[i].internalName.None? {
        BindParametersKeeps(parameters, args, i + 1, c);
      } else if i < |args| {
        BindParametersKeeps(parameters, args, i + 1,
          c.(objects := c.objects[args[i].ownUuid := args[i].typeUuid],
             nameMap := c.nameMap[parameters[i].internalName.value := args[i].ownUuid]));
      }
    }
  }

  lemma {:induction false} FunctionDeclarationExtends(n: Node, c: ContextState, next: nat)
    requires n.FunctionDeclarationNode?
    ensures var r := LowerFunctionDeclaration(n, c, next);
      r.Ok? ==> Extends(c, next, r.value.context, r.value.next) && NoDrops(r.value.instructions)
    decreases n, 0
  {
    BindParametersKeeps(n.parameters, n.parameterFunctionArgs, 0, c);
    var c1 := BindParameters(n.parameters, n.parameterFunctionArgs, 0, c);
    if c1.Ok? {
      LowerExtends(n.block, c1.value, next);
    }
  }

  /** A literal emits exactly one `MoveData`, into a fresh id that it
      returns; an integer keeps its value when it fits in an `i64`, a bool is
      stored as 1 or 0. */
  lemma LiteralLowering(n: Node, c: ContextState, next: nat)
    requires n.IntegerLiteralNode? || n.BoolLiteralNode?
    ensures var r := Lower(n, c, next);
      r.Ok? && |r.value.instructions| == 1 && r.value.instructions[0].MoveData?
      && r.value.instructions[0].destination == next && r.value.result == Some(next)
      && r.value.next == next + 1 && r.value.context == c
      && GetObjects(r.value.instructions[0]) == [next]
    ensures var r := Lower(n, c, next);
      n.IntegerLiteralNode? && -TwoTo63 <= n.content < TwoTo63 ==> r.value.instructions[0].value == n.content
    ensures var r := Lower(n, c, next);
      n.BoolLiteralNode? ==> (r.value.instructions[0].value == 1 <==> n.truth) && 0 <= r.value.instructions[0].value <= 1
  {
  }

  /** An identifier emits nothing, changes nothing and returns the id its
      name is bound to, if any. */
  lemma IdentifierLowering(n: Node, c: ContextState, next: nat)
    requires n.IdentifierNode?
    ensures var r := Lower(n, c, next);
      r.Ok? && r.value.instructions == [] && r.value.context == c && r.value.next == next
      && (r.value.result.Some? <==> n.identifier in c.nameMap)
      && (r.value.result.Some? ==> r.value.result.value == c.nameMap[n.identifier])
  {
  }

  /** With a mutable left operand the operation is computed in place on the
      left operand's id, with no move. */
  lemma ArithmeticInPlace(n: Node, c: ContextState, next: nat)
    requires n.ArithmeticNode? && OutputIsRandomlyMutable(n.argumentA) == Some(true)
    requires Lower(n, c, next).Ok?
    ensures Lower(n.argumentA, c, next).Ok?
    ensures var la := Lower(n.argumentA, c, next).value;
      Lower(n.argumentB, la.context, la.next).Ok?
    ensures var la := Lower(n.argumentA, c, next).value;
      var lb := Lower(n.argumentB, la.context, la.next).value;
      var r := Lower(n, c, next).value;
      la.result.Some? && lb.result.Some? && r.result == la.result && r.next == lb.next
      && OperationInstruction(n.operation, la.result.value, lb.result.value).Some?
      && r.instructions == la.instructions + lb.instructions
                           + [OperationInstruction(n.operation, la.result.value, lb.result.value).value]
  {
  }

  /** Otherwise, unless the commutative case applies, the left operand is
      first moved into a fresh id, the operation is computed there and that
      id is returned. The move is skipped only if the fresh id were the left
      operand's own; from a fresh context (every id it knows below the
      counter) that cannot happen, and the move is always emitted. */
  lemma ArithmeticIntoFresh(n: Node, c: ContextState, next: nat)
    requires n.ArithmeticNode? && OutputIsRandomlyMutable(n.argumentA) != Some(true)
    requires !(OutputIsRandomlyMutable(n.argumentB) == Some(true) && Operators.IsCommutative(n.operation))
    requires Lower(n, c, next).Ok?
    ensures Lower(n.argumentA, c, next).Ok?
    ensures var la := Lower(n.argumentA, c, next).value;
      Lower(n.argumentB, la.context, la.next).Ok?
    ensures var la := Lower(n.argumentA, c, next).value;
      var lb := Lower(n.argumentB, la.context, la.next).value;
      var r := Lower(n, c, next).value;
      var x := lb.next;
      la.result.Some? && lb.result.Some? && r.result == Some(x) && next <= x && r.next == x + 1
      && OperationInstruction(n.operation, x, lb.result.value).Some?
      && r.instructions == la.instructions + lb.instructions
                           + (if x != la.result.value then [Move(x, la.result.value)] else [])
                           + [OperationInstruction(n.operation, x, lb.result.value).value]
    ensures LoweringFreshness.FreshAbove(c, next) && LoweringFreshness.ParameterIdsBelow(n.argumentA, next) ==>
      var la := Lower(n.argumentA, c, next).value;
      var lb := Lower(n.argumentB, la.context, la.next).value;
      var x := lb.next;
      x != la.result.value
      && Lower(n, c, next).value.instructions
         == la.instructions + lb.instructions + [Move(x, la.result.value)]
            + [OperationInstruction(n.operation, x, lb.result.value).value]
  {
    LowerExtends(n.argumentA, c, next);
    var la := Lower(n.argumentA, c, next).value;
    LowerExtends(n.argumentB, la.context, la.next);
    if LoweringFreshness.FreshAbove(c, next) && LoweringFreshness.ParameterIdsBelow(n.argumentA, next) {
      LoweringFreshness.LowerFresh(n.argumentA, c, next, next);
    }
  }

  /** With a mutable right operand, an immutable left one and a commutative
      operation, the result is computed into the right operand's id, which
      is returned, with no move. */
  lemma ArithmeticCommuted(n: Node, c: ContextState, next: nat)
    requires n.ArithmeticNode? && OutputIsRandomlyMutable(n.argumentA) != Some(true)
    requires OutputIsRandomlyMutable(n.argumentB) == Some(true) && Operators.IsCommutative(n.operation)
    requires Lower(n, c, next).Ok?
    ensures Lower(n.argumentA, c, next).Ok?
    ensures var la := Lower(n.argumentA, c, next).value;
      Lower(n.argumentB, la.context, la.next).Ok?
    ensures var la := Lower(n.argumentA, c, next).value;
      var lb := Lower(n.argumentB, la.context, la.next).value;
      var r := Lower(n, c, next).value;
      la.result.Some? && lb.result.Some? && r.result == lb.result && r.next == lb.next
      && (n.operation == Operators.Addition || n.operation == Operators.Multiplication)
      && r.instructions == la.instructions + lb.instructions
                           + [if n.operation == Operators.Addition then Add(lb.result.value, la.result.value)
                              else Mul(lb.result.value, la.result.value)]
  {
  }

  /** An assignment to an object that is not mutable reports one error and
      emits no move; one to a mutable object ends with the move of the right
      side into it. */
  lemma AssignmentLowering(n: Node, c: ContextState, next: nat)
    requires n.AssignmentNode? && Lower(n, c, next).Ok?
    ensures Lower(n.leftSide, c, next).Ok?
    ensures var ll := Lower(n.leftSide, c, next).value;
      Lower(n.rightSide, ll.context, ll.next).Ok?
    ensures var ll := Lower(n.leftSide, c, next).value;
      var lr := Lower(n.rightSide, ll.context, ll.next).value;
      var r := Lower(n, c, next).value;
      ll.result.Some? && r.result.None? && r.next == lr.next
      && (ll.result.value !in lr.context.mutableObjects ==>
            r.instructions == ll.instructions + lr.instructions
            && r.context == lr.context.(lineMap := lr.context.lineMap + [ImmutableAssignment]))
      && (ll.result.value in lr.context.mutableObjects ==>
            lr.result.Some?
            && r.instructions == ll.instructions + lr.instructions + [Move(ll.result.value, lr.result.value)]
            && r.context == lr.context)
  {
  }

  /** A let binds its name to the id holding the value and records as that
      id's type the first of the value's datatypes; the id joins the mutable
      objects exactly when the binding is mutable, and nothing else in the
      context changes. A mutable value keeps its id; any other is moved into
      a fresh one. */
  lemma LetLowering(n: Node, c: ContextState, next: nat)
    requires n.LetNode? && Lower(n, c, next).Ok?
    ensures n.assignedValue.Some? && Lower(n.assignedValue.value, c, next).Ok?
    ensures var lv := Lower(n.assignedValue.value, c, next).value;
      var types := GetDatatypes(n.assignedValue.value, TypeValues(lv.context.datatypes), lv.context);
      types.Ok? && types.value.Some? && |types.value.value| > 0
    ensures var lv := Lower(n.assignedValue.value, c, next).value;
      var types := GetDatatypes(n.assignedValue.value, TypeValues(lv.context.datatypes), lv.context);
      var r := Lower(n, c, next).value;
      var mutableValue := OutputIsRandomlyMutable(n.assignedValue.value) == Some(true);
      r.result.None?
      && n.identifier in r.context.nameMap
      && var id := r.context.nameMap[n.identifier];
         r.context == lv.context.(objects := r.context.objects, nameMap := r.context.nameMap,
                                  mutableObjects := r.context.mutableObjects)
         && r.context.objects == lv.context.objects[id := types.value.value[0].typeUuid]
         && r.context.nameMap == lv.context.nameMap[n.identifier := id]
         && r.context.mutableObjects == lv.context.mutableObjects + (if n.isMutable then [id] else [])
         && (mutableValue && lv.result.Some? ==> id == lv.result.value && r.instructions == lv.instructions)
         && (!mutableValue ==> lv.result.Some? && id == lv.next && next <= id
                               && r.instructions == lv.instructions + [Move(id, lv.result.value)])
  {
    LowerExtends(n.assignedValue.value, c, next);
  }

  /** Once the value is lowered, a let fails on its types as `unwrap()` and
      `[0]` do: a panic of the type query is passed on, no types at all is a
      failed `unwrap()`, and an empty list of types is an index out of
      bounds. */
  lemma LetTypeFailure(n: Node, c: ContextState, next: nat)
    requires n.LetNode? && n.assignedValue.Some? && Lower(n.assignedValue.value, c, next).Ok?
    requires var lv := Lower(n.assignedValue.value, c, next).value;
      OutputIsRandomlyMutable(n.assignedValue.value) == Some(true) || lv.result.Some?
    ensures var lv := Lower(n.assignedValue.value, c, next).value;
      var types := GetDatatypes(n.assignedValue.value, TypeValues(lv.context.datatypes), lv.context);
      (types.Panic? ==> Lower(n, c, next) == Panic(types.reason))
      && (types == Ok(None) ==> Lower(n, c, next) == Panic(Unwrapped))
      && (types == Ok(Some([])) ==> Lower(n, c, next) == Panic(OutOfBounds))
  {
  }

  /** Filtering types none of which has the trait gives nothing. */
  lemma {:induction false} NoneWithTrait(types: seq<ObjectType>, q: string)
    requires forall i :: 0 <= i < |types| ==> !HasTrait(types[i], q)
    ensures AllWithTrait(types, q) == []
    decreases |types|
  {
    if |types| > 0 {
      NoneWithTrait(types[1..], q);
    }
  }

  /** `let x = 5` with no integer type registered: the literal's type list
      is empty, so taking its first entry is out of bounds. */
  lemma UntypedLiteralWithoutIntegerType(x: string, v: int, mutable: bool, p: NodePosition,
                                         c: ContextState, next: nat)
    requires forall i :: 0 <= i < |c.datatypes| ==> !HasTrait(c.datatypes[i].1, Integer)
    ensures Lower(LetNode(x, Some(IntegerLiteralNode(v, None, p)), mutable, p), c, next) == Panic(OutOfBounds)
  {
    var value := IntegerLiteralNode(v, None, p);
    var all := TypeValues(c.datatypes);
    assert Lower(value, c, next) == Ok(Lowered([MoveData(next, WrapI64(v))], Some(next), c, next + 1));
    NoneWithTrait(all, Integer);
    assert GetDatatypes(value, all, c) == Ok(Some([]));
  }

  /** A code block starts with the label `assign_label` gives it, so an
      unlabelled block counts one more label, and lowers its children in
      order after it. */
  lemma CodeBlockLowering(n: Node, c: ContextState, next: nat)
    requires n.CodeBlockNode? && Lower(n, c, next).Ok?
    ensures var r := Lower(n, c, next).value;
      var name := if n.blockLabel.Some? then n.blockLabel.value else Contexts.LabelName(c.labelCount);
      |r.instructions| >= 1 && r.instructions[0] == Label(name, false) && r.result.None?
      && r.context.labelCount >= c.labelCount + (if n.blockLabel.Some? then 0 else 1)
  {
    var (name, count) := AssignLabel(n.blockLabel, c.labelCount);
    LowerCodeExtends(n.code, 0, [Label(name, false)], c.(labelCount := count), next);
  }

  /** An exit lowers its value and ends with an `Exit` of the id holding
      it; a value without an id panics. */
  lemma ExitLowering(n: Node, c: ContextState, next: nat)
    requires n.ExitNode?
    ensures var lv := Lower(n.returnValue, c, next);
      lv.Ok? && lv.value.result.None? ==> Lower(n, c, next).Panic?
    ensures var lv := Lower(n.returnValue, c, next);
      var r := Lower(n, c, next);
      r.Ok? ==> lv.Ok? && lv.value.result.Some? && r.value.result.None?
                && r.value.instructions == lv.value.instructions + [Instructions.Exit(lv.value.result.value)]
                && r.value.context == lv.value.context && r.value.next == lv.value.next
  {
  }

  /** A call to a function with no meta panics. Otherwise a successful call
      reserves the return id first when the function returns a value, logs
      the wrong argument count before anything its arguments log, passes
      one id per argument and ends with the call itself. */
  lemma CallLowering(n: Node, c: ContextState, next: nat)
    requires n.FunctionCallNode?
    ensures FindMeta(c.functionMetas, n.name).None? ==> Lower(n, c, next).Panic?
    ensures var r := Lower(n, c, next);
      r.Ok? ==>
        FindMeta(c.functionMetas, n.name).Some? && |r.value.instructions| >= 1
        && var m := FindMeta(c.functionMetas, n.name).value;
        var last := r.value.instructions[|r.value.instructions| - 1];
        last.Call? && last.assemblyName == m.assemblyName && |last.inputs| == |n.arguments|
        && last.outputs == (if m.returnTypeUuid.Some? then [next] else [])
        && r.value.result == (if m.returnTypeUuid.Some? then Some(next) else None)
        && (|n.arguments| != |m.arguments| ==>
              |c.lineMap| < |r.value.context.lineMap|
              && r.value.context.lineMap[|c.lineMap|] == WrongArgumentCount(m.codeName, |m.arguments|, |n.arguments|))
  {
    var meta := FindMeta(c.functionMetas, n.name);
    if meta.Some? {
      var m := meta.value;
      var next1 := if m.returnTypeUuid.Some? then next + 1 else next;
      var c1 := if |n.arguments| != |m.arguments| then
                  c.(lineMap := c.lineMap + [WrongArgumentCount(m.codeName, |m.arguments|, |n.arguments|)])
                else c;
      LowerArgumentsExtends(n.arguments, 0, ArgumentsLowered([], [], [], c1, next1));
    }
  }

  /** A function declaration starts with one `ReceiveArgument` per
      generated parameter and ends with `FunctionEnd`; a named parameter
      past the generated arguments panics. */
  lemma DeclarationLowering(n: Node, c: ContextState, next: nat)
    requires n.FunctionDeclarationNode?
    ensures BindParameters(n.parameters, n.parameterFunctionArgs, 0, c).Panic? ==> Lower(n, c, next).Panic?
    ensures var r := Lower(n, c, next);
      r.Ok? ==>
        var k := |n.parameterFunctionArgs|;
        |r.value.instructions| >= k + 1 && r.value.result.None?
        && r.value.instructions[..k] == Receives(n.parameterFunctionArgs)
        && r.value.instructions[|r.value.instructions| - 1] == FunctionEnd
  {
  }
}
