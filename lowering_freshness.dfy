// Fresh ids stay fresh: `Uuid::new_v4()` never hands out an id already in
// use, which the counter model of lowering.dfy reflects as "every id the
// context knows is below `next`". Parameter ids are made by the parser
// rather than by lowering, so a tree must carry its parameter ids below the
// counter too.

module LoweringFreshness {
  import opened Wrappers
  import opened Objects
  import opened Nodes
  import opened Instructions
  import opened Lowering
  import FunctionMetas

  /** Every id the context binds a name to, gives a type or marks mutable
      is below `next`. */
  predicate FreshAbove(c: ContextState, next: nat) {
    (forall name :: name in c.nameMap ==> c.nameMap[name] < next)
    && (forall u :: u in c.objects ==> u < next)
    && (forall j :: 0 <= j < |c.mutableObjects| ==> c.mutableObjects[j] < next)
  }

  /** Every parameter id declared by a function declaration inside `n` is
      below `bound`. */
  predicate ParameterIdsBelow(n: Node, bound: nat)
    decreases n
  {
    match n
    case ValueNode(inner) => ParameterIdsBelow(inner, bound)
    case LiteralValueNode(inner) => ParameterIdsBelow(inner, bound)
    case ArithmeticNode(_, a, b, _) => ParameterIdsBelow(a, bound) && ParameterIdsBelow(b, bound)
    case AssignmentNode(l, r, _) => ParameterIdsBelow(l, bound) && ParameterIdsBelow(r, bound)
    case LetNode(_, v, _, _) => v.Some? ==> ParameterIdsBelow(v.value, bound)
    case CodeBlockNode(_, _, code) => forall k :: 0 <= k < |code| ==> ParameterIdsBelow(code[k], bound)
    case ExitNode(v, _) => ParameterIdsBelow(v, bound)
    case FunctionCallNode(_, args, _) => forall k :: 0 <= k < |args| ==> ParameterIdsBelow(args[k], bound)
    case CodeBlockArray(_, blocks) => forall k :: 0 <= k < |blocks| ==> ParameterIdsBelow(blocks[k], bound)
    case FunctionDeclarationNode(_, _, block, _, fargs) =>
      (forall k :: 0 <= k < |fargs| ==> fargs[k].ownUuid < bound) && ParameterIdsBelow(block, bound)
    case _ => true
  }

  /** A successful lowering from a fresh context leaves a fresh context, and
      the id holding its value is one the context knew or one it used up. */
  lemma {:induction false} LowerFresh(n: Node, c: ContextState, next: nat, bound: nat)
    requires FreshAbove(c, next) && bound <= next && ParameterIdsBelow(n, bound)
    ensures var r := Lower(n, c, next);
      r.Ok? ==> next <= r.value.next && FreshAbove(r.value.context, r.value.next)
                && (r.value.result.Some? ==> r.value.result.value < r.value.next)
    decreases n, 1
  {
    match n
    case ValueNode(inner) => LowerUnpackedFresh(inner, c, next, bound);
    case ArithmeticNode(_, _, _, _) => ArithmeticFresh(n, c, next, bound);
    case AssignmentNode(_, _, _) => AssignmentFresh(n, c, next, bound);
    case LetNode(_, _, _, _) => LetFresh(n, c, next, bound);
    case CodeBlockNode(_, blockLabel, code) =>
      var (name, count) := AssignLabel(blockLabel, c.labelCount);
      LowerCodeFresh(code, 0, [Label(name, false)], c.(labelCount := count), next, bound);
    case ExitNode(v, _) => LowerFresh(v, c, next, bound);
    case FunctionCallNode(_, _, _) => FunctionCallFresh(n, c, next, bound);
    case CodeBlockArray(_, blocks) => LowerCodeFresh(blocks, 0, [], c, next, bound);
    case FunctionDeclarationNode(_, _, _, _, _) => FunctionDeclarationFresh(n, c, next, bound);
    case _ =>
  }

  lemma {:induction false} LowerUnpackedFresh(m: Node, c: ContextState, next: nat, bound: nat)
    requires FreshAbove(c, next) && bound <= next && ParameterIdsBelow(m, bound)
    ensures var r := LowerUnpacked(m, c, next);
      r.Ok? ==> next <= r.value.next && FreshAbove(r.value.context, r.value.next)
                && (r.value.result.Some? ==> r.value.result.value < r.value.next)
    decreases m, 2
  {
    match m
    case ValueNode(inner) => LowerUnpackedFresh(inner, c, next, bound);
    case LiteralValueNode(inner) => LowerUnpackedFresh(inner, c, next, bound);
    case CodeBlockNode(_, _, _) =>
    case ExitNode(_, _) =>
    case FunctionCallNode(_, _, _) =>
    case _ => LowerFresh(m, c, next, bound);
  }

  lemma {:induction false} LowerCodeFresh(code: seq<Node>, i: nat, acc: seq<Instruction>, c: ContextState,
                                          next: nat, bound: nat)
    requires i <= |code| && FreshAbove(c, next) && bound <= next
    requires forall k :: 0 <= k < |code| ==> ParameterIdsBelow(code[k], bound)
    ensures var r := LowerCode(code, i, acc, c, next);
      r.Ok? ==> next <= r.value.next && FreshAbove(r.value.context, r.value.next) && r.value.result.None?
    decreases code, |code| - i
  {
    if i < |code| {
      LowerFresh(code[i], c, next, bound);
      var l := Lower(code[i], c, next);
      if l.Ok? {
        LowerCodeFresh(code, i + 1, acc + l.value.instructions, l.value.context, l.value.next, bound);
      }
    }
  }

  lemma {:induction false} ArithmeticFresh(n: Node, c: ContextState, next: nat, bound: nat)
    requires n.ArithmeticNode? && FreshAbove(c, next) && bound <= next && ParameterIdsBelow(n, bound)
    ensures var r := LowerArithmetic(n, c, next);
      r.Ok? ==> next <= r.value.next && FreshAbove(r.value.context, r.value.next)
                && (r.value.result.Some? ==> r.value.result.value < r.value.next)
    decreases n, 0
  {
    LowerFresh(n.argumentA, c, next, bound);
    var la := Lower(n.argumentA, c, next);
    if la.Ok? {
      LowerFresh(n.argumentB, la.value.context, la.value.next, bound);
    }
  }

  lemma {:induction false} AssignmentFresh(n: Node, c: ContextState, next: nat, bound: nat)
    requires n.AssignmentNode? && FreshAbove(c, next) && bound <= next && ParameterIdsBelow(n, bound)
    ensures var r := LowerAssignment(n, c, next);
      r.Ok? ==> next <= r.value.next && FreshAbove(r.value.context, r.value.next) && r.value.result.None?
    decreases n, 0
  {
    LowerFresh(n.leftSide, c, next, bound);
    var ll := Lower(n.leftSide, c, next);
    if ll.Ok? {
      LowerFresh(n.rightSide, ll.value.context, ll.value.next, bound);
    }
  }

  lemma {:induction false} LetFresh(n: Node, c: ContextState, next: nat, bound: nat)
    requires n.LetNode? && FreshAbove(c, next) && bound <= next && ParameterIdsBelow(n, bound)
    ensures var r := LowerLet(n, c, next);
      r.Ok? ==> next <= r.value.next && FreshAbove(r.value.context, r.value.next) && r.value.result.None?
    decreases n, 0
  {
    if n.assignedValue.Some? {
      LowerFresh(n.assignedValue.value, c, next, bound);
    }
  }

  lemma {:induction false} LowerArgumentsFresh(args: seq<Node>, i: nat, acc: ArgumentsLowered, bound: nat)
    requires i <= |args| && FreshAbove(acc.context, acc.next) && bound <= acc.next
    requires forall k :: 0 <= k < |args| ==> ParameterIdsBelow(args[k], bound)
    ensures var r := LowerArguments(args, i, acc);
      r.Ok? ==> acc.next <= r.value.next && FreshAbove(r.value.context, r.value.next)
    decreases args, |args| - i
  {
    if i < |args| {
      LowerFresh(args[i], acc.context, acc.next, bound);
      var l := Lower(args[i], acc.context, acc.next);
      if l.Ok? && l.value.result.Some? {
        if OutputIsRandomlyMutable(args[i]) == Some(true) {
          LowerArgumentsFresh(args, i + 1, ArgumentsLowered(acc.instructions + l.value.instructions,
            acc.arguments + [l.value.result.value], acc.moves, l.value.context, l.value.next), bound);
        } else {
          LowerArgumentsFresh(args, i + 1, ArgumentsLowered(acc.instructions + l.value.instructions,
            acc.arguments + [l.value.next], acc.moves + [(l.value.next, l.value.result.value)],
            l.value.context, l.value.next + 1), bound);
        }
      }
    }
  }

  lemma {:induction false} FunctionCallFresh(n: Node, c: ContextState, next: nat, bound: nat)
    requires n.FunctionCallNode? && FreshAbove(c, next) && bound <= next && ParameterIdsBelow(n, bound)
    ensures var r := LowerFunctionCall(n, c, next);
      r.Ok? ==> next <= r.value.next && FreshAbove(r.value.context, r.value.next)
                && (r.value.result.Some? ==> r.value.result.value < r.value.next)
    decreases n, 0
  {
    var meta := FindMeta(c.functionMetas, n.name);
    if meta.Some? {
      var m := meta.value;
      var next1 := if m.returnTypeUuid.Some? then next + 1 else next;
      var c1 := if |n.arguments| != |m.arguments| then
                  c.(lineMap := c.lineMap + [WrongArgumentCount(m.codeName, |m.arguments|, |n.arguments|)])
                else c;
      LowerArgumentsFresh(n.arguments, 0, ArgumentsLowered([], [], [], c1, next1), bound);
    }
  }

  /** Binding parameters whose ids are below `next` keeps the context
      fresh. */
  lemma {:induction false} BindParametersFresh(parameters: seq<ParameterDescriptor>,
                                               args: seq<FunctionMetas.FunctionArgument>, i: nat,
                                               c: ContextState, next: nat)
    requires i <= |parameters| && FreshAbove(c, next)
    requires forall k :: 0 <= k < |args| ==> args[k].ownUuid < next
    ensures var r := BindParameters(parameters, args, i, c);
      r.Ok? ==> FreshAbove(r.value, next)
    decreases |parameters| - i
  {
    if i < |parameters| {
      if parameters[i].internalName.None? {
        BindParametersFresh(parameters, args, i + 1, c, next);
      } else if i < |args| {
        BindParametersFresh(parameters, args, i + 1,
          c.(objects := c.objects[args[i].ownUuid := args[i].typeUuid],
             nameMap := c.nameMap[parameters[i].internalName.value := args[i].ownUuid]), next);
      }
    }
  }

  lemma {:induction false} FunctionDeclarationFresh(n: Node, c: ContextState, next: nat, bound: nat)
    requires n.FunctionDeclarationNode? && FreshAbove(c, next) && bound <= next && ParameterIdsBelow(n, bound)
    ensures var r := LowerFunctionDeclaration(n, c, next);
      r.Ok? ==> next <= r.value.next && FreshAbove(r.value.context, r.value.next) && r.value.result.None?
    decreases n, 0
  {
    BindParametersFresh(n.parameters, n.parameterFunctionArgs, 0, c, next);
    var c1 := BindParameters(n.parameters, n.parameterFunctionArgs, 0, c);
    if c1.Ok? {
      LowerFresh(n.block, c1.value, next, bound);
    }
  }
}
