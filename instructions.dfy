// The intermediate representation of compiler/backend/flattener.rs: the
// instructions that lowering produces, addressed by object ids, and the
// queries the drop pass asks of them.

module Instructions {
  import opened Wrappers
  import opened Objects

  /** `JumpComparisonType`. */
  datatype JumpComparisonType = Equal | NotEqual | Greater | GreaterOrEqual | Less | LessOrEqual | Carry | NotCarry

  /** `requires_args`: every comparison except the two carry tests needs
      values to compare. */
  predicate RequiresArgs(c: JumpComparisonType) {
    !(c.Carry? || c.NotCarry?)
  }

  /** `JumpCondition`: up to two compared objects and the comparison. */
  datatype JumpCondition = JumpCondition(a: Option<Uuid>, b: Option<Uuid>, comparison: JumpComparisonType)

  /** `JumpCondition::get_objects`: the objects present, `a` before `b`. */
  function ConditionObjects(c: JumpCondition): (r: seq<Uuid>)
    ensures |r| == (if c.a.Some? then 1 else 0) + (if c.b.Some? then 1 else 0)
    ensures c.a.Some? ==> r[0] == c.a.value
    ensures c.b.Some? ==> r[|r| - 1] == c.b.value
  {
    if c.a.Some? then
      if c.b.Some? then [c.a.value, c.b.value] else [c.a.value]
    else
      if c.b.Some? then [c.b.value] else []
  }

  /** `Instruction`. Two-operand arithmetic works in place on its first
      operand; `MoveData` holds an `i64` immediate. */
  datatype Instruction =
    | Move(destination: Uuid, source: Uuid)
    | MoveData(destination: Uuid, value: int)
    | Add(a: Uuid, b: Uuid)
    | Sub(a: Uuid, b: Uuid)
    | Mul(a: Uuid, b: Uuid)
    | Div(a: Uuid, b: Uuid)
    | Mod(a: Uuid, b: Uuid)
    | Load(destination: Uuid, address: Uuid, size: nat)
    | Store(data: Uuid, address: Uuid, size: nat)
    | Drop(obj: Uuid)
    | Exit(obj: Uuid)
    | Call(assemblyName: string, inputs: seq<Uuid>, outputs: seq<Uuid>)
    | Label(name: string, global: bool)
    | ReceiveArgument(obj: Uuid, index: nat)
    | FunctionStart
    | FunctionEnd
    | JumpConditional(condition: JumpCondition, target: string)
    | Jump(target: string)

  /** A sequence with no `Drop` in it, as lowering emits them before the
      drop pass. */
  predicate NoDrops(s: seq<Instruction>) {
    forall k :: 0 <= k < |s| ==> !s[k].Drop?
  }

  /** The instructions that mention no object at all. */
  predicate IsControl(i: Instruction) {
    i.Label? || i.FunctionStart? || i.FunctionEnd? || i.ReceiveArgument? || i.Jump?
  }

  /** `Instruction::get_objects`: the objects an instruction reads or
      writes, in operand order. */
  function GetObjects(i: Instruction): (r: seq<Uuid>)
    ensures IsControl(i) ==> r == []
  {
    match i
    case Move(a, b) => [a, b]
    case Add(a, b) => [a, b]
    case Sub(a, b) => [a, b]
    case Mul(a, b) => [a, b]
    case Div(a, b) => [a, b]
    case Mod(a, b) => [a, b]
    case Load(a, b, _) => [a, b]
    case Store(a, b, _) => [a, b]
    case Drop(a) => [a]
    case MoveData(a, _) => [a]
    case Exit(a) => [a]
    case Call(_, args, outs) => args + outs
    case Label(_, _) => []
    case FunctionEnd => []
    case FunctionStart => []
    case ReceiveArgument(_, _) => []
    case JumpConditional(condition, _) => ConditionObjects(condition)
    case Jump(_) => []
  }

  /** `Instruction::get_overridden`: the destination of a move, whose old
      value no longer matters. */
  function GetOverridden(i: Instruction): (r: seq<Uuid>)
    ensures |r| <= 1
  {
    match i
    case Move(a, _) => [a]
    case MoveData(a, _) => [a]
    case _ => []
  }

  /** An overridden object is always one of the objects the instruction
      mentions, and it is the first of them. */
  lemma OverriddenIsMentioned(i: Instruction)
    ensures |GetOverridden(i)| == 1 ==> |GetObjects(i)| >= 1 && GetOverridden(i)[0] == GetObjects(i)[0]
    ensures !(i.Move? || i.MoveData?) ==> GetOverridden(i) == []
  {
  }

  /** A conditional jump mentions exactly the objects its condition
      compares, and only the two carry tests need no arguments. */
  lemma JumpObjects(c: JumpCondition, target: string)
    ensures GetObjects(JumpConditional(c, target)) == ConditionObjects(c)
    ensures !RequiresArgs(c.comparison) <==> c.comparison in {Carry, NotCarry}
  {
  }
}
