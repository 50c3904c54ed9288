// Model of compiler/backend/arch/aarch64.rs: the AArch64 instruction set of
// the back end, its conversion from assembly instructions and its text
// form.

module Aarch64 {
  import opened Wrappers
  import Text
  import opened Registers
  import Assembly
  import Optimization

  /** `Aarch64Asm`: the assembly instructions with comparisons extracted by
      `cset` and a condition name. */
  datatype Aarch64Asm =
    | MoveReg(a: Register, b: Register)
    | MoveImm(a: Register, imm: int)
    | Load(a: Register, b: Register, size: nat)
    | Store(a: Register, b: Register, size: nat)
    | AddReg(a: Register, b: Register)
    | AddImm(a: Register, imm: int)
    | SubReg(a: Register, b: Register)
    | SubImm(a: Register, imm: int)
    | MulReg(a: Register, b: Register)
    | DivReg(a: Register, b: Register)
    | StackLoad(a: Register, offset: nat)
    | StackStore(a: Register, offset: nat)
    | Exit(a: Register)
    | Call(target: string)
    | Label(name: string)
    | Compare(a: Register, b: Register)
    | Jump(target: string)
    | JumpEqual(target: string)
    | JumpNotEqual(target: string)
    | CSet(a: Register, condition: string)

  /** The AArch64 condition code of a comparison. */
  function Condition(c: Assembly.ComparisonType): string {
    match c
    case Equal => "eq"
    case NotEqual => "ne"
    case Greater => "gt"
    case GreaterOrEqual => "ge"
    case Less => "lt"
    case LessOrEqual => "le"
  }

  /** Reading a condition code back. */
  function ComparisonOf(condition: string): Option<Assembly.ComparisonType> {
    if condition == "eq" then Some(Assembly.Equal)
    else if condition == "ne" then Some(Assembly.NotEqual)
    else if condition == "gt" then Some(Assembly.Greater)
    else if condition == "ge" then Some(Assembly.GreaterOrEqual)
    else if condition == "lt" then Some(Assembly.Less)
    else if condition == "le" then Some(Assembly.LessOrEqual)
    else None
  }

  /** Condition codes name their comparison unambiguously. */
  lemma ConditionRoundTrip(c: Assembly.ComparisonType)
    ensures ComparisonOf(Condition(c)) == Some(c)
  {
  }

  /** `From<AssemblyInstruction>`: every variant carries over with its
      operands, except that extracting a comparison becomes `cset`. */
  function FromAssembly(asm: Assembly.AssemblyInstruction): (r: Aarch64Asm)
    ensures r.CSet? <==> asm.ExtractCompare?
    ensures asm.ExtractCompare? ==> r.a == asm.a
  {
    match asm
    case MoveReg(a, b) => MoveReg(a, b)
    case MoveImm(a, i) => MoveImm(a, i)
    case Load(dest, adr, len) => Load(dest, adr, len)
    case Store(data, adr, len) => Store(data, adr, len)
    case AddReg(a, b) => AddReg(a, b)
    case AddImm(a, i) => AddImm(a, i)
    case SubReg(a, b) => SubReg(a, b)
    case SubImm(a, i) => SubImm(a, i)
    case MulReg(a, b) => MulReg(a, b)
    case DivReg(a, b) => DivReg(a, b)
    case StackLoad(a, b) => StackLoad(a, b)
    case StackStore(a, b) => StackStore(a, b)
    case Exit(a) => Exit(a)
    case Call(target) => Call(target)
    case Label(name) => Label(name)
    case Compare(a, b) => Compare(a, b)
    case Jump(a) => Jump(a)
    case JumpEqual(a) => JumpEqual(a)
    case JumpNotEqual(a) => JumpNotEqual(a)
    case ExtractCompare(a, b) => CSet(a, Condition(b))
  }

  /** The conversion loses nothing: distinct assembly instructions become
      distinct AArch64 instructions. */
  lemma FromAssemblyInjective(x: Assembly.AssemblyInstruction, y: Assembly.AssemblyInstruction)
    requires FromAssembly(x) == FromAssembly(y)
    ensures x == y
  {
    if x.ExtractCompare? {
      ConditionRoundTrip(x.comparison);
      ConditionRoundTrip(y.comparison);
    }
  }

  /** Extracting a comparison is the only way to obtain a `cset`, and its
      condition reads back as that comparison. */
  lemma CSetOnlyFromComparison(asm: Assembly.AssemblyInstruction)
    ensures FromAssembly(asm).CSet? <==> asm.ExtractCompare?
    ensures asm.ExtractCompare? ==>
      FromAssembly(asm).a == asm.a && ComparisonOf(FromAssembly(asm).condition) == Some(asm.comparison)
  {
    if asm.ExtractCompare? {
      ConditionRoundTrip(asm.comparison);
    }
  }

  /** An immediate operand. */
  function Immediate(v: int): string {
    "#" + Text.IntToString(v)
  }

  /** `to_string`: one line of assembly text per instruction, three lines
      for an exit; loads and stores have no text form yet (`todo!`). */
  function ToString(i: Aarch64Asm): (r: Outcome<string>)
    ensures !r.Diverged?
    ensures r.Panic? <==> i.Load? || i.Store?
  {
    match i
    case MoveReg(a, b) => Ok("\tmov\t" + a.name + ", " + b.name + "\n")
    case MoveImm(a, b) => Ok("\tmov\t" + a.name + ", #" + Text.IntToString(b) + "\n")
    case Load(_, _, _) => Panic("not yet implemented")
    case Store(_, _, _) => Panic("not yet implemented")
    case AddReg(a, b) => Ok("\tadd\t" + a.name + ", " + a.name + ", " + b.name + "\n")
    case AddImm(a, b) => Ok("\tadd\t" + a.name + ", " + a.name + ", #" + Text.IntToString(b) + "\n")
    case SubReg(a, b) => Ok("\tsub\t" + a.name + ", " + a.name + ", " + b.name + "\n")
    case SubImm(a, b) => Ok("\tsub\t" + a.name + ", " + a.name + ", #" + Text.IntToString(b) + "\n")
    case MulReg(a, b) => Ok("\tmul\t" + a.name + ", " + a.name + ", " + b.name + "\n")
    case DivReg(a, b) => Ok("\tdiv\t" + a.name + ", " + a.name + ", " + b.name + "\n")
    case StackLoad(a, b) => Ok("\tldr\t" + a.name + ", [sp, #" + Text.NatToString(b) + "]\n")
    case StackStore(a, b) => Ok("\tstr\t" + a.name + ", [sp, #" + Text.NatToString(b) + "]\n")
    case Exit(a) => Ok("\tmov\tx16, #1\n\tmov\tx0, " + a.name + "\n\tsvc\t#0x80\n")
    case Call(a) => Ok("\tbl\t" + a + "\n")
    case Label(a) => Ok("\n" + a + ":\n")
    case Compare(a, b) => Ok("\tcmp\t" + a.name + ", " + b.name + "\n")
    case Jump(a) => Ok("\tb\t" + a + "\n")
    case JumpEqual(a) => Ok("\tbeq\t" + a + "\n")
    case JumpNotEqual(a) => Ok("\tbne\t" + a + "\n")
    case CSet(a, cmp) => Ok("\tcset\t" + a.name + ", " + cmp + "\n")
  }

  /** The instructions that render as a single instruction line. */
  predicate IsOneLine(i: Aarch64Asm) {
    !(i.Load? || i.Store? || i.Exit? || i.Label?)
  }

  /** The mnemonic of a one-line instruction. */
  function Mnemonic(i: Aarch64Asm): string
    requires IsOneLine(i)
  {
    match i
    case MoveReg(_, _) => "mov"
    case MoveImm(_, _) => "mov"
    case AddReg(_, _) => "add"
    case AddImm(_, _) => "add"
    case SubReg(_, _) => "sub"
    case SubImm(_, _) => "sub"
    case MulReg(_, _) => "mul"
    case DivReg(_, _) => "div"
    case StackLoad(_, _) => "ldr"
    case StackStore(_, _) => "str"
    case Call(_) => "bl"
    case Compare(_, _) => "cmp"
    case Jump(_) => "b"
    case JumpEqual(_) => "beq"
    case JumpNotEqual(_) => "bne"
    case CSet(_, _) => "cset"
  }

  /** The operands of a one-line instruction, as they appear: two-operand
      arithmetic names its destination twice, immediates carry `#` and
      stack accesses address memory relative to `sp`. */
  function Operands(i: Aarch64Asm): seq<string>
    requires IsOneLine(i)
  {
    match i
    case MoveReg(a, b) => [a.name, b.name]
    case MoveImm(a, b) => [a.name, Immediate(b)]
    case AddReg(a, b) => [a.name, a.name, b.name]
    case AddImm(a, b) => [a.name, a.name, Immediate(b)]
    case SubReg(a, b) => [a.name, a.name, b.name]
    case SubImm(a, b) => [a.name, a.name, Immediate(b)]
    case MulReg(a, b) => [a.name, a.name, b.name]
    case DivReg(a, b) => [a.name, a.name, b.name]
    case StackLoad(a, b) => [a.name, "[sp, #" + Text.NatToString(b) + "]"]
    case StackStore(a, b) => [a.name, "[sp, #" + Text.NatToString(b) + "]"]
    case Call(a) => [a]
    case Compare(a, b) => [a.name, b.name]
    case Jump(a) => [a]
    case JumpEqual(a) => [a]
    case JumpNotEqual(a) => [a]
    case CSet(a, cmp) => [a.name, cmp]
  }

  /** Operands separated by a comma and a space. */
  function CommaSeparated(parts: seq<string>): string {
    if |parts| == 0 then ""
    else if |parts| == 1 then parts[0]
    else parts[0] + ", " + CommaSeparated(parts[1..])
  }

  /** The layout of an instruction line: a tab, the mnemonic, a tab, the
      operands and a line break. */
  function InstructionLine(mnemonic: string, operands: seq<string>): string {
    "\t" + mnemonic + "\t" + CommaSeparated(operands) + "\n"
  }

  /** An instruction line with two operands, spelled out. */
  lemma TwoOperandLine(m: string, x: string, y: string)
    ensures InstructionLine(m, [x, y]) == "\t" + m + "\t" + x + ", " + y + "\n"
  {
    assert [x, y][1..] == [y];
    assert CommaSeparated([x, y]) == x + ", " + y;
  }

  /** An instruction line with three operands, spelled out. */
  lemma ThreeOperandLine(m: string, x: string, y: string, z: string)
    ensures InstructionLine(m, [x, y, z]) == "\t" + m + "\t" + x + ", " + y + ", " + z + "\n"
  {
    assert [x, y, z][1..] == [y, z];
    assert [y, z][1..] == [z];
    assert CommaSeparated([y, z]) == y + ", " + z;
    assert CommaSeparated([x, y, z]) == x + ", " + (y + ", " + z);
  }

  /** An instruction line with one operand, spelled out. */
  lemma OneOperandLine(m: string, x: string)
    ensures InstructionLine(m, [x]) == "\t" + m + "\t" + x + "\n"
  {
  }

  lemma RegisterPairLayout(i: Aarch64Asm)
    requires i.MoveReg? || i.Compare? || i.CSet?
    ensures ToString(i) == Ok(InstructionLine(Mnemonic(i), Operands(i)))
  {
    match i
    case MoveReg(a, b) =>
      assert "\tmov\t" == "\t" + "mov" + "\t";
      TwoOperandLine("mov", a.name, b.name);
    case Compare(a, b) =>
      assert "\tcmp\t" == "\t" + "cmp" + "\t";
      TwoOperandLine("cmp", a.name, b.name);
    case CSet(a, cmp) =>
      assert "\tcset\t" == "\t" + "cset" + "\t";
      TwoOperandLine("cset", a.name, cmp);
  }

  lemma ArithmeticLayout(i: Aarch64Asm)
    requires i.AddReg? || i.SubReg? || i.MulReg? || i.DivReg?
    ensures ToString(i) == Ok(InstructionLine(Mnemonic(i), Operands(i)))
  {
    match i
    case AddReg(a, b) =>
      assert "\tadd\t" == "\t" + "add" + "\t";
      ThreeOperandLine("add", a.name, a.name, b.name);
    case SubReg(a, b) =>
      assert "\tsub\t" == "\t" + "sub" + "\t";
      ThreeOperandLine("sub", a.name, a.name, b.name);
    case MulReg(a, b) =>
      assert "\tmul\t" == "\t" + "mul" + "\t";
      ThreeOperandLine("mul", a.name, a.name, b.name);
    case DivReg(a, b) =>
      assert "\tdiv\t" == "\t" + "div" + "\t";
      ThreeOperandLine("div", a.name, a.name, b.name);
  }

  lemma MoveImmediateLayout(a: Register, b: int)
    ensures ToString(MoveImm(a, b)) == Ok(InstructionLine("mov", [a.name, Immediate(b)]))
  {
    var t := Text.IntToString(b);
    assert ", #" == ", " + "#";
    TwoOperandLine("mov", a.name, Immediate(b));
    assert "\tmov\t" + a.name + ", #" + t + "\n" == "\t" + "mov" + "\t" + a.name + ", " + ("#" + t) + "\n";
  }

  lemma AddImmediateLayout(a: Register, b: int)
    ensures ToString(AddImm(a, b)) == Ok(InstructionLine("add", [a.name, a.name, Immediate(b)]))
  {
    var t := Text.IntToString(b);
    assert ", #" == ", " + "#";
    ThreeOperandLine("add", a.name, a.name, Immediate(b));
    assert "\tadd\t" + a.name + ", " + a.name + ", #" + t + "\n"
      == "\t" + "add" + "\t" + a.name + ", " + a.name + ", " + ("#" + t) + "\n";
  }

  lemma SubImmediateLayout(a: Register, b: int)
    ensures ToString(SubImm(a, b)) == Ok(InstructionLine("sub", [a.name, a.name, Immediate(b)]))
  {
    var t := Text.IntToString(b);
    assert ", #" == ", " + "#";
    ThreeOperandLine("sub", a.name, a.name, Immediate(b));
    assert "\tsub\t" + a.name + ", " + a.name + ", #" + t + "\n"
      == "\t" + "sub" + "\t" + a.name + ", " + a.name + ", " + ("#" + t) + "\n";
  }

  lemma StackLoadLayout(a: Register, b: nat)
    ensures ToString(StackLoad(a, b)) == Ok(InstructionLine("ldr", [a.name, "[sp, #" + Text.NatToString(b) + "]"]))
  {
    var n := Text.NatToString(b);
    assert ", [sp, #" == ", " + "[sp, #";
    assert "]\n" == "]" + "\n";
    TwoOperandLine("ldr", a.name, "[sp, #" + n + "]");
    assert "\tldr\t" + a.name + ", [sp, #" + n + "]\n"
      == "\t" + "ldr" + "\t" + a.name + ", " + ("[sp, #" + n + "]") + "\n";
  }

  lemma StackStoreLayout(a: Register, b: nat)
    ensures ToString(StackStore(a, b)) == Ok(InstructionLine("str", [a.name, "[sp, #" + Text.NatToString(b) + "]"]))
  {
    var n := Text.NatToString(b);
    assert ", [sp, #" == ", " + "[sp, #";
    assert "]\n" == "]" + "\n";
    TwoOperandLine("str", a.name, "[sp, #" + n + "]");
    assert "\tstr\t" + a.name + ", [sp, #" + n + "]\n"
      == "\t" + "str" + "\t" + a.name + ", " + ("[sp, #" + n + "]") + "\n";
  }

  lemma BranchLayout(i: Aarch64Asm)
    requires i.Call? || i.Jump? || i.JumpEqual? || i.JumpNotEqual?
    ensures ToString(i) == Ok(InstructionLine(Mnemonic(i), Operands(i)))
  {
    match i
    case Call(a) =>
      assert "\tbl\t" == "\t" + "bl" + "\t";
      OneOperandLine("bl", a);
    case Jump(a) =>
      assert "\tb\t" == "\t" + "b" + "\t";
      OneOperandLine("b", a);
    case JumpEqual(a) =>
      assert "\tbeq\t" == "\t" + "beq" + "\t";
      OneOperandLine("beq", a);
    case JumpNotEqual(a) =>
      assert "\tbne\t" == "\t" + "bne" + "\t";
      OneOperandLine("bne", a);
  }

  /** Every instruction except exits and labels renders as one line in the
      common layout, with the operands `Operands` lists. */
  lemma OneLineLayout(i: Aarch64Asm)
    requires IsOneLine(i)
    ensures ToString(i) == Ok(InstructionLine(Mnemonic(i), Operands(i)))
  {
    if i.MoveReg? || i.Compare? || i.CSet? {
      RegisterPairLayout(i);
    } else if i.AddReg? || i.SubReg? || i.MulReg? || i.DivReg? {
      ArithmeticLayout(i);
    } else if i.MoveImm? {
      MoveImmediateLayout(i.a, i.imm);
    } else if i.AddImm? {
      AddImmediateLayout(i.a, i.imm);
    } else if i.SubImm? {
      SubImmediateLayout(i.a, i.imm);
    } else if i.StackLoad? {
      StackLoadLayout(i.a, i.offset);
    } else if i.StackStore? {
      StackStoreLayout(i.a, i.offset);
    } else {
      BranchLayout(i);
    }
  }

  /** Every rendered instruction ends with a line break; all but labels
      start with a tab, and a label stands on a line of its own after an
      empty one. Only loads and stores cannot be rendered. */
  lemma RenderedShape(i: Aarch64Asm)
    ensures ToString(i).Ok? <==> !(i.Load? || i.Store?)
    ensures ToString(i).Ok? ==>
      var s := ToString(i).value;
      |s| >= 2 && s[|s| - 1] == '\n' && (s[0] == '\t' <==> !i.Label?)
    ensures i.Label? ==> ToString(i) == Ok("\n" + i.name + ":\n")
  {
    if IsOneLine(i) {
      OneLineLayout(i);
    }
  }

  /** An exit is the three-instruction macOS system call: exit number 1 in
      `x16`, the status in `x0`, then the supervisor call. */
  lemma ExitLines(a: Register)
    ensures ToString(Exit(a)) == Ok(InstructionLine("mov", ["x16", "#1"]) + InstructionLine("mov", ["x0", a.name])
      + InstructionLine("svc", ["#0x80"]))
  {
    TwoOperandLine("mov", "x16", "#1");
    TwoOperandLine("mov", "x0", a.name);
    OneOperandLine("svc", "#0x80");
    var p1, p2, p3, p4 := "\tmov\tx16, #1\n", "\tmov\tx0, ", "\n", "\tsvc\t#0x80\n";
    assert InstructionLine("mov", ["x16", "#1"]) == p1;
    assert InstructionLine("mov", ["x0", a.name]) == p2 + a.name + p3;
    assert InstructionLine("svc", ["#0x80"]) == p4;
    assert "\tmov\tx16, #1\n\tmov\tx0, " == p1 + p2;
    assert "\n\tsvc\t#0x80\n" == p3 + p4;
    assert (p1 + p2) + a.name + (p3 + p4) == p1 + (p2 + a.name + p3) + p4;
  }

  /** `optimize`: AArch64 has no optimisations yet; the instructions come
      back unchanged whatever the flags. */
  function Optimize(instructions: seq<Aarch64Asm>, flags: Optimization.OptimizationFlags): (r: seq<Aarch64Asm>)
    ensures r == instructions
  {
    instructions
  }
}
