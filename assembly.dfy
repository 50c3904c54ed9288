// The architecture-independent assembly instructions the back end emits
// before they are turned into AArch64 text (the variants that
// compiler/backend/arch/aarch64.rs and compiler/backend/arch/mod.rs use).

module Assembly {
  import opened Registers

  /** The comparisons a `cset` can extract. */
  datatype ComparisonType = Equal | NotEqual | Greater | GreaterOrEqual | Less | LessOrEqual

  /** `AssemblyInstruction`. Immediates are `i64`, stack offsets `u64`,
      load and store widths `u8`. */
  datatype AssemblyInstruction =
    | MoveReg(a: Register, b: Register)
    | MoveImm(a: Register, imm: int)
    | Load(a: Register, b: Register, size: nat)
    | Store(a: Register, b: Register, size: nat)
    | AddReg(a: Register, b: Register)
    | AddImm(a: Register, imm: int)
    | SubReg(a: Register, b: Register)
    | SubImm(a: Register, imm: int)
    | MulReg(a: Register, b: Register)
    | DivReg(a: Register, b: Register)
    | StackLoad(a: Register, offset: nat)
    | StackStore(a: Register, offset: nat)
    | Exit(a: Register)
    | Call(target: string)
    | Label(name: string)
    | Compare(a: Register, b: Register)
    | Jump(target: string)
    | JumpEqual(target: string)
    | JumpNotEqual(target: string)
    | ExtractCompare(a: Register, comparison: ComparisonType)
}
