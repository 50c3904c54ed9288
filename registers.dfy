// The register descriptions of compiler/backend/arch/register.rs and the
// `Register` record of compiler/backend/arch/mod.rs.

module Registers {
  datatype RegisterKind = GeneralPurpose | StackPointer

  datatype RegisterSavingBehaviour = Scratch | CallerSaved | CalleeSaved

  datatype RegisterDataType = Integer | Float | Address

  /** `Register`: its assembly name, kind, width in bytes (a `u8`), calling
      convention and the data it may hold. */
  datatype Register = Register(
    name: string,
    kind: RegisterKind,
    sizeBytes: nat,
    savingBehaviour: RegisterSavingBehaviour,
    options: seq<RegisterDataType>)
}
