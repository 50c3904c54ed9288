// Model of util/exit.rs: how the compiler's exit status is composed from an
// exit-code variant (the hundreds) and the code of the failure kind (the
// last two digits). Printing the message and ending the process are not
// modelled; the message and the status are the result.

module Exit {
  import Text

  /** `ExitCode`: the failure kinds. Only `Internal` exists in a normal
      build; the others are compiled in debug configurations only. */
  datatype ExitCode = BadArgument | ReadWriteError | Other | Internal

  /** `get_code`: the last two digits of the exit status. */
  function GetCode(c: ExitCode): (r: nat)
    ensures r < 100
  {
    match c
    case BadArgument => 0
    case ReadWriteError => 4
    case Other => 98
    case Internal => 99
  }

  /** What the process would print and the status it would exit with. */
  datatype Termination = Termination(message: string, status: nat)

  /** The warning appended when a variant above 2 is requested. */
  function VariantWarning(variant: nat): string {
    "Program was supposed to exit with variant " + Text.NatToString(variant)
      + " of the exit code, but this is out of range (0...2), choosing one instead."
  }

  /** The variant actually used: one in place of anything above 2. */
  function EffectiveVariant(variant: nat): (r: nat)
    ensures r <= 2
    ensures variant <= 2 ==> r == variant
  {
    if variant > 2 then 1 else variant
  }

  /** `exit_with_variant` for a `u8` variant: the status is the effective
      variant times one hundred plus the code. */
  function ExitWithVariant(message: string, code: ExitCode, variant: nat): (r: Termination)
    requires variant < 256
    ensures r.status <= 299
    ensures r.status / 100 == EffectiveVariant(variant) && r.status % 100 == GetCode(code)
  {
    var message' := if variant > 2 then message + VariantWarning(variant) else message;
    Termination(message', EffectiveVariant(variant) * 100 + GetCode(code))
  }

  /** `exit`: always the first variant. */
  function ExitWith(message: string, code: ExitCode): (r: Termination)
    ensures r.status == 100 + GetCode(code)
  {
    ExitWithVariant(message, code, 1)
  }

  /** A variant out of range is replaced by one and the message gains a
      warning naming the requested variant; in range, the message is kept
      unchanged. */
  lemma OutOfRangeVariant(message: string, code: ExitCode, variant: nat)
    requires variant < 256
    ensures variant > 2 ==>
      ExitWithVariant(message, code, variant) == Termination(message + VariantWarning(variant), 100 + GetCode(code))
    ensures variant <= 2 ==> ExitWithVariant(message, code, variant).message == message
  {
  }

  /** The status determines both of its parts: different (variant, code)
      pairs in range never collide. */
  lemma StatusDeterminesParts(m1: string, c1: ExitCode, v1: nat, m2: string, c2: ExitCode, v2: nat)
    requires v1 <= 2 && v2 <= 2
    requires ExitWithVariant(m1, c1, v1).status == ExitWithVariant(m2, c2, v2).status
    ensures v1 == v2 && GetCode(c1) == GetCode(c2)
  {
    var s := ExitWithVariant(m1, c1, v1).status;
    assert s / 100 == v1 && s / 100 == v2;
  }

  /** Distinct failure kinds have distinct codes. */
  lemma CodesDistinct(a: ExitCode, b: ExitCode)
    ensures GetCode(a) == GetCode(b) <==> a == b
  {
  }

  /** An internal failure exits with 199. */
  lemma InternalExit(message: string)
    ensures ExitWith(message, Internal).status == 199
  {
  }
}
