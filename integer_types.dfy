// Model of the integer type table in compiler/data_types/integer.rs:
// bounds, names and sizes of the built-in integer types.

module IntegerTypes {
  datatype IntegerType =
    | Unsigned8BitInteger | Signed8BitInteger
    | Unsigned16BitInteger | Signed16BitInteger
    | Unsigned32BitInteger | Signed32BitInteger
    | Address

  /** `ADDRESS_INTEGER_TYPE` from config.rs: addresses are `u32`. */
  const AddressIntegerType: IntegerType := Unsigned32BitInteger

  /** `get_upper_bound`. */
  function UpperBound(t: IntegerType): (r: nat)
    ensures 0 < r < (if MemorySize(t) == 1 then 0x100 else if MemorySize(t) == 2 then 0x1_0000 else 0x1_0000_0000)
    ensures IsSigned(t) ==> 2 * r + 1 < (if MemorySize(t) == 1 then 0x100 else if MemorySize(t) == 2 then 0x1_0000 else 0x1_0000_0000)
  {
    match t
    case Unsigned8BitInteger => 0xff
    case Signed8BitInteger => 0x7f
    case Unsigned16BitInteger => 0xffff
    case Signed16BitInteger => 0x7fff
    case Unsigned32BitInteger => 0xffff_ffff
    case Signed32BitInteger => 0x7fff_ffff
    case Address => 0xffff_ffff
  }

  /** `get_lower_bound`: the magnitude of the smallest value, negated when
      checked. */
  function LowerBound(t: IntegerType): (r: nat)
    ensures IsSigned(t) ==> r == UpperBound(t) + 1
    ensures !IsSigned(t) ==> r == 0
  {
    match t
    case Signed8BitInteger => 0x80
    case Signed16BitInteger => 0x8000
    case Signed32BitInteger => 0x8000_0000
    case Address => 0
    case _ => 0
  }

  /** `get_code_name`: the name that refers to the type in source code. */
  function CodeName(t: IntegerType): (r: string)
    ensures |r| == (if MemorySize(t) == 1 then 2 else 3)
    ensures r[0] == (if IsSigned(t) then 'i' else 'u')
  {
    match t
    case Unsigned8BitInteger => "u8"
    case Signed8BitInteger => "i8"
    case Unsigned16BitInteger => "u16"
    case Signed16BitInteger => "i16"
    case Unsigned32BitInteger => "u32"
    case Signed32BitInteger => "i32"
    case Address => "u32"
  }

  /** `display_name`, used in messages: the code name. */
  function DisplayName(t: IntegerType): string {
    CodeName(t)
  }

  /** `get_memory_size`: bytes stored or loaded for a value of the type. */
  function MemorySize(t: IntegerType): (r: nat)
    ensures r == 1 || r == 2 || r == 4
  {
    match t
    case Unsigned8BitInteger | Signed8BitInteger => 1
    case Unsigned16BitInteger | Signed16BitInteger => 2
    case Unsigned32BitInteger | Signed32BitInteger => 4
    case Address => 4
  }

  predicate IsSigned(t: IntegerType) {
    t in {Signed8BitInteger, Signed16BitInteger, Signed32BitInteger}
  }

  function Pow2(n: nat): (r: nat)
    ensures r >= 1
  {
    if n == 0 then 1 else 2 * Pow2(n - 1)
  }

  /** The bounds are exactly those of a two's-complement (signed) or plain
      binary (unsigned) number of `MemorySize` bytes: the range holds
      2^(8·size) values, and a signed type splits it evenly. */
  lemma BoundsMatchWidth(t: IntegerType)
    ensures UpperBound(t) + LowerBound(t) + 1 == Pow2(8 * MemorySize(t))
    ensures IsSigned(t) ==> LowerBound(t) == UpperBound(t) + 1 == Pow2(8 * MemorySize(t) - 1)
    ensures !IsSigned(t) ==> LowerBound(t) == 0
  {
    assert Pow2(8) == 0x100;
    assert Pow2(16) == 0x1_0000 by { assert Pow2(16) == Pow2(8) * Pow2(8) by { Pow2Add(8, 8); } }
    assert Pow2(32) == 0x1_0000_0000 by { Pow2Add(16, 16); }
    assert Pow2(7) == 0x80;
    assert Pow2(15) == 0x8000 by { Pow2Add(7, 8); }
    assert Pow2(31) == 0x8000_0000 by { Pow2Add(15, 16); }
  }

  lemma {:induction false} Pow2Add(m: nat, n: nat)
    ensures Pow2(m + n) == Pow2(m) * Pow2(n)
    decreases m
  {
    if m > 0 {
      Pow2Add(m - 1, n);
    }
  }

  /** Apart from `Address`, which is spelt like the type it stands for,
      no two integer types share a code name, so a type name in source code
      picks out one type. */
  lemma CodeNamesDistinct(a: IntegerType, b: IntegerType)
    requires a != b && a != Address && b != Address
    ensures CodeName(a) != CodeName(b)
  {
  }

  /** The address type has every property of `u32` and the same name. */
  lemma AddressIsU32()
    ensures UpperBound(Address) == UpperBound(AddressIntegerType)
    ensures LowerBound(Address) == LowerBound(AddressIntegerType)
    ensures CodeName(Address) == CodeName(AddressIntegerType)
    ensures MemorySize(Address) == MemorySize(AddressIntegerType)
  {
  }
}
