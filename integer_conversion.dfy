/** `convert_to_int` from util/math.rs: decoding an integer literal written in
    decimal or with a `0x`, `0b` or `0o` prefix, into the range of `i128`. */
module IntegerConversion {
  import opened Wrappers
  import Text

  const I128Min: int := -0x8000_0000_0000_0000_0000_0000_0000_0000
  const I128Max: int := 0x7FFF_FFFF_FFFF_FFFF_FFFF_FFFF_FFFF_FFFF

  /** The only character `convert_to_int` ignores (config.rs). */
  const IgnoredCharacter: char := '_'

  predicate IsRadix(radix: nat) {
    2 <= radix <= 36
  }

  /** `char::to_digit(radix)`: decimal digits and, above radix 10, letters of
      either case. */
  function DigitValue(c: char, radix: nat): (d: Option<nat>)
    requires IsRadix(radix)
    ensures d.Some? ==> d.value < radix
  {
    var v :=
      if '0' <= c <= '9' then (c as int) - ('0' as int)
      else if 'a' <= c <= 'z' then (c as int) - ('a' as int) + 10
      else if 'A' <= c <= 'Z' then (c as int) - ('A' as int) + 10
      else 36;
    if v < radix then Some(v) else None
  }

  predicate AllDigits(s: string, radix: nat)
    requires IsRadix(radix)
  {
    forall i :: 0 <= i < |s| ==> DigitValue(s[i], radix).Some?
  }

  /** The value of a string of digits, most significant first. */
  function DigitsValue(s: string, radix: nat): nat
    requires IsRadix(radix) && AllDigits(s, radix)
  {
    if |s| == 0 then 0
    else DigitsValue(s[..|s| - 1], radix) * radix + DigitValue(s[|s| - 1], radix).value
  }

  /** `i128::from_str_radix`: an optional `+` or `-`, then at least one digit,
      and the value must fit in `i128`. */
  function FromStrRadix(s: string, radix: nat): (r: Option<int>)
    requires IsRadix(radix)
    ensures r.Some? ==> I128Min <= r.value <= I128Max
    ensures r.Some? ==> |s| > 0
  {
    if |s| == 0 then None
    else
      var signed := s[0] == '+' || s[0] == '-';
      var digits := if signed then s[1..] else s;
      if |digits| == 0 || !AllDigits(digits, radix) then None
      else
        var magnitude := DigitsValue(digits, radix);
        var v: int := if s[0] == '-' then -(magnitude as int) else magnitude;
        if I128Min <= v <= I128Max then Some(v) else None
  }

  /** The input with surrounding whitespace trimmed and then every ignored
      character removed, which is what every parse attempt sees. */
  function Cleaned(input: string): string {
    Text.Without(Text.Trim(input), IgnoredCharacter)
  }

  /** `strip_prefix(prefix)` followed by `from_str_radix`. */
  function Prefixed(s: string, prefix: string, radix: nat): (r: Option<int>)
    requires IsRadix(radix)
    ensures r.Some? ==> I128Min <= r.value <= I128Max
    ensures r.Some? ==> prefix <= s
  {
    if prefix <= s then FromStrRadix(s[|prefix|..], radix) else None
  }

  /** The parse attempts of `convert_to_int` on the cleaned text: decimal
      first, then the `0x`, `0b` and `0o` prefixes in that order, and `None`
      when no form parses. */
  function Decode(s: string): (r: Option<int>)
    ensures r.Some? ==> I128Min <= r.value <= I128Max
    ensures r.Some? ==> |s| > 0
  {
    var decimal := FromStrRadix(s, 10);
    var hex := Prefixed(s, "0x", 16);
    var binary := Prefixed(s, "0b", 2);
    var octal := Prefixed(s, "0o", 8);
    if decimal.Some? then decimal
    else if hex.Some? then hex
    else if binary.Some? then binary
    else octal
  }

  /** `convert_to_int`: trim, drop every `_`, then decode. */
  function ConvertToInt(input: string): (r: Option<int>)
    ensures r.Some? ==> I128Min <= r.value <= I128Max
  {
    Decode(Cleaned(input))
  }

  /** The lower-case digit for `d`, as Rust's `{:x}` formatting prints it. */
  function RadixDigit(d: nat): (c: char)
    requires d < 36
    ensures '0' <= c <= '9' || 'a' <= c <= 'z'
  {
    if d < 10 then ('0' as int + d) as char else ('a' as int + d - 10) as char
  }

  /** The numeral of `n` in `radix`, without prefix or leading zeros: the
      independent reference that `convert_to_int` inverts. */
  function Numeral(n: nat, radix: nat): (r: string)
    requires IsRadix(radix)
    ensures |r| >= 1
    ensures |r| > 1 ==> r[0] != '0'
    ensures AllDigits(r, radix)
    ensures forall i :: 0 <= i < |r| ==> '0' <= r[i] <= '9' || 'a' <= r[i] <= 'z'
    decreases n
  {
    if n < radix then
      RadixDigitValue(n, radix);
      [RadixDigit(n)]
    else
      DivMod(n, radix);
      var high := Numeral(n / radix, radix);
      RadixDigitValue(n % radix, radix);
      var r := high + [RadixDigit(n % radix)];
      assert r[0] == high[0];
      assert forall i :: 0 <= i < |high| ==> r[i] == high[i];
      assert r[|r| - 1] == RadixDigit(n % radix);
      r
  }

  lemma RadixDigitValue(d: nat, radix: nat)
    requires IsRadix(radix) && d < radix
    ensures DigitValue(RadixDigit(d), radix) == Some(d)
    ensures d > 0 ==> RadixDigit(d) != '0'
  {
  }

  lemma DivMod(n: nat, radix: nat)
    requires IsRadix(radix) && n >= radix
    ensures 0 < n / radix < n
    ensures n % radix < radix
    ensures n == (n / radix) * radix + n % radix
  {
  }

  lemma {:induction false} DigitsOfNumeral(n: nat, radix: nat)
    requires IsRadix(radix)
    ensures DigitsValue(Numeral(n, radix), radix) == n
  {
    if n >= radix {
      var r := Numeral(n, radix);
      DivMod(n, radix);
      RadixDigitValue(n % radix, radix);
      assert r[..|r| - 1] == Numeral(n / radix, radix);
      DigitsOfNumeral(n / radix, radix);
    } else {
      RadixDigitValue(n, radix);
    }
  }

  /** The decimal numeral is what `to_string` prints. */
  lemma {:induction false} DecimalNumeral(n: nat)
    ensures Numeral(n, 10) == Text.NatToString(n)
  {
    if n >= 10 {
      DecimalNumeral(n / 10);
    }
  }

  /** Text without surrounding whitespace and without `_` is decoded as it is. */
  lemma ConvertPlain(s: string)
    requires |s| > 0 && !Text.IsWhitespace(s[0]) && !Text.IsWhitespace(s[|s| - 1])
    requires IgnoredCharacter !in s
    ensures ConvertToInt(s) == Decode(s)
  {
    Text.TrimStartOfTrimmed(s);
    Text.WithoutAbsent(s, IgnoredCharacter);
  }

  /** Digits and signs are neither whitespace nor ignored. */
  lemma PlainCharacters(s: string)
    requires forall i :: 0 <= i < |s| ==> ('0' <= s[i] <= '9' || 'a' <= s[i] <= 'z' || s[i] == '-')
    ensures IgnoredCharacter !in s
    ensures forall i :: 0 <= i < |s| ==> !Text.IsWhitespace(s[i])
  {
  }

  lemma DecimalParse(v: int)
    requires I128Min <= v <= I128Max
    ensures FromStrRadix(Text.IntToString(v), 10) == Some(v)
  {
    var m: nat := if v < 0 then -v else v;
    var digits := Text.NatToString(m);
    DecimalNumeral(m);
    DigitsOfNumeral(m, 10);
    if v < 0 {
      assert Text.IntToString(v)[1..] == digits;
    }
  }

  lemma DecimalPlain(v: int)
    ensures ConvertToInt(Text.IntToString(v)) == Decode(Text.IntToString(v))
  {
    var s := Text.IntToString(v);
    var m: nat := if v < 0 then -v else v;
    var digits := Text.NatToString(m);
    assert s == digits || s == "-" + digits;
    PlainCharacters(s);
    ConvertPlain(s);
  }

  /** Every `i128` printed in decimal decodes to itself. */
  lemma DecimalRoundTrip(v: int)
    requires I128Min <= v <= I128Max
    ensures ConvertToInt(Text.IntToString(v)) == Some(v)
  {
    DecimalParse(v);
    DecimalPlain(v);
  }

  lemma PrefixedPlain(digits: string, prefix: string)
    requires prefix in {"0x", "0b", "0o"}
    requires forall i :: 0 <= i < |digits| ==> ('0' <= digits[i] <= '9' || 'a' <= digits[i] <= 'z')
    ensures ConvertToInt(prefix + digits) == Decode(prefix + digits)
  {
    var s := prefix + digits;
    PlainCharacters(s);
    ConvertPlain(s);
  }

  /** A text starting with `0` and a non-digit is not a decimal number. */
  lemma NotDecimal(s: string)
    requires |s| >= 2 && s[0] == '0' && !('0' <= s[1] <= '9')
    ensures FromStrRadix(s, 10) == None
  {
    assert DigitValue(s[1], 10).None?;
  }

  lemma PrefixCharacters(s: string, prefix: string)
    requires |prefix| == 2 && prefix <= s
    ensures |s| >= 2 && s[0] == prefix[0] && s[1] == prefix[1]
  {
    assert s[..2] == prefix;
  }

  /** When the text is not decimal, the prefixed form it starts with decides
      the result. */
  lemma DecodePrefixed(s: string, prefix: string, radix: nat)
    requires (radix == 16 && prefix == "0x") || (radix == 2 && prefix == "0b") || (radix == 8 && prefix == "0o")
    requires FromStrRadix(s, 10) == None
    requires prefix <= s
    ensures Decode(s) == FromStrRadix(s[2..], radix)
  {
    PrefixCharacters(s, prefix);
    if radix != 16 && "0x" <= s {
      PrefixCharacters(s, "0x");
    }
    if radix != 2 && "0b" <= s {
      PrefixCharacters(s, "0b");
    }
    if radix != 8 && "0o" <= s {
      PrefixCharacters(s, "0o");
    }
  }

  /** A prefixed non-negative `i128` decodes to itself in each radix. */
  lemma PrefixedRoundTrip(n: nat, radix: nat, prefix: string)
    requires (radix == 16 && prefix == "0x") || (radix == 2 && prefix == "0b") || (radix == 8 && prefix == "0o")
    requires n <= I128Max
    ensures ConvertToInt(prefix + Numeral(n, radix)) == Some(n)
  {
    var digits := Numeral(n, radix);
    var s := prefix + digits;
    PrefixedPlain(digits, prefix);
    DecodePrefixedNumeral(n, radix, prefix);
  }

  lemma DecodePrefixedNumeral(n: nat, radix: nat, prefix: string)
    requires (radix == 16 && prefix == "0x") || (radix == 2 && prefix == "0b") || (radix == 8 && prefix == "0o")
    requires n <= I128Max
    ensures Decode(prefix + Numeral(n, radix)) == Some(n)
  {
    var digits := Numeral(n, radix);
    var s := prefix + digits;
    NotDecimal(s);
    NumeralParses(n, radix);
    assert s[2..] == digits;
    DecodePrefixed(s, prefix, radix);
  }

  lemma NumeralParses(n: nat, radix: nat)
    requires IsRadix(radix) && n <= I128Max
    ensures FromStrRadix(Numeral(n, radix), radix) == Some(n)
  {
    DigitsOfNumeral(n, radix);
  }

  /** A decimal numeral of two or more digits has no radix prefix. */
  lemma LongNumeralUnprefixed(n: nat)
    requires n >= 10
    ensures var s := Text.NatToString(n);
      !("0x" <= s) && !("0b" <= s) && !("0o" <= s)
  {
  }

  lemma NumeralPlain(n: nat)
    ensures ConvertToInt(Text.NatToString(n)) == Decode(Text.NatToString(n))
  {
    var s := Text.NatToString(n);
    PlainCharacters(s);
    ConvertPlain(s);
  }

  lemma OverflowNotDecimal(n: nat)
    requires n > I128Max
    ensures FromStrRadix(Text.NatToString(n), 10) == None
  {
    DecimalNumeral(n);
    DigitsOfNumeral(n, 10);
  }

  lemma DecodeOverflow(n: nat)
    requires n > I128Max
    ensures Decode(Text.NatToString(n)) == None
  {
    OverflowNotDecimal(n);
    LongNumeralUnprefixed(n);
  }

  /** Decimal numerals beyond `i128::MAX` are rejected rather than wrapped. */
  lemma OverflowRejected(n: nat)
    requires n > I128Max
    ensures ConvertToInt(Text.NatToString(n)) == None
  {
    NumeralPlain(n);
    DecodeOverflow(n);
  }

  lemma TrimmedHexExample()
    ensures Text.Trim("0x1_0___") == "0x1_0___"
  {
    Text.TrimStartOfTrimmed("0x1_0___");
  }

  lemma WithoutHexExample()
    ensures Text.Without("0x1_0___", '_') == "0x10"
  {
    assert "0x1_0___" == "0x1" + "_0___";
    Text.WithoutAppend("0x1", "_0___", '_');
    Text.WithoutAbsent("0x1", '_');
    assert "_0___"[1..] == "0" + "___";
    Text.WithoutAppend("0", "___", '_');
    assert Text.Without("0", '_') == "0";
    assert Text.Without("___", '_') == "";
  }

  lemma TrimmedBinaryExample()
    ensures Text.Trim("___0b10") == "___0b10"
  {
    Text.TrimStartOfTrimmed("___0b10");
  }

  lemma WithoutBinaryExample()
    ensures Text.Without("___0b10", '_') == "0b10"
  {
    assert "___0b10" == "___" + "0b10";
    Text.WithoutAppend("___", "0b10", '_');
    Text.WithoutAbsent("0b10", '_');
    assert Text.Without("___", '_') == "";
  }

  lemma DecodeHexExample()
    ensures Decode("0x10") == Some(16)
  {
    NotDecimal("0x10");
    assert "0x10"[2..] == "10";
    assert FromStrRadix("10", 16) == Some(16) by {
      assert "10"[..1] == "1";
      assert "1"[..0] == "";
      assert DigitsValue("10", 16) == 16;
    }
    DecodePrefixed("0x10", "0x", 16);
  }

  lemma DecodeBinaryExample()
    ensures Decode("0b10") == Some(2)
  {
    NotDecimal("0b10");
    assert "0b10"[2..] == "10";
    assert FromStrRadix("10", 2) == Some(2) by {
      assert "10"[..1] == "1";
      assert "1"[..0] == "";
      assert DigitsValue("10", 2) == 2;
    }
    DecodePrefixed("0b10", "0b", 2);
  }

  /** Test cases of util/math.rs: underscores anywhere, prefixed radixes and
      plain decimal. */
  lemma ConvertToIntExamples()
    ensures ConvertToInt("0x1_0___") == Some(16)
    ensures ConvertToInt("___0b10") == Some(2)
    ensures ConvertToInt("24") == Some(24)
  {
    HexExample();
    BinaryExample();
    DecimalExample();
  }

  lemma HexExample()
    ensures ConvertToInt("0x1_0___") == Some(16)
  {
    TrimmedHexExample();
    WithoutHexExample();
    DecodeHexExample();
  }

  lemma BinaryExample()
    ensures ConvertToInt("___0b10") == Some(2)
  {
    TrimmedBinaryExample();
    WithoutBinaryExample();
    DecodeBinaryExample();
  }

  lemma DecimalExample()
    ensures ConvertToInt("24") == Some(24)
  {
    ConvertPlain("24");
    assert FromStrRadix("24", 10) == Some(24) by {
      assert "24"[..1] == "2";
      assert "2"[..0] == "";
      assert DigitsValue("24", 10) == 24;
    }
  }

  /** A word whose first character is neither a sign nor a digit of any of
      the radixes is rejected in every form. */
  lemma RejectsWord(s: string)
    requires |s| > 0 && !Text.IsWhitespace(s[0]) && !Text.IsWhitespace(s[|s| - 1])
    requires IgnoredCharacter !in s
    requires DigitValue(s[0], 16).None? && s[0] != '+' && s[0] != '-'
    ensures ConvertToInt(s) == None
  {
    ConvertPlain(s);
  }

  /** Test cases of util/math.rs: words are not numbers. */
  lemma ConvertToIntRejectsWords()
    ensures ConvertToInt("rumänien") == None
    ensures ConvertToInt("was geht?") == None
    ensures ConvertToInt("asdf") == None
  {
    RejectsRumaenien();
    RejectsQuestion();
    RejectsAsdf();
  }

  lemma RejectsRumaenien()
    ensures ConvertToInt("rumänien") == None
  {
    RejectsWord("rumänien");
  }

  lemma RejectsQuestion()
    ensures ConvertToInt("was geht?") == None
  {
    RejectsWord("was geht?");
  }

  lemma RejectsAsdf()
    ensures ConvertToInt("asdf") == None
  {
    ConvertPlain("asdf");
    assert FromStrRadix("asdf", 10) == None by {
      assert DigitValue("asdf"[0], 10).None?;
    }
  }
}
