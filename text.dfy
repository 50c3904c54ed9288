/** String helpers with the semantics of the Rust standard library calls the
    compiler makes on `str`: `trim`, `replace`, `strip_prefix`, `ends_with`,
    `split(':')`, `join(":")` and integer `to_string`. */
module Text {

  /** `char::is_whitespace`: the Unicode White_Space property. */
  const Whitespace: set<char> := {
    '\t', '\n', '\U{B}', '\U{C}', '\r', ' ', '\U{85}', '\U{A0}', '\U{1680}',
    '\U{2000}', '\U{2001}', '\U{2002}', '\U{2003}', '\U{2004}', '\U{2005}', '\U{2006}',
    '\U{2007}', '\U{2008}', '\U{2009}', '\U{200A}',
    '\U{2028}', '\U{2029}', '\U{202F}', '\U{205F}', '\U{3000}'
  }

  predicate IsWhitespace(c: char) {
    c in Whitespace
  }

  /** The text has no leading and no trailing whitespace. */
  predicate IsTrimmed(s: string) {
    |s| == 0 || (!IsWhitespace(s[0]) && !IsWhitespace(s[|s| - 1]))
  }

  /** `str::trim_start`. */
  function TrimStart(s: string): (r: string)
    ensures |r| <= |s| && r == s[|s| - |r|..]
    ensures |r| > 0 ==> !IsWhitespace(r[0])
    ensures forall i :: 0 <= i < |s| - |r| ==> IsWhitespace(s[i])
  {
    if |s| > 0 && IsWhitespace(s[0]) then TrimStart(s[1..]) else s
  }

  /** `str::trim_end`. */
  function TrimEnd(s: string): (r: string)
    ensures |r| <= |s| && r == s[..|r|]
    ensures |r| > 0 ==> !IsWhitespace(r[|r| - 1])
    ensures forall i :: |r| <= i < |s| ==> IsWhitespace(s[i])
  {
    if |s| > 0 && IsWhitespace(s[|s| - 1]) then TrimEnd(s[..|s| - 1]) else s
  }

  /** `str::trim`: the text without its leading and trailing whitespace. */
  function Trim(s: string): (r: string)
    ensures IsTrimmed(r)
    ensures |r| <= |s|
  {
    var a := TrimStart(s);
    var r := TrimEnd(a);
    assert |r| > 0 ==> r[0] == a[0];
    r
  }

  /** `Trim` keeps one contiguous slice of its input and cuts off only
      whitespace on either side of it. */
  lemma TrimIsSlice(s: string)
    ensures var k := |s| - |TrimStart(s)|; var r := Trim(s);
      k + |r| <= |s| && r == s[k..k + |r|]
      && (forall i :: 0 <= i < k ==> IsWhitespace(s[i]))
      && (forall i :: k + |r| <= i < |s| ==> IsWhitespace(s[i]))
  {
    var a := TrimStart(s);
    var r := TrimEnd(a);
    var k := |s| - |a|;
    assert a == s[k..];
    assert r == a[..|r|];
    forall i | k + |r| <= i < |s|
      ensures IsWhitespace(s[i])
    {
      assert s[i] == a[i - k];
    }
  }

  lemma {:induction false} TrimStartOfTrimmed(s: string)
    requires |s| == 0 || !IsWhitespace(s[0])
    ensures TrimStart(s) == s
  {
  }

  /** Trimming text that is already trimmed changes nothing. */
  lemma TrimOfTrimmed(s: string)
    requires IsTrimmed(s)
    ensures Trim(s) == s
  {
    TrimStartOfTrimmed(s);
  }

  /** Whitespace in front of the text does not change the result of `Trim`. */
  lemma {:induction false} TrimSkipsLeadingWhitespace(w: string, s: string)
    requires forall i :: 0 <= i < |w| ==> IsWhitespace(w[i])
    ensures Trim(w + s) == Trim(s)
  {
    if |w| > 0 {
      assert (w + s)[1..] == w[1..] + s;
      assert TrimStart(w + s) == TrimStart(w[1..] + s);
      TrimSkipsLeadingWhitespace(w[1..], s);
    } else {
      assert w + s == s;
    }
  }

  /** Whitespace after the text does not change the result of `TrimEnd`. */
  lemma {:induction false} TrimEndSkipsTrailingWhitespace(s: string, w: string)
    requires forall i :: 0 <= i < |w| ==> IsWhitespace(w[i])
    ensures TrimEnd(s + w) == TrimEnd(s)
  {
    if |w| > 0 {
      assert (s + w)[..|s + w| - 1] == s + w[..|w| - 1];
      assert TrimEnd(s + w) == TrimEnd(s + w[..|w| - 1]);
      TrimEndSkipsTrailingWhitespace(s, w[..|w| - 1]);
    } else {
      assert s + w == s;
    }
  }

  /** Whitespace after the text does not change the result of `TrimStart`
      followed by `TrimEnd`. */
  lemma {:induction false} TrimSkipsTrailingWhitespace(s: string, w: string)
    requires forall i :: 0 <= i < |w| ==> IsWhitespace(w[i])
    ensures Trim(s + w) == Trim(s)
  {
    if |s| > 0 && IsWhitespace(s[0]) {
      assert (s + w)[1..] == s[1..] + w;
      TrimSkipsTrailingWhitespace(s[1..], w);
    } else if |s| == 0 {
      assert s + w == w;
      TrimSkipsLeadingWhitespace(w, "");
      assert w + "" == w;
    } else {
      TrimEndSkipsTrailingWhitespace(s, w);
    }
  }

  /** `str::replace(pat, rep)`: every non-overlapping occurrence of `pat`,
      found from left to right, is replaced by `rep`. */
  function Replace(s: string, pat: string, rep: string): string
    requires |pat| > 0
    decreases |s|
  {
    if |s| < |pat| then s
    else if s[..|pat|] == pat then rep + Replace(s[|pat|..], pat, rep)
    else [s[0]] + Replace(s[1..], pat, rep)
  }

  /** Text that never contains the first character of `pat` is left alone. */
  lemma {:induction false} ReplaceAbsent(s: string, pat: string, rep: string)
    requires |pat| > 0 && pat[0] !in s
    ensures Replace(s, pat, rep) == s
  {
    if |s| >= |pat| {
      assert s[..|pat|][0] == s[0];
      ReplaceAbsent(s[1..], pat, rep);
    }
  }

  /** A leading occurrence of the pattern is replaced and the rest follows. */
  lemma ReplaceFront(pat: string, s: string, rep: string)
    requires |pat| > 0
    ensures Replace(pat + s, pat, rep) == rep + Replace(s, pat, rep)
  {
    assert (pat + s)[..|pat|] == pat;
    assert (pat + s)[|pat|..] == s;
  }

  /** Text free of the pattern's first character is copied unchanged and
      the replacement goes on after it. */
  lemma {:induction false} ReplaceAbsentPrefix(s: string, t: string, pat: string, rep: string)
    requires |pat| > 0 && pat[0] !in s
    ensures Replace(s + t, pat, rep) == s + Replace(t, pat, rep)
  {
    if |s| > 0 {
      if |s + t| >= |pat| {
        assert (s + t)[..|pat|][0] == s[0];
      }
      assert (s + t)[1..] == s[1..] + t;
      ReplaceAbsentPrefix(s[1..], t, pat, rep);
    } else {
      assert s + t == t;
    }
  }

  /** Removes every occurrence of `c`, as `str::replace(c, "")` does. */
  function Without(s: string, c: char): (r: string)
    ensures c !in r
    ensures |r| <= |s|
  {
    if |s| == 0 then []
    else if s[0] == c then Without(s[1..], c)
    else [s[0]] + Without(s[1..], c)
  }

  lemma {:induction false} WithoutAbsent(s: string, c: char)
    requires c !in s
    ensures Without(s, c) == s
  {
    if |s| > 0 {
      WithoutAbsent(s[1..], c);
    }
  }

  lemma {:induction false} WithoutAppend(a: string, b: string, c: char)
    ensures Without(a + b, c) == Without(a, c) + Without(b, c)
  {
    if |a| > 0 {
      assert (a + b)[1..] == a[1..] + b;
      WithoutAppend(a[1..], b, c);
    } else {
      assert a + b == b;
    }
  }

  /** `str::split(sep)` for a one-character separator: `n` separators give
      `n + 1` pieces, none of which contains the separator. */
  function Split(s: string, sep: char): (r: seq<string>)
    ensures |r| >= 1
    ensures forall i :: 0 <= i < |r| ==> sep !in r[i]
    decreases |s|
  {
    if |s| == 0 then [[]]
    else
      var rest := Split(s[1..], sep);
      if s[0] == sep then [[]] + rest
      else [[s[0]] + rest[0]] + rest[1..]
  }

  /** `[String]::join(sep)`. */
  function Join(parts: seq<string>, sep: char): string
  {
    if |parts| == 0 then []
    else if |parts| == 1 then parts[0]
    else parts[0] + [sep] + Join(parts[1..], sep)
  }

  /** Splitting a piece that has no separator in front of a rest glues the piece
      to the first part of the rest. */
  lemma {:induction false} SplitPrefix(a: string, b: string, sep: char)
    requires sep !in a
    ensures Split(a + b, sep) == [a + Split(b, sep)[0]] + Split(b, sep)[1..]
  {
    if |a| > 0 {
      assert (a + b)[0] == a[0];
      assert (a + b)[1..] == a[1..] + b;
      SplitPrefix(a[1..], b, sep);
      var r := Split(b, sep);
      assert [a[0]] + (a[1..] + r[0]) == a + r[0];
    } else {
      var r := Split(b, sep);
      assert a + b == b;
      assert a + r[0] == r[0];
      assert r == [r[0]] + r[1..];
    }
  }

  /** `split` undoes `join` when no part contains the separator. */
  lemma {:induction false} SplitJoin(parts: seq<string>, sep: char)
    requires |parts| >= 1
    requires forall i :: 0 <= i < |parts| ==> sep !in parts[i]
    ensures Split(Join(parts, sep), sep) == parts
  {
    if |parts| == 1 {
      SplitPrefix(parts[0], "", sep);
      assert parts[0] + "" == parts[0];
    } else {
      var rest := Join(parts[1..], sep);
      SplitJoin(parts[1..], sep);
      assert Join(parts, sep) == parts[0] + ([sep] + rest);
      SplitPrefix(parts[0], [sep] + rest, sep);
      assert ([sep] + rest)[1..] == rest;
      assert Split([sep] + rest, sep) == [[]] + parts[1..];
      assert parts[0] + [] == parts[0];
      assert parts == [parts[0]] + parts[1..];
    }
  }

  /** `join` undoes `split`. */
  lemma {:induction false} JoinSplit(s: string, sep: char)
    ensures Join(Split(s, sep), sep) == s
    decreases |s|
  {
    if |s| > 0 {
      var rest := Split(s[1..], sep);
      JoinSplit(s[1..], sep);
      if s[0] == sep {
        assert ([[]] + rest)[1..] == rest;
      } else if |rest| > 1 {
        var r := [[s[0]] + rest[0]] + rest[1..];
        assert r[1..] == rest[1..];
        assert Join(rest, sep) == rest[0] + [sep] + Join(rest[1..], sep);
      }
      assert s == [s[0]] + s[1..];
    }
  }

  function DigitChar(d: nat): char
    requires d < 10
  {
    ['0', '1', '2', '3', '4', '5', '6', '7', '8', '9'][d]
  }

  /** Decimal rendering of a natural number, as Rust's `to_string`. */
  function NatToString(n: nat): (r: string)
    ensures |r| >= 1
    ensures forall i :: 0 <= i < |r| ==> '0' <= r[i] <= '9'
    ensures |r| > 1 ==> r[0] != '0'
  {
    if n < 10 then [DigitChar(n)]
    else NatToString(n / 10) + [DigitChar(n % 10)]
  }

  /** Decimal rendering of an integer, with a leading `-` when negative. */
  function IntToString(i: int): (r: string)
    ensures |r| >= 1
    ensures (i < 0) <==> r[0] == '-'
  {
    if i < 0 then "-" + NatToString(-i) else NatToString(i)
  }

  /** Distinct numbers render differently. */
  lemma {:induction false} NatToStringInjective(m: nat, n: nat)
    requires NatToString(m) == NatToString(n)
    ensures m == n
  {
    if m >= 10 && n >= 10 {
      var a := NatToString(m);
      assert a[|a| - 1] == DigitChar(m % 10) == DigitChar(n % 10);
      assert a[..|a| - 1] == NatToString(m / 10) == NatToString(n / 10);
      NatToStringInjective(m / 10, n / 10);
    }
  }
}
