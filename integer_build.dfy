// Model of the building side of compiler/data_types/integer.rs: typed and
// untyped integer literals (`Buildable::build`, `build_type`), the table of
// built integer types and `generate_integer`.

module IntegerBuild {
  import opened Wrappers
  import Text
  import IntegerConversion
  import opened IntegerTypes
  import opened Tokens
  import opened Objects
  import Diagnostics

  /** Whether a literal names `name` as its type by a suffix: it ends with
      the name and is longer than it (`ends_with` and a length that differs). */
  predicate HasTypeSuffix(text: string, name: string) {
    |text| > |name| && text[|text| - |name|..] == name
  }

  /** The text left for the number once a type suffix is stripped. */
  function Body(t: IntegerType, text: string): string {
    if HasTypeSuffix(text, CodeName(t)) then text[..|text| - |CodeName(t)|] else text
  }

  predicate InRange(t: IntegerType, v: int) {
    -(LowerBound(t) as int) <= v <= UpperBound(t)
  }

  function StandardError(t: IntegerType): ObjectBuildingError {
    ObjectBuildingError(DisplayName(t), CouldNotInfer(DisplayName(t)))
  }

  /** The range check of `IntegerType::build` on a decoded value. */
  function Checked(t: IntegerType, value: Option<int>, parent: ObjectType): BuildOutcome {
    if value.None? then BuildFailed(StandardError(t))
    else if value.value > UpperBound(t) then BuildFailed(UpperBoundError(t))
    else if value.value < -(LowerBound(t) as int) then BuildFailed(LowerBoundError(t))
    else Built(Object(parent.typeUuid, "", Some(value.value)))
  }

  function UpperBoundError(t: IntegerType): ObjectBuildingError {
    ObjectBuildingError(DisplayName(t), AboveUpperBound(DisplayName(t), UpperBound(t)))
  }

  /** The message names the upper bound, as the source's does. */
  function LowerBoundError(t: IntegerType): ObjectBuildingError {
    ObjectBuildingError(DisplayName(t), BelowLowerBound(DisplayName(t), UpperBound(t)))
  }

  /** `IntegerType::build` on the text of an unclassified token: a type
      suffix is stripped and makes the result explicit. */
  function BuildText(t: IntegerType, content: string, parent: ObjectType): BuildResult {
    BuildResult(Checked(t, IntegerConversion.ConvertToInt(Body(t, content)), parent),
                !HasTypeSuffix(content, CodeName(t)))
  }

  /** `IntegerType::build`: only a single unclassified token can be an
      integer; anything else fails ambiguously. What is built is an object
      of the parent type holding a value within the type's bounds. */
  function Build(t: IntegerType, tokens: seq<Token>, parent: ObjectType): (r: BuildResult)
    ensures !r.ambiguous ==> |tokens| == 1 && tokens[0].UnspecifiedString?
    ensures r.result.Built? ==>
      r.result.obj.typeUuid == parent.typeUuid && r.result.obj.initialContent.Some?
      && InRange(t, r.result.obj.initialContent.value)
  {
    if |tokens| != 1 || !tokens[0].UnspecifiedString? then BuildResult(BuildFailed(StandardError(t)), true)
    else BuildText(t, tokens[0].text, parent)
  }

  /** A build is explicit exactly when it gets one unclassified token that
      carries the type's suffix. */
  lemma BuildAmbiguity(t: IntegerType, tokens: seq<Token>, parent: ObjectType)
    ensures !Build(t, tokens, parent).ambiguous <==>
      |tokens| == 1 && tokens[0].UnspecifiedString? && HasTypeSuffix(tokens[0].text, CodeName(t))
  {
  }

  /** A build succeeds exactly when the suffix-free text decodes to a value
      within the type's bounds, and the object then holds that value under
      the parent's type uuid. */
  lemma BuildSucceeds(t: IntegerType, tokens: seq<Token>, parent: ObjectType)
    ensures Build(t, tokens, parent).result.Built? <==>
      |tokens| == 1 && tokens[0].UnspecifiedString?
      && IntegerConversion.ConvertToInt(Body(t, tokens[0].text)).Some?
      && InRange(t, IntegerConversion.ConvertToInt(Body(t, tokens[0].text)).value)
    ensures Build(t, tokens, parent).result.Built? ==>
      Build(t, tokens, parent).result.obj
        == Object(parent.typeUuid, "", IntegerConversion.ConvertToInt(Body(t, tokens[0].text)))
  {
    if |tokens| == 1 && tokens[0].UnspecifiedString? {
      CheckedSucceeds(t, IntegerConversion.ConvertToInt(Body(t, tokens[0].text)), parent);
    }
  }

  /** A successful build always records its value. */
  lemma BuildHasValue(t: IntegerType, tokens: seq<Token>, parent: ObjectType)
    ensures Build(t, tokens, parent).result.Built? ==> Build(t, tokens, parent).result.obj.initialContent.Some?
  {
    if |tokens| == 1 && tokens[0].UnspecifiedString? {
      CheckedSucceeds(t, IntegerConversion.ConvertToInt(Body(t, tokens[0].text)), parent);
    }
  }

  /** The range check passes exactly for a decoded value within bounds, and
      then keeps that value. */
  lemma CheckedSucceeds(t: IntegerType, value: Option<int>, parent: ObjectType)
    ensures Checked(t, value, parent).Built? <==> value.Some? && InRange(t, value.value)
    ensures Checked(t, value, parent).Built? ==> Checked(t, value, parent).obj == Object(parent.typeUuid, "", value)
  {
  }

  /** Round trip: a value of the type written in decimal and followed by the
      type's code name builds explicitly to that value. */
  lemma {:induction false} BuildSuffixed(t: IntegerType, v: int, pos: TokenPosition, parent: ObjectType)
    requires InRange(t, v)
    ensures Build(t, [UnspecifiedString(Text.IntToString(v) + CodeName(t), pos)], parent)
      == BuildResult(Built(Object(parent.typeUuid, "", Some(v))), false)
  {
    var digits := Text.IntToString(v);
    IntegerConversion.DecimalRoundTrip(v);
    SuffixedText(t, digits);
    BuildTextDecoded(t, digits + CodeName(t), v, pos, parent);
  }

  /** The same value written without suffix builds to the same object, but
      only ambiguously. */
  lemma {:induction false} BuildUnsuffixed(t: IntegerType, v: int, pos: TokenPosition, parent: ObjectType)
    requires InRange(t, v)
    ensures Build(t, [UnspecifiedString(Text.IntToString(v), pos)], parent)
      == BuildResult(Built(Object(parent.typeUuid, "", Some(v))), true)
  {
    var text := Text.IntToString(v);
    NoSuffixOnNumber(v, CodeName(t));
    IntegerConversion.DecimalRoundTrip(v);
    UnsuffixedBody(t, text);
    BuildTextDecoded(t, text, v, pos, parent);
  }

  lemma UnsuffixedBody(t: IntegerType, text: string)
    requires !HasTypeSuffix(text, CodeName(t))
    ensures Body(t, text) == text
  {
  }

  /** A single token whose suffix-free text decodes within the bounds
      builds to that value, explicitly exactly when it carries the suffix. */
  lemma BuildTextDecoded(t: IntegerType, text: string, v: int, pos: TokenPosition, parent: ObjectType)
    requires IntegerConversion.ConvertToInt(Body(t, text)) == Some(v) && InRange(t, v)
    ensures Build(t, [UnspecifiedString(text, pos)], parent)
      == BuildResult(Built(Object(parent.typeUuid, "", Some(v))), !HasTypeSuffix(text, CodeName(t)))
  {
    CheckedSucceeds(t, Some(v), parent);
  }

  /** A decimal number never ends in a code name: those end in `8`, `16` or
      `32` preceded by the letter `u` or `i`, and a number has no letters. */
  lemma NoSuffixOnNumber(v: int, name: string)
    requires |name| >= 2 && (name[0] == 'u' || name[0] == 'i')
    ensures !HasTypeSuffix(Text.IntToString(v), name)
  {
    var s := Text.IntToString(v);
    if |s| > |name| {
      var k := |s| - |name|;
      assert s[k] == '-' || '0' <= s[k] <= '9' by {
        if v < 0 && k > 0 {
          assert s[k] == Text.NatToString(-v)[k - 1];
        }
      }
      assert s[k..][0] != name[0];
    }
  }

  /** `build_type`: a type named by its code name, with the arithmetic,
      value, integer and size traits, under a fresh uuid. */
  function BuildType(t: IntegerType, uuid: Uuid): (r: ObjectType)
    ensures r.name == CodeName(t) && r.typeUuid == uuid && |r.traits| == 4
  {
    var typ := NewObjectType(CodeName(t), uuid);
    var typ := AddTrait(typ, ArithmeticCompatible);
    var typ := AddTrait(typ, ValueType);
    var typ := AddTrait(typ, Integer);
    AddComplexTrait(typ, Sized, [Text.NatToString(MemorySize(t))])
  }

  /** The traits of a built integer type, in the order they are added. */
  lemma BuildTypeTraitList(t: IntegerType, uuid: Uuid)
    ensures BuildType(t, uuid).name == CodeName(t) && BuildType(t, uuid).typeUuid == uuid
    ensures BuildType(t, uuid).traits == [Trait(ArithmeticCompatible), Trait(ValueType), Trait(Integer),
                                         Trait(Sized + Text.NatToString(MemorySize(t)))]
  {
    var size := Text.NatToString(MemorySize(t));
    assert Text.Join([size], ':') == size;
  }

  /** What a built integer type answers to trait queries: it is arithmetic,
      a value and an integer, not a boolean, and `sized:` reads back its
      memory size. */
  lemma BuildTypeTraits(t: IntegerType, uuid: Uuid)
    ensures HasTrait(BuildType(t, uuid), ArithmeticCompatible)
    ensures HasTrait(BuildType(t, uuid), ValueType)
    ensures HasTrait(BuildType(t, uuid), Integer)
    ensures !HasTrait(BuildType(t, uuid), BooleanCompatible)
    ensures GetTrait(BuildType(t, uuid), Sized) == Some([Text.NatToString(MemorySize(t))])
  {
    BuildTypeTraitList(t, uuid);
    IntegerTraitLookups(BuildType(t, uuid).traits, Text.NatToString(MemorySize(t)));
  }

  lemma IntegerTraitLookups(traits: seq<Trait>, size: string)
    requires traits == [Trait(ArithmeticCompatible), Trait(ValueType), Trait(Integer), Trait(Sized + size)]
    requires ':' !in size
    ensures GetTraitIn(traits, ArithmeticCompatible).Some?
    ensures GetTraitIn(traits, ValueType).Some?
    ensures GetTraitIn(traits, Integer).Some?
    ensures GetTraitIn(traits, BooleanCompatible).None?
    ensures GetTraitIn(traits, Sized) == Some([size])
  {
    var names := [traits[0].name, traits[1].name, traits[2].name, traits[3].name];
    assert names[0][0] == 'a' && names[1][0] == 'd' && names[2][0] == 'i' && names[3][0] == 's';
    FlagLookups(traits);
    SizedLookup(traits, size);
  }

  lemma FlagLookups(traits: seq<Trait>)
    requires |traits| == 4
    requires traits[0].name == ArithmeticCompatible && traits[1].name == ValueType && traits[2].name == Integer
    requires |traits[3].name| > 0 && traits[3].name[0] == 's'
    ensures GetTraitIn(traits, ArithmeticCompatible).Some?
    ensures GetTraitIn(traits, ValueType).Some?
    ensures GetTraitIn(traits, Integer).Some?
    ensures GetTraitIn(traits, BooleanCompatible).None?
  {
    assert Matches(traits, 0, ArithmeticCompatible);
    assert Matches(traits, 1, ValueType);
    assert Matches(traits, 2, Integer);
    forall j | 0 <= j < |traits|
      ensures !Matches(traits, j, BooleanCompatible)
    {
      assert traits[j].name[0] != BooleanCompatible[0];
    }
  }

  lemma SizedLookup(traits: seq<Trait>, size: string)
    requires |traits| == 4 && traits[3] == Trait(Sized + size)
    requires |traits[0].name| > 0 && |traits[1].name| > 0 && |traits[2].name| > 0
    requires traits[0].name[0] == 'a' && traits[1].name[0] == 'd' && traits[2].name[0] == 'i'
    requires ':' !in size
    ensures GetTraitIn(traits, Sized) == Some([size])
  {
    GetTraitAt(traits, Sized, 3);
    assert traits[3].name[|Sized|..] == size;
    assert Text.Join([size], ':') == size;
    Text.SplitJoin([size], ':');
  }

  /** The kinds `build_integer_types` builds, in its order. */
  const BuiltKinds: seq<IntegerType> := [
    Unsigned32BitInteger, Signed32BitInteger,
    Unsigned16BitInteger, Signed16BitInteger,
    Unsigned8BitInteger, Signed8BitInteger
  ]

  /** The table `build_integer_types` returns when its fresh uuids are
      `firstUuid`, `firstUuid + 1`, ... */
  function IntegerTypeTable(firstUuid: Uuid): seq<(IntegerType, ObjectType)> {
    seq(|BuiltKinds|, i requires 0 <= i < |BuiltKinds| => (BuiltKinds[i], BuildType(BuiltKinds[i], firstUuid + i)))
  }

  /** `build_integer_types`: builds one object type per kind, in order. */
  method BuildIntegerTypes(firstUuid: Uuid) returns (types: seq<(IntegerType, ObjectType)>, nextUuid: Uuid)
    ensures types == IntegerTypeTable(firstUuid)
    ensures nextUuid == firstUuid + |types|
  {
    types := [];
    nextUuid := firstUuid;
    for i := 0 to |BuiltKinds|
      invariant types == IntegerTypeTable(firstUuid)[..i]
      invariant nextUuid == firstUuid + i
    {
      var objectType := BuildType(BuiltKinds[i], nextUuid);
      types := types + [(BuiltKinds[i], objectType)];
      nextUuid := nextUuid + 1;
    }
  }

  /** Each entry of the table pairs a kind with the type named after it
      and holds the next fresh uuid; `Address` is not among the kinds. */
  lemma IntegerTypeTableEntries(firstUuid: Uuid)
    ensures |IntegerTypeTable(firstUuid)| == 6
    ensures forall i :: 0 <= i < 6 ==>
      IntegerTypeTable(firstUuid)[i].0 == BuiltKinds[i] != Address
      && IntegerTypeTable(firstUuid)[i].1.name == CodeName(BuiltKinds[i])
      && IntegerTypeTable(firstUuid)[i].1.typeUuid == firstUuid + i
  {
    forall i | 0 <= i < 6
      ensures BuildType(BuiltKinds[i], firstUuid + i).name == CodeName(BuiltKinds[i])
      ensures BuildType(BuiltKinds[i], firstUuid + i).typeUuid == firstUuid + i
    {
      BuildTypeTraitList(BuiltKinds[i], firstUuid + i);
    }
  }

  /** The kinds of the table have pairwise distinct names, so a type name
      picks out one entry. */
  lemma BuiltKindNamesDistinct()
    ensures forall i, j :: 0 <= i < j < |BuiltKinds| ==> CodeName(BuiltKinds[i]) != CodeName(BuiltKinds[j])
  {
    var names := ["u32", "i32", "u16", "i16", "u8", "i8"];
    assert forall i :: 0 <= i < 6 ==> CodeName(BuiltKinds[i]) == names[i];
    forall i, j | 0 <= i < j < 6
      ensures names[i] != names[j]
    {
      if |names[i]| == |names[j]| {
        assert names[i][0] != names[j][0] || names[i][1] != names[j][1];
      }
    }
  }

  /** Where the search loop of `generate_integer` ends: at the first
      explicit success, at the first explicit failure, or after all types. */
  datatype SearchOutcome = Found(value: int, kind: IntegerType) | Stopped(error: ObjectBuildingError) | Exhausted

  /** The build result of every type on the token, in table order. */
  function Attempts(types: seq<(IntegerType, ObjectType)>, token: Token): (r: seq<BuildResult>)
    ensures |r| == |types|
  {
    seq(|types|, i requires 0 <= i < |types| => Build(types[i].0, [token], types[i].1))
  }

  /** The decisions of the search loop over given build results: a stop
      reports the error of an explicit failure, and running out means every
      result was passed over. */
  function Pick(types: seq<(IntegerType, ObjectType)>, results: seq<BuildResult>): (r: SearchOutcome)
    requires |results| == |types|
    ensures r.Stopped? ==>
      exists i :: 0 <= i < |results| && !results[i].ambiguous && results[i].result == BuildFailed(r.error)
    ensures r.Exhausted? ==> forall i :: 0 <= i < |results| ==> Skipped(results[i])
    decreases |types|
  {
    if |types| == 0 then Exhausted
    else if results[0].ambiguous then Pick(types[1..], results[1..])
    else if results[0].result.BuildFailed? then Stopped(results[0].result.error)
    else if results[0].result.obj.initialContent.Some? then
      Found(results[0].result.obj.initialContent.value, types[0].0)
    else Pick(types[1..], results[1..])
  }

  /** The search over the table: a typed value lies within the bounds of
      its type, which is one of the table's. */
  function Search(types: seq<(IntegerType, ObjectType)>, token: Token): (r: SearchOutcome)
    ensures r.Found? ==> InRange(r.kind, r.value) && exists i :: 0 <= i < |types| && types[i].0 == r.kind
  {
    PickFoundInRange(types, token);
    Pick(types, Attempts(types, token))
  }

  /** A value the search finds was built, so it lies within its type's
      bounds. */
  lemma PickFoundInRange(types: seq<(IntegerType, ObjectType)>, token: Token)
    ensures var r := Pick(types, Attempts(types, token));
      r.Found? ==> InRange(r.kind, r.value) && exists i :: 0 <= i < |types| && types[i].0 == r.kind
  {
    var results := Attempts(types, token);
    var r := Pick(types, results);
    if r.Found? {
      PickFound(types, results);
      var i :| 0 <= i < |types| && types[i].0 == r.kind
        && !results[i].ambiguous && results[i].result.Built?
        && results[i].result.obj.initialContent == Some(r.value)
        && forall j :: 0 <= j < i ==> Skipped(results[j]);
      assert results[i] == Build(types[i].0, [token], types[i].1);
    }
  }

  const IntegerErrorTitle: string := "Integer Couldn't Be Built"

  /** The entries the search leaves in the error log. */
  function SearchLog(s: SearchOutcome): seq<Diagnostics.Notification> {
    if s.Stopped? then [Diagnostics.Notification(IntegerErrorTitle, MessageText(s.error.message))] else []
  }

  /** What `generate_integer` returns and logs: the first explicit success
      with its type; otherwise the untyped value of the whole text, if any. */
  function IntegerOfToken(types: seq<(IntegerType, ObjectType)>, token: Token)
    : (r: (Option<(int, Option<IntegerType>)>, seq<Diagnostics.Notification>))
    requires RawText(token).Some?
    ensures r.0.Some? && r.0.value.1.Some? ==> InRange(r.0.value.1.value, r.0.value.0)
    ensures |r.1| <= 1
  {
    var s := Search(types, token);
    var log := SearchLog(s);
    var untyped := IntegerConversion.ConvertToInt(RawText(token).value);
    if s.Found? then (Some((s.value, Some(s.kind))), log)
    else if untyped.Some? then (Some((untyped.value, None)), log)
    else (None, log)
  }

  /** `generate_integer`: tries each type in order; an explicit failure is
      logged and ends the search. The token must carry text, because the
      fallback reads it. */
  method GenerateInteger(types: seq<(IntegerType, ObjectType)>, token: Token)
    returns (result: Option<(int, Option<IntegerType>)>, log: seq<Diagnostics.Notification>)
    requires RawText(token).Some?
    ensures (result, log) == IntegerOfToken(types, token)
  {
    ghost var results := Attempts(types, token);
    ghost var outcome := Search(types, token);
    log := [];
    var i := 0;
    var stopped := false;
    while i < |types|
      invariant 0 <= i <= |types|
      invariant !stopped && log == []
      invariant Pick(types[i..], results[i..]) == outcome
    {
      PickAt(types, results, i);
      var built := Build(types[i].0, [token], types[i].1);
      assert built == results[i];
      if built.ambiguous {
        i := i + 1;
        continue;
      }
      if built.result.BuildFailed? {
        log := log + [Diagnostics.Notification(IntegerErrorTitle, MessageText(built.result.error.message))];
        stopped := true;
        assert log == SearchLog(outcome);
        break;
      }
      if built.result.obj.initialContent.Some? {
        FoundIsTyped(types, token, built.result.obj.initialContent.value, types[i].0);
        return Some((built.result.obj.initialContent.value, Some(types[i].0))), log;
      }
      i := i + 1;
    }
    if !stopped {
      assert types[i..] == [];
      assert outcome == Exhausted;
    }
    var untyped := IntegerConversion.ConvertToInt(RawText(token).value);
    NotFoundFallsBack(types, token);
    if untyped.Some? {
      return Some((untyped.value, None)), log;
    }
    return None, log;
  }

  /** One step of the search, read at position `i` of the table. */
  lemma PickAt(types: seq<(IntegerType, ObjectType)>, results: seq<BuildResult>, i: int)
    requires |results| == |types| && 0 <= i < |types|
    ensures Pick(types[i..], results[i..]) ==
      if results[i].ambiguous then Pick(types[i + 1..], results[i + 1..])
      else if results[i].result.BuildFailed? then Stopped(results[i].result.error)
      else if results[i].result.obj.initialContent.Some? then
        Found(results[i].result.obj.initialContent.value, types[i].0)
      else Pick(types[i + 1..], results[i + 1..])
  {
    assert types[i..][1..] == types[i + 1..];
    assert results[i..][1..] == results[i + 1..];
  }

  /** Without a typed success, the result is the untyped value of the
      whole text, and the search's log is kept. */
  lemma NotFoundFallsBack(types: seq<(IntegerType, ObjectType)>, token: Token)
    requires RawText(token).Some? && !Search(types, token).Found?
    ensures IntegerOfToken(types, token).1 == SearchLog(Search(types, token))
    ensures IntegerOfToken(types, token).0 ==
      if IntegerConversion.ConvertToInt(RawText(token).value).Some?
      then Some((IntegerConversion.ConvertToInt(RawText(token).value).value, None)) else None
  {
  }

  /** A result the search passes over: ambiguous, or explicit but without
      a value. */
  predicate Skipped(r: BuildResult) {
    r.ambiguous || (r.result.Built? && r.result.obj.initialContent.None?)
  }

  /** A found value comes from the first explicit result, which was a
      success holding that value; every earlier result was ambiguous. */
  lemma {:induction false} PickFound(types: seq<(IntegerType, ObjectType)>, results: seq<BuildResult>)
    requires |results| == |types| && Pick(types, results).Found?
    ensures exists i :: (0 <= i < |types| && types[i].0 == Pick(types, results).kind
      && !results[i].ambiguous && results[i].result.Built?
      && results[i].result.obj.initialContent == Some(Pick(types, results).value)
      && forall j :: 0 <= j < i ==> Skipped(results[j]))
    decreases |types|
  {
    if results[0].ambiguous || results[0].result.obj.initialContent.None? {
      PickFound(types[1..], results[1..]);
      var i :| 0 <= i < |types[1..]| && types[1..][i].0 == Pick(types[1..], results[1..]).kind
        && !results[1..][i].ambiguous && results[1..][i].result.Built?
        && results[1..][i].result.obj.initialContent == Some(Pick(types[1..], results[1..]).value)
        && forall j :: 0 <= j < i ==> Skipped(results[1..][j]);
      assert forall j :: 1 <= j < i + 1 ==> results[j] == results[1..][j - 1];
      assert types[i + 1] == types[1..][i];
    }
  }

  /** Builds that the search passed over were ambiguous, since an explicit
      success always carries its value. */
  lemma SkippedAreAmbiguous(types: seq<(IntegerType, ObjectType)>, token: Token, i: int)
    requires 0 <= i <= |types|
    requires forall j :: 0 <= j < i ==> Skipped(Attempts(types, token)[j])
    ensures forall j :: 0 <= j < i ==> Build(types[j].0, [token], types[j].1).ambiguous
  {
    forall j | 0 <= j < i
      ensures Build(types[j].0, [token], types[j].1).ambiguous
    {
      assert Skipped(Attempts(types, token)[j]);
      BuildHasValue(types[j].0, [token], types[j].1);
    }
  }

  /** A typed result of `generate_integer` names the first type whose build
      was explicit; that build succeeded with exactly the returned value,
      and every type before it was ambiguous. */
  lemma SearchFound(types: seq<(IntegerType, ObjectType)>, token: Token)
    requires Search(types, token).Found?
    ensures exists i :: (0 <= i < |types| && types[i].0 == Search(types, token).kind
      && !Build(types[i].0, [token], types[i].1).ambiguous
      && Build(types[i].0, [token], types[i].1).result
         == Built(Object(types[i].1.typeUuid, "", Some(Search(types, token).value)))
      && forall j :: 0 <= j < i ==> Build(types[j].0, [token], types[j].1).ambiguous)
  {
    var results := Attempts(types, token);
    PickFound(types, results);
    var i :| 0 <= i < |types| && types[i].0 == Pick(types, results).kind
      && !results[i].ambiguous && results[i].result.Built?
      && results[i].result.obj.initialContent == Some(Pick(types, results).value)
      && forall j :: 0 <= j < i ==> Skipped(results[j]);
    var b := Build(types[i].0, [token], types[i].1);
    assert results[i] == b;
    BuildSucceeds(types[i].0, [token], types[i].1);
    assert b.result == Built(Object(types[i].1.typeUuid, "", Some(Search(types, token).value)));
    SkippedAreAmbiguous(types, token, i);
  }

  /** The error log holds one entry exactly when the search stopped at an
      explicit failure, and an untyped result is the plain decoding of the
      token's text. */
  lemma IntegerOfTokenCases(types: seq<(IntegerType, ObjectType)>, token: Token)
    requires RawText(token).Some?
    ensures |IntegerOfToken(types, token).1| == (if Search(types, token).Stopped? then 1 else 0)
    ensures Search(types, token).Found? ==>
      IntegerOfToken(types, token).0 == Some((Search(types, token).value, Some(Search(types, token).kind)))
    ensures !Search(types, token).Found? ==>
      (IntegerOfToken(types, token).0.Some? <==> IntegerConversion.ConvertToInt(RawText(token).value).Some?)
    ensures !Search(types, token).Found? && IntegerOfToken(types, token).0.Some? ==>
      IntegerOfToken(types, token).0.value == (IntegerConversion.ConvertToInt(RawText(token).value).value, None)
  {
  }

  /** The search passes over a prefix of ambiguous results. */
  lemma {:induction false} PickAfterAmbiguous(types: seq<(IntegerType, ObjectType)>, results: seq<BuildResult>, k: int)
    requires |results| == |types| && 0 <= k <= |types|
    requires forall j :: 0 <= j < k ==> results[j].ambiguous
    ensures Pick(types, results) == Pick(types[k..], results[k..])
    decreases k
  {
    if k > 0 {
      assert types[1..][k - 1..] == types[k..];
      assert results[1..][k - 1..] == results[k..];
      PickAfterAmbiguous(types[1..], results[1..], k - 1);
    }
  }

  /** A literal without type suffix is never typed: every build is
      ambiguous, so `generate_integer` decodes the whole text and logs
      nothing. */
  lemma UnsuffixedIsUntyped(types: seq<(IntegerType, ObjectType)>, text: string, pos: TokenPosition)
    requires forall k: IntegerType :: !HasTypeSuffix(text, CodeName(k))
    ensures IntegerOfToken(types, UnspecifiedString(text, pos)).1 == []
    ensures IntegerOfToken(types, UnspecifiedString(text, pos)).0
      == (var v := IntegerConversion.ConvertToInt(text); if v.Some? then Some((v.value, None)) else None)
  {
    UnsuffixedSearch(types, text, pos);
  }

  /** Without a type suffix every attempt is ambiguous, so the search runs
      through the whole table. */
  lemma UnsuffixedSearch(types: seq<(IntegerType, ObjectType)>, text: string, pos: TokenPosition)
    requires forall k: IntegerType :: !HasTypeSuffix(text, CodeName(k))
    ensures Search(types, UnspecifiedString(text, pos)) == Exhausted
  {
    var results := Attempts(types, UnspecifiedString(text, pos));
    forall j | 0 <= j < |types|
      ensures results[j].ambiguous
    {
      AttemptAmbiguity(types, text, pos, j);
    }
    PickAfterAmbiguous(types, results, |types|);
    assert types[|types|..] == [];
  }

  /** Decimal numbers carry no type suffix. */
  lemma DecimalUnsuffixed(v: int)
    ensures forall k: IntegerType :: !HasTypeSuffix(Text.IntToString(v), CodeName(k))
  {
    forall k: IntegerType
      ensures !HasTypeSuffix(Text.IntToString(v), CodeName(k))
    {
      NoSuffixOnNumber(v, CodeName(k));
    }
  }

  /** Two code names of built kinds are never both suffixes of one text,
      unless they are the same kind. */
  lemma SuffixDeterminesKind(text: string, t: IntegerType, k: IntegerType)
    requires t in BuiltKinds && k in BuiltKinds
    requires HasTypeSuffix(text, CodeName(t)) && HasTypeSuffix(text, CodeName(k))
    ensures t == k
  {
    var a := CodeName(t);
    var b := CodeName(k);
    var n := |text|;
    assert a[|a| - 1] == text[n - 1] == b[|b| - 1];
    assert a[|a| - 2] == text[n - 2] == b[|b| - 2];
    assert |a| == 3 && |b| == 3 ==> a[0] == text[n - 3] == b[0];
  }

  /** Kinds before the one a text names by suffix do not match it. */
  /** An attempt on one unclassified token is ambiguous exactly when the
      token lacks that attempt's type suffix. */
  lemma AttemptAmbiguity(types: seq<(IntegerType, ObjectType)>, text: string, pos: TokenPosition, j: int)
    requires 0 <= j < |types|
    ensures Attempts(types, UnspecifiedString(text, pos))[j].ambiguous
      == !HasTypeSuffix(text, CodeName(types[j].0))
  {
  }

  lemma EarlierKindsUnsuffixed(text: string, k: int)
    requires 0 <= k < |BuiltKinds| && HasTypeSuffix(text, CodeName(BuiltKinds[k]))
    ensures forall j :: 0 <= j < k ==> !HasTypeSuffix(text, CodeName(BuiltKinds[j]))
  {
    forall j | 0 <= j < k
      ensures !HasTypeSuffix(text, CodeName(BuiltKinds[j]))
    {
      if HasTypeSuffix(text, CodeName(BuiltKinds[j])) {
        SuffixDeterminesKind(text, BuiltKinds[k], BuiltKinds[j]);
      }
    }
  }

  /** A found search decides the result on its own and logs nothing. */
  lemma FoundIsTyped(types: seq<(IntegerType, ObjectType)>, token: Token, v: int, t: IntegerType)
    requires RawText(token).Some? && Search(types, token) == Found(v, t)
    ensures IntegerOfToken(types, token) == (Some((v, Some(t))), [])
  {
  }

  /** Over any table: when the first kind whose suffix the text carries
      decodes the rest within its bounds, the search finds that kind. */
  lemma SearchFindsSuffixed(types: seq<(IntegerType, ObjectType)>, text: string, pos: TokenPosition, k: int, v: int)
    requires 0 <= k < |types|
    requires forall j :: 0 <= j < k ==> !HasTypeSuffix(text, CodeName(types[j].0))
    requires HasTypeSuffix(text, CodeName(types[k].0))
    requires IntegerConversion.ConvertToInt(Body(types[k].0, text)) == Some(v) && InRange(types[k].0, v)
    ensures Search(types, UnspecifiedString(text, pos)) == Found(v, types[k].0)
  {
    var results := Attempts(types, UnspecifiedString(text, pos));
    forall j | 0 <= j < k
      ensures results[j].ambiguous
    {
      AttemptAmbiguity(types, text, pos, j);
    }
    PickAfterAmbiguous(types, results, k);
    CheckedSucceeds(types[k].0, Some(v), types[k].1);
    assert results[k] == BuildText(types[k].0, text, types[k].1);
    assert Pick(types[k..], results[k..]) == Found(v, types[k].0);
  }

  /** A decodable body followed by a code name carries that suffix, and
      stripping it gives the body back. */
  lemma SuffixedText(t: IntegerType, body: string)
    requires IntegerConversion.ConvertToInt(body).Some?
    ensures HasTypeSuffix(body + CodeName(t), CodeName(t))
    ensures Body(t, body + CodeName(t)) == body
  {
    var text := body + CodeName(t);
    assert |IntegerConversion.Cleaned(body)| > 0;
    assert text[|text| - |CodeName(t)|..] == CodeName(t);
  }

  /** A literal whose text ends in the code name of a table kind and whose
      remaining text decodes within that kind's bounds is typed with that
      kind, and nothing is logged (no earlier kind's name is a suffix of
      it); this holds for every table that lists the kinds in the order
      `build_integer_types` does. */
  lemma SuffixedIsTyped(types: seq<(IntegerType, ObjectType)>, k: nat, text: string, v: int, pos: TokenPosition)
    requires |types| == |BuiltKinds| && forall i :: 0 <= i < |types| ==> types[i].0 == BuiltKinds[i]
    requires k < |BuiltKinds| && HasTypeSuffix(text, CodeName(BuiltKinds[k]))
    requires IntegerConversion.ConvertToInt(Body(BuiltKinds[k], text)) == Some(v) && InRange(BuiltKinds[k], v)
    ensures IntegerOfToken(types, UnspecifiedString(text, pos)) == (Some((v, Some(BuiltKinds[k]))), [])
  {
    SearchFindsBuiltKind(types, k, text, v, pos);
    FoundIsTyped(types, UnspecifiedString(text, pos), v, BuiltKinds[k]);
  }

  lemma SearchFindsBuiltKind(types: seq<(IntegerType, ObjectType)>, k: nat, text: string, v: int, pos: TokenPosition)
    requires |types| == |BuiltKinds| && forall i :: 0 <= i < |types| ==> types[i].0 == BuiltKinds[i]
    requires k < |BuiltKinds| && HasTypeSuffix(text, CodeName(BuiltKinds[k]))
    requires IntegerConversion.ConvertToInt(Body(BuiltKinds[k], text)) == Some(v) && InRange(BuiltKinds[k], v)
    ensures Search(types, UnspecifiedString(text, pos)) == Found(v, BuiltKinds[k])
  {
    EarlierKindsUnsuffixed(text, k);
    SearchFindsSuffixed(types, text, pos, k, v);
  }

  /** The table `build_integer_types` builds lists the kinds in order. */
  lemma TableKinds(firstUuid: Uuid)
    ensures |IntegerTypeTable(firstUuid)| == |BuiltKinds|
    ensures forall i :: 0 <= i < |BuiltKinds| ==> IntegerTypeTable(firstUuid)[i].0 == BuiltKinds[i]
  {
  }
}
