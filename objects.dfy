// Model of compiler/data_types/object.rs (objects, object types and their
// traits) together with the build result types of
// compiler/data_types/data_types.rs.

module Objects {
  import opened Wrappers
  import Text

  /** Identifiers of object types and of IR objects; the source draws them
      at random, the model takes them from a counter. */
  type Uuid = nat

  /** `Object`: an instance of an object type, with its constant value when
      it came from a literal. */
  datatype Object = Object(typeUuid: Uuid, name: string, initialContent: Option<int>)

  datatype Trait = Trait(name: string)

  /** `ObjectType`: a named type and the traits that say what it can do. */
  datatype ObjectType = ObjectType(name: string, traits: seq<Trait>, typeUuid: Uuid)

  // The trait names of `Trait`.
  const ArithmeticCompatible: string := "arithmetic"
  const ValueType: string := "direct_value"
  const BooleanCompatible: string := "boolean"
  const ReferenceType: string := "reference:"
  const Sized: string := "sized:"
  const Integer: string := "integer"

  /** The messages the builders produce, kept structured until they are
      shown. */
  datatype BuildMessage =
    | CouldNotInfer(typeName: string)
    | AboveUpperBound(typeName: string, bound: nat)
    | BelowLowerBound(typeName: string, bound: nat)

  /** The text of a build message. */
  function MessageText(m: BuildMessage): string {
    match m
    case CouldNotInfer(n) => "Couldn't infer an " + n + " from this"
    case AboveUpperBound(n, b) =>
      "Couldn't infer an " + n + " from this because the upper bound of " + Text.NatToString(b) + " was exceeded."
    case BelowLowerBound(n, b) =>
      "Couldn't infer an " + n + " from this because the value was lower than the lower bound of " + Text.NatToString(b) + " ."
  }

  /** `ObjectBuildingError`: the type that should have been built and why
      it could not be. */
  datatype ObjectBuildingError = ObjectBuildingError(expectedObject: string, message: BuildMessage)

  datatype BuildOutcome = Built(obj: Object) | BuildFailed(error: ObjectBuildingError)

  /** `BuildResult`: a build outcome and whether the text only possibly
      (ambiguous) or certainly (explicit) asked for this type. */
  datatype BuildResult = BuildResult(result: BuildOutcome, ambiguous: bool)

  /** `ObjectType::new`. */
  function NewObjectType(name: string, typeUuid: Uuid): (r: ObjectType)
    ensures r.name == name && r.typeUuid == typeUuid && r.traits == []
  {
    ObjectType(name, [], typeUuid)
  }

  /** `add_trait`: one trait is appended, everything else stays. */
  function AddTrait(t: ObjectType, traitName: string): (r: ObjectType)
    ensures r.name == t.name && r.typeUuid == t.typeUuid
    ensures |r.traits| == |t.traits| + 1
    ensures r.traits[..|t.traits|] == t.traits && r.traits[|t.traits|].name == traitName
  {
    t.(traits := t.traits + [Trait(traitName)])
  }

  /** `add_complex_trait`: the prefix directly followed by the arguments
      joined with `:`. */
  function AddComplexTrait(t: ObjectType, prefix: string, args: seq<string>): (r: ObjectType)
    ensures r.name == t.name && r.typeUuid == t.typeUuid
    ensures |r.traits| == |t.traits| + 1 && r.traits[..|t.traits|] == t.traits
    ensures prefix <= r.traits[|t.traits|].name
    ensures |args| >= 1 && (forall i :: 0 <= i < |args| ==> ':' !in args[i]) ==>
      Arguments(r.traits[|t.traits|].name, prefix) == args
  {
    var name := prefix + Text.Join(args, ':');
    assert name[|prefix|..] == Text.Join(args, ':');
    if |args| >= 1 && (forall i :: 0 <= i < |args| ==> ':' !in args[i]) then
      Text.SplitJoin(args, ':');
      AddTrait(t, name)
    else
      AddTrait(t, name)
  }

  /** Whether `q` is a prefix of trait number `i`. */
  predicate Matches(traits: seq<Trait>, i: int, q: string)
    requires 0 <= i < |traits|
  {
    q <= traits[i].name
  }

  /** The arguments of a trait found under the prefix `q`. */
  function Arguments(traitName: string, q: string): seq<string>
    requires q <= traitName
  {
    Text.Split(traitName[|q|..], ':')
  }

  /** The search loop of `get_trait` over a list of traits: the first trait
      that starts with `q` decides, and `None` means that none does. */
  function GetTraitIn(traits: seq<Trait>, q: string): (r: Option<seq<string>>)
    ensures r.None? <==> forall i :: 0 <= i < |traits| ==> !Matches(traits, i, q)
    ensures r.Some? ==>
      exists i :: (0 <= i < |traits| && Matches(traits, i, q)
                   && (forall j :: 0 <= j < i ==> !Matches(traits, j, q))
                   && r.value == Arguments(traits[i].name, q))
  {
    if |traits| == 0 then None
    else if q <= traits[0].name then
      assert Matches(traits, 0, q);
      Some(Arguments(traits[0].name, q))
    else
      assert !Matches(traits, 0, q);
      var r := GetTraitIn(traits[1..], q);
      assert forall i :: 1 <= i < |traits| ==> (Matches(traits, i, q) <==> Matches(traits[1..], i - 1, q));
      if r.Some? then
        var k :| 0 <= k < |traits[1..]| && Matches(traits[1..], k, q)
          && (forall j :: 0 <= j < k ==> !Matches(traits[1..], j, q))
          && r.value == Arguments(traits[1..][k].name, q);
        assert Matches(traits, k + 1, q);
        r
      else r
  }

  /** The first trait matching `q` is the one that answers. */
  lemma GetTraitAt(traits: seq<Trait>, q: string, k: int)
    requires 0 <= k < |traits| && q <= traits[k].name
    requires forall j :: 0 <= j < k ==> !(q <= traits[j].name)
    ensures GetTraitIn(traits, q) == Some(Arguments(traits[k].name, q))
  {
    assert Matches(traits, k, q);
    var r := GetTraitIn(traits, q);
    var i :| 0 <= i < |traits| && Matches(traits, i, q)
      && (forall j :: 0 <= j < i ==> !Matches(traits, j, q))
      && r.value == Arguments(traits[i].name, q);
    assert !(i < k);
    assert !(k < i);
  }

  /** `get_trait`: nothing exactly when no trait starts with `q`; what is
      found, joined with `:` after `q`, spells one of the traits again. */
  function GetTrait(t: ObjectType, q: string): (r: Option<seq<string>>)
    ensures r.None? <==> forall i :: 0 <= i < |t.traits| ==> !(q <= t.traits[i].name)
    ensures r.Some? ==> exists i :: 0 <= i < |t.traits| && t.traits[i].name == q + Text.Join(r.value, ':')
  {
    FoundTraitJoinsBack(t.traits, q);
    GetTraitIn(t.traits, q)
  }

  /** The arguments found under `q` rebuild the trait they were read from. */
  lemma FoundTraitJoinsBack(traits: seq<Trait>, q: string)
    ensures GetTraitIn(traits, q).None? <==> forall i :: 0 <= i < |traits| ==> !(q <= traits[i].name)
    ensures GetTraitIn(traits, q).Some? ==>
      exists i :: 0 <= i < |traits| && traits[i].name == q + Text.Join(GetTraitIn(traits, q).value, ':')
  {
    var r := GetTraitIn(traits, q);
    if r.None? {
      forall i | 0 <= i < |traits| ensures !(q <= traits[i].name) {
        assert !Matches(traits, i, q);
      }
    } else {
      var i :| 0 <= i < |traits| && Matches(traits, i, q) && r.value == Arguments(traits[i].name, q);
      assert q <= traits[i].name;
      var rest := traits[i].name[|q|..];
      assert r.value == Arguments(traits[i].name, q);
      assert Arguments(traits[i].name, q) == Text.Split(rest, ':');
      Text.JoinSplit(rest, ':');
      assert traits[i].name[..|q|] == q;
      assert traits[i].name == traits[i].name[..|q|] + rest;
    }
  }

  /** `has_trait`: `get_trait` finds something, which is exactly when some
      trait starts with the query. */
  predicate HasTrait(t: ObjectType, q: string): (r: bool)
    ensures r <==> exists i :: 0 <= i < |t.traits| && q <= t.traits[i].name
  {
    GetTrait(t, q).Some?
  }

  /** Appending a trait never changes the answer for a prefix that an
      earlier trait already matches, because the first match wins. */
  lemma {:induction false} GetTraitAppend(traits: seq<Trait>, x: Trait, q: string)
    ensures GetTraitIn(traits, q).Some? ==> GetTraitIn(traits + [x], q) == GetTraitIn(traits, q)
    ensures GetTraitIn(traits, q).None? ==>
      GetTraitIn(traits + [x], q) == (if q <= x.name then Some(Arguments(x.name, q)) else None)
  {
    if |traits| > 0 {
      assert (traits + [x])[0] == traits[0];
      assert (traits + [x])[1..] == traits[1..] + [x];
      GetTraitAppend(traits[1..], x, q);
    } else {
      assert traits + [x] == [x];
    }
  }

  /** What `add_trait` does to later lookups. */
  lemma AddTraitLookup(t: ObjectType, traitName: string, q: string)
    ensures HasTrait(t, q) ==> GetTrait(AddTrait(t, traitName), q) == GetTrait(t, q)
    ensures !HasTrait(t, q) && q <= traitName ==>
      GetTrait(AddTrait(t, traitName), q) == Some(Arguments(traitName, q))
    ensures !HasTrait(t, q) && !(q <= traitName) ==> !HasTrait(AddTrait(t, traitName), q)
  {
    GetTraitAppend(t.traits, Trait(traitName), q);
  }

  /** Round trip: the arguments stored by `add_complex_trait` are read back
      by `get_trait` under the same prefix, provided no earlier trait
      answers first and no argument contains the separator. */
  lemma ComplexTraitRoundTrip(t: ObjectType, prefix: string, args: seq<string>)
    requires !HasTrait(t, prefix)
    requires |args| >= 1
    requires forall i :: 0 <= i < |args| ==> ':' !in args[i]
    ensures GetTrait(AddComplexTrait(t, prefix, args), prefix) == Some(args)
  {
    var name := prefix + Text.Join(args, ':');
    AddTraitLookup(t, name, prefix);
    assert name[|prefix|..] == Text.Join(args, ':');
    Text.SplitJoin(args, ':');
  }
}
