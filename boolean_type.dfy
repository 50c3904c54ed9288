// Model of compiler/data_types/boolean.rs: the object type of `bool`.

module BooleanType {
  import opened Wrappers
  import Text
  import opened Objects
  import Config

  /** `BOOLEAN_KEYWORD`: how the user's code names the type. */
  const BooleanKeyword: string := "bool"

  /** `get_name`: the name the user's code refers to the type by, which is
      not a keyword of the language. */
  function GetName(): (r: string)
    ensures Config.FindKeyword(r).None?
  {
    BooleanKeyword
  }

  /** `build_type` with the fresh uuid `uuid`: a one-byte value type that
      is boolean compatible. */
  function BuildType(uuid: Uuid): (r: ObjectType)
    ensures r.name == GetName() && r.typeUuid == uuid && |r.traits| == 3
  {
    var sized := AddComplexTrait(NewObjectType(BooleanKeyword, uuid), Sized, ["1"]);
    AddTrait(AddTrait(sized, ValueType), BooleanCompatible)
  }

  /** The traits of the boolean type, in the order they are added. */
  lemma BuildTypeTraitList(uuid: Uuid)
    ensures BuildType(uuid).name == GetName() && BuildType(uuid).typeUuid == uuid
    ensures BuildType(uuid).traits == [Trait(Sized + "1"), Trait(ValueType), Trait(BooleanCompatible)]
  {
    assert Text.Join(["1"], ':') == "1";
  }

  /** What the boolean type answers to trait queries: a boolean value of
      size one, neither arithmetic nor an integer. */
  lemma BuildTypeTraits(uuid: Uuid)
    ensures HasTrait(BuildType(uuid), ValueType)
    ensures HasTrait(BuildType(uuid), BooleanCompatible)
    ensures !HasTrait(BuildType(uuid), ArithmeticCompatible)
    ensures !HasTrait(BuildType(uuid), Integer)
    ensures GetTrait(BuildType(uuid), Sized) == Some(["1"])
  {
    BuildTypeTraitList(uuid);
    var traits := BuildType(uuid).traits;
    assert traits[0].name[0] == 's' && traits[1].name[0] == 'd' && traits[2].name[0] == 'b';
    assert Matches(traits, 1, ValueType);
    assert Matches(traits, 2, BooleanCompatible);
    forall j | 0 <= j < |traits|
      ensures !Matches(traits, j, ArithmeticCompatible) && !Matches(traits, j, Integer)
    {
      assert traits[j].name[0] != ArithmeticCompatible[0] && traits[j].name[0] != Integer[0];
    }
    GetTraitAt(traits, Sized, 0);
    assert traits[0].name[|Sized|..] == "1";
    Text.SplitJoin(["1"], ':');
    assert Text.Join(["1"], ':') == "1";
  }
}
