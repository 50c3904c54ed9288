// Models of compiler/context.rs and compiler/backend/context.rs: the
// compiler state that lowering reads and updates (objects and their types,
// the mutable objects, names, datatypes, function metas) and the counter
// that names generated labels. The line map is the diagnostics log.

module Contexts {
  import Text
  import Diagnostics
  import opened Objects
  import Optimization
  import FunctionMetas

  /** The name of the `n`-th generated label: `LB` and the decimal count. */
  function LabelName(n: nat): (r: string)
    ensures |r| >= 3 && r[..2] == "LB"
  {
    "LB" + Text.NatToString(n)
  }

  /** Different counts give different label names, so successive labels
      never collide. */
  lemma LabelNamesDistinct(m: nat, n: nat)
    ensures LabelName(m) == LabelName(n) <==> m == n
  {
    if LabelName(m) == LabelName(n) {
      assert Text.NatToString(m) == LabelName(m)[2..];
      assert Text.NatToString(n) == LabelName(n)[2..];
      Text.NatToStringInjective(m, n);
    }
  }

  /** `Context` of compiler/context.rs. */
  class CompilerContext {
    /** Every object with the id of its type. */
    var objects: map<Uuid, Uuid>
    var mutableObjects: seq<Uuid>
    var optFlags: Optimization.OptimizationFlags
    var lineMap: seq<Diagnostics.Notification>
    var nameMap: map<string, Uuid>
    /** The datatypes by type id, in the order lookups search them. */
    var datatypes: seq<(Uuid, ObjectType)>
    /** Values known at compile time, as `i64`s. */
    var knownValues: map<Uuid, int>
    var functionMetas: seq<FunctionMetas.FunctionMeta>
    var labelCount: nat

    /** `Context::clear`: everything empty except the given line map and
        flags. */
    constructor Clear(lineMap: seq<Diagnostics.Notification>, optFlags: Optimization.OptimizationFlags)
      ensures objects == map[] && mutableObjects == [] && nameMap == map[] && datatypes == []
      ensures knownValues == map[] && functionMetas == [] && labelCount == 0
      ensures this.lineMap == lineMap && this.optFlags == optFlags
    {
      objects := map[];
      mutableObjects := [];
      this.optFlags := optFlags;
      this.lineMap := lineMap;
      nameMap := map[];
      datatypes := [];
      knownValues := map[];
      functionMetas := [];
      labelCount := 0;
    }

    /** `generate_label`: the label named after the count before the call;
        the count goes up by one and nothing else changes. */
    method GenerateLabel() returns (name: string)
      modifies this
      ensures name == LabelName(old(labelCount)) && labelCount == old(labelCount) + 1
      ensures objects == old(objects) && mutableObjects == old(mutableObjects) && optFlags == old(optFlags)
      ensures lineMap == old(lineMap) && nameMap == old(nameMap) && datatypes == old(datatypes)
      ensures knownValues == old(knownValues) && functionMetas == old(functionMetas)
    {
      labelCount := labelCount + 1;
      name := "LB" + Text.NatToString(labelCount - 1);
    }
  }

  /** `Context` of compiler/backend/context.rs, the one lowering and the
      drop pass use: the same state without flags and known values. */
  class BackendContext {
    var objects: map<Uuid, Uuid>
    var mutableObjects: seq<Uuid>
    var lineMap: seq<Diagnostics.Notification>
    var nameMap: map<string, Uuid>
    var datatypes: seq<(Uuid, ObjectType)>
    var functionMetas: seq<FunctionMetas.FunctionMeta>
    var labelCount: nat

    /** `Context::clear`: everything empty except the given line map. */
    constructor Clear(lineMap: seq<Diagnostics.Notification>)
      ensures objects == map[] && mutableObjects == [] && nameMap == map[] && datatypes == []
      ensures functionMetas == [] && labelCount == 0 && this.lineMap == lineMap
    {
      objects := map[];
      mutableObjects := [];
      this.lineMap := lineMap;
      nameMap := map[];
      datatypes := [];
      functionMetas := [];
      labelCount := 0;
    }

    /** `generate_label`, as for the compiler context. */
    method GenerateLabel() returns (name: string)
      modifies this
      ensures name == LabelName(old(labelCount)) && labelCount == old(labelCount) + 1
      ensures objects == old(objects) && mutableObjects == old(mutableObjects) && lineMap == old(lineMap)
      ensures nameMap == old(nameMap) && datatypes == old(datatypes) && functionMetas == old(functionMetas)
    {
      labelCount := labelCount + 1;
      name := "LB" + Text.NatToString(labelCount - 1);
    }
  }

  /** Two successive calls on a cleared back-end context name `LB0` and
      `LB1`, and the names differ. */
  method SuccessiveLabels(lineMap: seq<Diagnostics.Notification>) returns (first: string, second: string)
    ensures first == LabelName(0) && second == LabelName(1) && first != second
  {
    var context := new BackendContext.Clear(lineMap);
    first := context.GenerateLabel();
    second := context.GenerateLabel();
    LabelNamesDistinct(0, 1);
  }
}
