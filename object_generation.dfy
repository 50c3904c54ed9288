// Model of `generate_object` in compiler/data_types/object.rs: every
// builder tries the tokens, and one object is chosen from the explicit and
// the ambiguous successes.

module ObjectGeneration {
  import opened Wrappers
  import opened Objects
  import opened Tokens
  import Diagnostics

  const FailedTitle: string := "Failed to Decode Object"
  const AmbiguousTitle: string := "Statement Ambiguous"
  const AmbiguousPrefix: string := "There are multiple ways to decode this object: "

  /** What every builder makes of the tokens, in the order of the list;
      `build` stands for `Buildable::build` of a builder of type `B`. */
  function Attempts<B>(types: seq<(ObjectType, B)>, tokens: seq<Token>, build: (B, seq<Token>, ObjectType) -> BuildResult)
    : (r: seq<BuildResult>)
    ensures |r| == |types|
    ensures forall i :: 0 <= i < |types| ==> r[i] == build(types[i].1, tokens, types[i].0)
  {
    seq(|types|, i requires 0 <= i < |types| => build(types[i].1, tokens, types[i].0))
  }

  /** Whether result `r` is a success with the given ambiguity. */
  predicate IsSuccess(r: BuildResult, ambiguous: bool) {
    r.ambiguous == ambiguous && r.result.Built?
  }

  /** The objects of the successes with the given ambiguity, in order. */
  function Successes(rs: seq<BuildResult>, ambiguous: bool): seq<Object>
    decreases |rs|
  {
    if |rs| == 0 then []
    else
      var last := rs[|rs| - 1];
      Successes(rs[..|rs| - 1], ambiguous) + (if IsSuccess(last, ambiguous) then [last.result.obj] else [])
  }

  /** The notification of one explicit failure. */
  function FailureReport(e: ObjectBuildingError): Diagnostics.Notification {
    Diagnostics.Notification(FailedTitle, MessageText(e.message))
  }

  /** One notification per explicit failure, in order; ambiguous failures
      are silent. */
  function Failures(rs: seq<BuildResult>): seq<Diagnostics.Notification>
    decreases |rs|
  {
    if |rs| == 0 then []
    else
      var last := rs[|rs| - 1];
      Failures(rs[..|rs| - 1]) + (if !last.ambiguous && last.result.BuildFailed? then [FailureReport(last.result.error)] else [])
  }

  /** Some listed type has the uuid. */
  predicate Resolves<B>(types: seq<(ObjectType, B)>, uuid: Uuid) {
    exists j :: 0 <= j < |types| && types[j].0.typeUuid == uuid
  }

  /** The name of the first listed type with the uuid (the `filter` and
      `nth(0).unwrap()` of the source). */
  function TypeName<B>(types: seq<(ObjectType, B)>, uuid: Uuid): (r: string)
    requires Resolves(types, uuid)
    ensures exists j :: 0 <= j < |types| && types[j].0.typeUuid == uuid && r == types[j].0.name
                        && forall i :: 0 <= i < j ==> types[i].0.typeUuid != uuid
  {
    if types[0].0.typeUuid == uuid then types[0].0.name
    else
      assert Resolves(types[1..], uuid) by {
        var j :| 0 <= j < |types| && types[j].0.typeUuid == uuid;
        assert types[1..][j - 1] == types[j];
      }
      var r := TypeName(types[1..], uuid);
      var j :| 0 <= j < |types[1..]| && types[1..][j].0.typeUuid == uuid && r == types[1..][j].0.name
               && forall i :: 0 <= i < j ==> types[1..][i].0.typeUuid != uuid;
      assert types[j + 1] == types[1..][j];
      assert forall i :: 1 <= i < j + 1 ==> types[i] == types[1..][i - 1];
      r
  }

  /** Every object's type can be named. */
  predicate AllResolve<B>(types: seq<(ObjectType, B)>, objs: seq<Object>) {
    forall i :: 0 <= i < |objs| ==> Resolves(types, objs[i].typeUuid)
  }

  /** The names of the objects' types, each followed by two spaces. */
  function NameList<B>(types: seq<(ObjectType, B)>, objs: seq<Object>): string
    requires AllResolve(types, objs)
    decreases |objs|
  {
    if |objs| == 0 then ""
    else NameList(types, objs[..|objs| - 1]) + TypeName(types, objs[|objs| - 1].typeUuid) + "  "
  }

  /** The notification for several successes of the same kind. */
  function AmbiguityReport<B>(types: seq<(ObjectType, B)>, objs: seq<Object>): Diagnostics.Notification
    requires AllResolve(types, objs)
  {
    Diagnostics.Notification(AmbiguousTitle, AmbiguousPrefix + NameList(types, objs))
  }

  /** The name lookups of the ambiguity reports succeed: they run only over
      two or more explicit successes, and over the ambiguous ones unless a
      single explicit success was returned first. */
  predicate Reportable<B>(types: seq<(ObjectType, B)>, rs: seq<BuildResult>) {
    var explicit := Successes(rs, false);
    var ambiguous := Successes(rs, true);
    (|explicit| > 1 ==> AllResolve(types, explicit))
    && (|explicit| != 1 && |ambiguous| > 1 ==> AllResolve(types, ambiguous))
  }

  /** The choice `generate_object` makes from the build results, and the
      notifications it adds to the error log: every explicit failure first,
      then at most two ambiguity reports. Nothing is chosen only when
      neither a single explicit nor a single ambiguous success exists. */
  function Select<B>(types: seq<(ObjectType, B)>, rs: seq<BuildResult>): (r: (Option<Object>, seq<Diagnostics.Notification>))
    requires Reportable(types, rs)
    ensures Failures(rs) <= r.1 && |r.1| <= |Failures(rs)| + 2
    ensures r.0.None? <==> |Successes(rs, false)| != 1 && |Successes(rs, true)| != 1
  {
    var explicit := Successes(rs, false);
    var ambiguous := Successes(rs, true);
    var log := WithAmbiguityReport(types, Failures(rs), explicit);
    if |explicit| == 1 then (Some(explicit[0]), Failures(rs))
    else if |ambiguous| == 1 then (Some(ambiguous[0]), log)
    else (None, WithAmbiguityReport(types, log, ambiguous))
  }

  /** `log` followed by the ambiguity report over `objs` when there are
      several of them. */
  function WithAmbiguityReport<B>(types: seq<(ObjectType, B)>, log: seq<Diagnostics.Notification>, objs: seq<Object>)
    : (r: seq<Diagnostics.Notification>)
    requires |objs| > 1 ==> AllResolve(types, objs)
    ensures |objs| <= 1 ==> r == log
    ensures |objs| > 1 ==> r == log + [AmbiguityReport(types, objs)]
  {
    if |objs| > 1 then log + [AmbiguityReport(types, objs)] else log
  }

  /** `generate_object` on non-empty tokens (the source indexes the first
      and the last token); it returns the chosen object and the entries it
      appends to the error log. */
  method GenerateObject<B>(tokens: seq<Token>, types: seq<(ObjectType, B)>, build: (B, seq<Token>, ObjectType) -> BuildResult)
    returns (result: Option<Object>, log: seq<Diagnostics.Notification>)
    requires |tokens| > 0
    requires Reportable(types, Attempts(types, tokens, build))
    ensures (result, log) == Select(types, Attempts(types, tokens, build))
  {
    ghost var rs := Attempts(types, tokens, build);
    var explicit: seq<Object> := [];
    var ambiguous: seq<Object> := [];
    log := [];
    for i := 0 to |types|
      invariant explicit == Successes(rs[..i], false)
      invariant ambiguous == Successes(rs[..i], true)
      invariant log == Failures(rs[..i])
    {
      var r := build(types[i].1, tokens, types[i].0);
      assert rs[..i + 1][..i] == rs[..i] && rs[..i + 1][i] == r;
      if r.ambiguous {
        if r.result.Built? {
          ambiguous := ambiguous + [r.result.obj];
        }
      } else {
        if r.result.Built? {
          explicit := explicit + [r.result.obj];
        } else {
          log := log + [FailureReport(r.result.error)];
        }
      }
    }
    assert rs[..|types|] == rs;
    if |explicit| > 0 {
      if |explicit| != 1 {
        var message := ReportNames(types, explicit);
        log := log + [Diagnostics.Notification(AmbiguousTitle, message)];
      } else {
        return Some(explicit[0]), log;
      }
    }
    assert log == WithAmbiguityReport(types, Failures(rs), explicit);
    ghost var reported := log;
    if |ambiguous| > 0 {
      if |ambiguous| != 1 {
        var message := ReportNames(types, ambiguous);
        log := log + [Diagnostics.Notification(AmbiguousTitle, message)];
      } else {
        return Some(ambiguous[0]), log;
      }
    }
    assert log == WithAmbiguityReport(types, reported, ambiguous);
    return None, log;
  }

  /** The message loop of an ambiguity report. */
  method ReportNames<B>(types: seq<(ObjectType, B)>, objs: seq<Object>) returns (message: string)
    requires AllResolve(types, objs)
    ensures message == AmbiguousPrefix + NameList(types, objs)
  {
    message := AmbiguousPrefix;
    for i := 0 to |objs|
      invariant message == AmbiguousPrefix + NameList(types, objs[..i])
    {
      assert objs[..i + 1][..i] == objs[..i];
      message := message + TypeName(types, objs[i].typeUuid) + "  ";
    }
    assert objs[..|objs|] == objs;
  }

  // Index-level meaning of the filtered lists.

  /** An object is among the successes of an ambiguity exactly when some
      builder produced it with that ambiguity. */
  lemma {:induction false} SuccessesMembers(rs: seq<BuildResult>, ambiguous: bool, o: Object)
    ensures o in Successes(rs, ambiguous) <==>
      exists i :: 0 <= i < |rs| && IsSuccess(rs[i], ambiguous) && rs[i].result.obj == o
    decreases |rs|
  {
    if |rs| > 0 {
      var init := rs[..|rs| - 1];
      SuccessesMembers(init, ambiguous, o);
      assert forall i :: 0 <= i < |init| ==> init[i] == rs[i];
    }
  }

  /** No success of an ambiguity gives the empty list. */
  lemma {:induction false} SuccessesNone(rs: seq<BuildResult>, ambiguous: bool)
    requires forall i :: 0 <= i < |rs| ==> !IsSuccess(rs[i], ambiguous)
    ensures Successes(rs, ambiguous) == []
    decreases |rs|
  {
    if |rs| > 0 {
      SuccessesNone(rs[..|rs| - 1], ambiguous);
    }
  }

  /** A single success of an ambiguity gives exactly its object. */
  lemma {:induction false} SuccessesSingle(rs: seq<BuildResult>, ambiguous: bool, k: int)
    requires 0 <= k < |rs| && IsSuccess(rs[k], ambiguous)
    requires forall i :: 0 <= i < |rs| && i != k ==> !IsSuccess(rs[i], ambiguous)
    ensures Successes(rs, ambiguous) == [rs[k].result.obj]
    decreases |rs|
  {
    var init := rs[..|rs| - 1];
    if k == |rs| - 1 {
      SuccessesNone(init, ambiguous);
    } else {
      SuccessesSingle(init, ambiguous, k);
    }
  }

  /** Two successes of an ambiguity give at least two objects. */
  lemma {:induction false} SuccessesMany(rs: seq<BuildResult>, ambiguous: bool, j: int, k: int)
    requires 0 <= j < k < |rs| && IsSuccess(rs[j], ambiguous) && IsSuccess(rs[k], ambiguous)
    ensures |Successes(rs, ambiguous)| >= 2
    decreases |rs|
  {
    var init := rs[..|rs| - 1];
    if k == |rs| - 1 {
      SuccessesMembers(init, ambiguous, rs[j].result.obj);
      assert init[j] == rs[j];
    } else {
      SuccessesMany(init, ambiguous, j, k);
    }
  }

  /** The log gets no failure notification exactly when no builder failed
      explicitly. */
  lemma {:induction false} FailuresEmpty(rs: seq<BuildResult>)
    ensures Failures(rs) == [] <==> forall i :: 0 <= i < |rs| ==> rs[i].ambiguous || rs[i].result.Built?
    decreases |rs|
  {
    if |rs| > 0 {
      var init := rs[..|rs| - 1];
      FailuresEmpty(init);
      assert forall i :: 0 <= i < |init| ==> init[i] == rs[i];
    }
  }

  // What the selection promises.

  /** Any object returned was built by one of the builders. */
  lemma SelectedWasBuilt<B>(types: seq<(ObjectType, B)>, rs: seq<BuildResult>)
    requires Reportable(types, rs)
    ensures Select(types, rs).0.Some? ==>
      exists i :: 0 <= i < |rs| && rs[i].result == Built(Select(types, rs).0.value)
  {
    var explicit := Successes(rs, false);
    var ambiguous := Successes(rs, true);
    if |explicit| == 1 {
      SuccessesMembers(rs, false, explicit[0]);
    } else if |ambiguous| == 1 {
      SuccessesMembers(rs, true, ambiguous[0]);
    }
  }

  /** A single explicit success is returned, whatever the ambiguous
      builders did, and only the explicit failures are reported. */
  lemma SelectExplicit<B>(types: seq<(ObjectType, B)>, rs: seq<BuildResult>, k: int)
    requires 0 <= k < |rs| && IsSuccess(rs[k], false)
    requires forall i :: 0 <= i < |rs| && i != k ==> !IsSuccess(rs[i], false)
    ensures Reportable(types, rs)
    ensures Select(types, rs) == (Some(rs[k].result.obj), Failures(rs))
  {
    SuccessesSingle(rs, false, k);
  }

  /** Without explicit successes, a single ambiguous success is returned. */
  lemma SelectAmbiguous<B>(types: seq<(ObjectType, B)>, rs: seq<BuildResult>, k: int)
    requires forall i :: 0 <= i < |rs| ==> !IsSuccess(rs[i], false)
    requires 0 <= k < |rs| && IsSuccess(rs[k], true)
    requires forall i :: 0 <= i < |rs| && i != k ==> !IsSuccess(rs[i], true)
    ensures Reportable(types, rs)
    ensures Select(types, rs) == (Some(rs[k].result.obj), Failures(rs))
  {
    SuccessesNone(rs, false);
    SuccessesSingle(rs, true, k);
    SelectSingle(types, rs);
    assert Successes(rs, true)[0] == rs[k].result.obj;
  }

  /** With no explicit success, a single ambiguous one is chosen and only
      the explicit failures are logged. */
  lemma SelectSingle<B>(types: seq<(ObjectType, B)>, rs: seq<BuildResult>)
    requires |Successes(rs, false)| == 0 && |Successes(rs, true)| == 1
    ensures Reportable(types, rs)
    ensures Select(types, rs) == (Some(Successes(rs, true)[0]), Failures(rs))
  {
  }

  /** Several explicit successes are reported and do not block a single
      ambiguous success. */
  lemma SelectAfterConflict<B>(types: seq<(ObjectType, B)>, rs: seq<BuildResult>, j: int, k: int, m: int)
    requires 0 <= j < k < |rs| && IsSuccess(rs[j], false) && IsSuccess(rs[k], false)
    requires AllResolve(types, Successes(rs, false))
    requires 0 <= m < |rs| && IsSuccess(rs[m], true)
    requires forall i :: 0 <= i < |rs| && i != m ==> !IsSuccess(rs[i], true)
    ensures Reportable(types, rs)
    ensures Select(types, rs)
      == (Some(rs[m].result.obj), Failures(rs) + [AmbiguityReport(types, Successes(rs, false))])
  {
    SuccessesMany(rs, false, j, k);
    SuccessesSingle(rs, true, m);
  }

  /** Without any success nothing is returned and only explicit failures
      are reported. */
  lemma SelectNothing<B>(types: seq<(ObjectType, B)>, rs: seq<BuildResult>)
    requires forall i :: 0 <= i < |rs| ==> rs[i].result.BuildFailed?
    ensures Reportable(types, rs)
    ensures Select(types, rs) == (None, Failures(rs))
  {
    assert forall i :: 0 <= i < |rs| ==> !IsSuccess(rs[i], false) && !IsSuccess(rs[i], true);
    SuccessesNone(rs, false);
    SuccessesNone(rs, true);
    assert Failures(rs) + [] + [] == Failures(rs);
  }

  /** Two ambiguous successes and no single explicit one give nothing. */
  lemma SelectUndecided<B>(types: seq<(ObjectType, B)>, rs: seq<BuildResult>, j: int, k: int)
    requires Reportable(types, rs)
    requires |Successes(rs, false)| != 1
    requires 0 <= j < k < |rs| && IsSuccess(rs[j], true) && IsSuccess(rs[k], true)
    ensures Select(types, rs).0 == None
    ensures |Select(types, rs).1| > 0
    ensures Select(types, rs).1[|Select(types, rs).1| - 1] == AmbiguityReport(types, Successes(rs, true))
  {
    SuccessesMany(rs, true, j, k);
  }
}
