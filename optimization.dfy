// Model of compiler/optimization.rs: which optimisations are switched on,
// from the optimisation level and the user's `name` / `!name` flags.

module Optimization {
  import opened Wrappers

  /** `OptimizationKind`. */
  datatype OptimizationKind = RemoveIdentityOperations

  /** The kinds in declaration order, as `OptimizationKind::iter` yields
      them. */
  const AllKinds: seq<OptimizationKind> := [RemoveIdentityOperations]

  /** The serialised (camel case) name of a kind. */
  function Name(k: OptimizationKind): string {
    match k
    case RemoveIdentityOperations => "removeIdentityOperations"
  }

  /** `standard_optimization_level`: the lowest level that enables the kind
      unless a flag says otherwise. It fits the `u8` level and is never 0,
      so level 0 leaves every kind off by default. */
  function StandardOptimizationLevel(k: OptimizationKind): (r: nat)
    ensures 1 <= r < 256
  {
    match k
    case RemoveIdentityOperations => 1
  }

  /** `OptimizationFlags`: the level (a `u8`) and the setting of every
      kind. */
  datatype OptimizationFlags = OptimizationFlags(optLevel: nat, optimizations: map<OptimizationKind, bool>)

  /** What a single flag says about a kind: `!name` disables it, `name`
      enables it, anything else says nothing. */
  function FlagSetting(flag: string, k: OptimizationKind): (r: Option<bool>)
    ensures r == Some(false) <==> flag == "!" + Name(k)
    ensures r == Some(true) <==> flag == Name(k)
  {
    if |flag| >= 1 && flag[0] == '!' && flag[1..] == Name(k) then
      assert flag == "!" + Name(k);
      Some(false)
    else if flag == Name(k) then Some(true)
    else None
  }

  /** The setting after reading `flags` from left to right, starting from
      `current`. */
  function Setting(flags: seq<string>, k: OptimizationKind, current: bool): bool {
    if |flags| == 0 then current
    else
      var next := if FlagSetting(flags[0], k).Some? then FlagSetting(flags[0], k).value else current;
      Setting(flags[1..], k, next)
  }

  /** Whether a kind ends up enabled: its default for the level, overridden
      by the flags that name it. */
  function Enabled(k: OptimizationKind, optLevel: nat, flags: seq<string>): bool {
    Setting(flags, k, StandardOptimizationLevel(k) <= optLevel)
  }

  /** The matching flag read last decides. */
  lemma {:induction false} LaterFlagWins(flags: seq<string>, flag: string, k: OptimizationKind, current: bool)
    ensures Setting(flags + [flag], k, current)
      == if FlagSetting(flag, k).Some? then FlagSetting(flag, k).value else Setting(flags, k, current)
  {
    if |flags| > 0 {
      assert (flags + [flag])[1..] == flags[1..] + [flag];
      var next := if FlagSetting(flags[0], k).Some? then FlagSetting(flags[0], k).value else current;
      LaterFlagWins(flags[1..], flag, k, next);
    }
  }

  /** Flags that name the kind in neither form leave the setting alone. */
  lemma {:induction false} UnrelatedFlags(flags: seq<string>, k: OptimizationKind, current: bool)
    requires forall i :: 0 <= i < |flags| ==> FlagSetting(flags[i], k).None?
    ensures Setting(flags, k, current) == current
  {
    if |flags| > 0 {
      UnrelatedFlags(flags[1..], k, current);
    }
  }

  /** With no flag naming it, a kind is enabled exactly when its standard
      level is at most the chosen level. */
  lemma DefaultByLevel(k: OptimizationKind, optLevel: nat, flags: seq<string>)
    requires forall i :: 0 <= i < |flags| ==> flags[i] != Name(k) && flags[i] != "!" + Name(k)
    ensures Enabled(k, optLevel, flags) <==> StandardOptimizationLevel(k) <= optLevel
  {
    UnrelatedFlags(flags, k, StandardOptimizationLevel(k) <= optLevel);
  }

  /** The removals the source performs while reading the snapshot
      `snapshot` of the flags up to position `j`: each matching flag at
      snapshot index `i` removes whatever now sits at index `i` of the
      shrinking list, and panics when that index is past its end. */
  function RemovedUpTo(snapshot: seq<string>, k: OptimizationKind, j: nat): Outcome<seq<string>>
    requires j <= |snapshot|
  {
    if j == 0 then Ok(snapshot)
    else
      var previous := RemovedUpTo(snapshot, k, j - 1);
      if previous.Ok? && FlagSetting(snapshot[j - 1], k).Some? then
        if j - 1 < |previous.value| then Ok(previous.value[..j - 1] + previous.value[j..])
        else Panic("removal index out of bounds")
      else previous
  }

  /** `new_opt` as written. Every kind starts from its level default and
      follows the matching flags; a matching flag is removed by its index in
      a snapshot taken before the first removal. */
  method NewOpt(optLevel: nat, flags: seq<string>) returns (r: Outcome<OptimizationFlags>)
    requires optLevel < 256
    ensures r.Ok? <==> RemovedUpTo(flags, RemoveIdentityOperations, |flags|).Ok?
    ensures r.Ok? ==>
      (r.value.optLevel == optLevel
       && r.value.optimizations == map[RemoveIdentityOperations := Enabled(RemoveIdentityOperations, optLevel, flags)])
  {
    var optimizations: map<OptimizationKind, bool> := map[];
    var remaining := flags;
    for n := 0 to |AllKinds|
      invariant n == 0 ==> remaining == flags && optimizations == map[]
      invariant n == 1 ==> RemovedUpTo(flags, RemoveIdentityOperations, |flags|) == Ok(remaining)
      invariant n == 1 ==> optimizations == map[RemoveIdentityOperations := Enabled(RemoveIdentityOperations, optLevel, flags)]
    {
      var kind := AllKinds[n];
      var isActivated := StandardOptimizationLevel(kind) <= optLevel;
      var snapshot := remaining;
      for j := 0 to |snapshot|
        invariant RemovedUpTo(snapshot, kind, j) == Ok(remaining)
        invariant Setting(snapshot[j..], kind, isActivated) == Enabled(kind, optLevel, snapshot)
      {
        var setting := FlagSetting(snapshot[j], kind);
        if setting.Some? {
          isActivated := setting.value;
          if j >= |remaining| {
            assert RemovedUpTo(snapshot, kind, j + 1).Panic?;
            PanicPersists(snapshot, kind, j + 1, |snapshot|);
            return Panic("removal index out of bounds");
          }
          remaining := remaining[..j] + remaining[j + 1..];
        }
        assert snapshot[j..][1..] == snapshot[j + 1..];
      }
      optimizations := optimizations[kind := isActivated];
    }
    r := Ok(OptimizationFlags(optLevel, optimizations));
  }

  /** Once a removal has panicked, the rest of the snapshot cannot undo
      it. */
  lemma {:induction false} PanicPersists(snapshot: seq<string>, k: OptimizationKind, i: nat, j: nat)
    requires i <= j <= |snapshot|
    requires RemovedUpTo(snapshot, k, i).Panic?
    ensures RemovedUpTo(snapshot, k, j).Panic?
  {
    if i < j {
      PanicPersists(snapshot, k, i, j - 1);
    }
  }

  /** Giving the same kind both forms of flag, enabling first, makes the
      second removal run past the end of the list: the flags cannot be
      combined although the later one is meant to win. */
  lemma SecondMatchPanics(k: OptimizationKind)
    ensures RemovedUpTo([Name(k), "!" + Name(k)], k, 2).Panic?
  {
    var flags := [Name(k), "!" + Name(k)];
    assert FlagSetting(flags[0], k) == Some(true);
    assert FlagSetting(flags[1], k) == Some(false);
    assert RemovedUpTo(flags, k, 0) == Ok(flags);
    assert flags[..0] + flags[1..] == [flags[1]];
    assert RemovedUpTo(flags, k, 1) == Ok([flags[1]]);
  }

  /** `new_opt` as evidently intended: the matching flags are consumed
      without index arithmetic, so every flag list resolves, with the later
      matching flag deciding. */
  method NewOptCorrected(optLevel: nat, flags: seq<string>) returns (r: OptimizationFlags, unused: seq<string>)
    requires optLevel < 256
    ensures r.optLevel == optLevel
    ensures forall k :: k in r.optimizations <==> k in AllKinds
    ensures forall k :: k in r.optimizations ==> r.optimizations[k] == Enabled(k, optLevel, flags)
    ensures forall i :: 0 <= i < |unused| ==> unused[i] in flags && FlagSetting(unused[i], RemoveIdentityOperations).None?
  {
    var optimizations: map<OptimizationKind, bool> := map[];
    unused := [];
    var kind := AllKinds[0];
    var isActivated := StandardOptimizationLevel(kind) <= optLevel;
    for j := 0 to |flags|
      invariant Setting(flags[j..], kind, isActivated) == Enabled(kind, optLevel, flags)
      invariant forall i :: 0 <= i < |unused| ==> unused[i] in flags[..j] && FlagSetting(unused[i], kind).None?
    {
      var setting := FlagSetting(flags[j], kind);
      if setting.Some? {
        isActivated := setting.value;
      } else {
        unused := unused + [flags[j]];
      }
      assert flags[j..][1..] == flags[j + 1..];
    }
    optimizations := optimizations[kind := isActivated];
    r := OptimizationFlags(optLevel, optimizations);
  }

  /** Kind names are pairwise distinct, so a flag names at most one
      kind. */
  lemma NamesDistinct(a: OptimizationKind, b: OptimizationKind)
    ensures Name(a) == Name(b) ==> a == b
  {
  }

  /** `removeIdentityOperations` is on from level 1. */
  lemma IdentityRemovalLevel()
    ensures Name(RemoveIdentityOperations) == "removeIdentityOperations"
    ensures StandardOptimizationLevel(RemoveIdentityOperations) == 1
  {
  }
}
