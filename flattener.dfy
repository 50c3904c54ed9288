// The drop pass of `flatten` in compiler/backend/flattener.rs: after
// lowering a line, a `Drop` is inserted after the last instruction that
// mentions each object. The loop as written computes the scanned index from
// the current length while the number of steps is fixed by the original
// length, so the scan never reaches index 0 and stalls on an instruction
// after each insertion; `FlattenAsWritten` models that loop and
// `AsWrittenMissesDrops` exhibits the objects it never drops. `DropPass`
// scans every instruction from the last to the first, as the comment in the
// source describes, and is the pass the rest of the model uses.

module Flattener {
  import opened Wrappers
  import opened Objects
  import opened Instructions
  import opened Nodes
  import Lowering
  import LoweringProperties
  import Generation
  import Contexts

  /** No object occurs twice. */
  predicate Distinct(s: seq<Uuid>) {
    forall p, q :: 0 <= p < q < |s| ==> s[p] != s[q]
  }

  /** The objects of `objs` that `seen` does not hold, each once, in the
      order the inner loop meets them. */
  function Scan(objs: seq<Uuid>, seen: seq<Uuid>): seq<Uuid>
    decreases |objs|
  {
    if |objs| == 0 then []
    else
      var f := Scan(objs[..|objs| - 1], seen);
      var o := objs[|objs| - 1];
      if o in seen || o in f then f else f + [o]
  }

  /** The inner loop meets exactly the objects of `objs` that `seen` does
      not hold, and each of them once. */
  lemma {:induction false} ScanFacts(objs: seq<Uuid>, seen: seq<Uuid>)
    ensures forall o :: o in Scan(objs, seen) <==> o in objs && o !in seen
    ensures Distinct(Scan(objs, seen))
    decreases |objs|
  {
    if |objs| > 0 {
      var front := objs[..|objs| - 1];
      ScanFacts(front, seen);
      assert objs == front + [objs[|objs| - 1]];
    }
  }

  /** The drops the inner loop inserts for `unseen`: each is inserted right
      after the scanned instruction, so the last one ends up first. */
  function DropsReversed(unseen: seq<Uuid>): (r: seq<Instruction>)
    ensures |r| == |unseen|
    ensures forall k :: 0 <= k < |r| ==> r[k] == Drop(unseen[|unseen| - 1 - k])
  {
    seq(|unseen|, k requires 0 <= k < |unseen| => Drop(unseen[|unseen| - 1 - k]))
  }

  /** The inner loop on the instruction at `i`: its new objects are added to
      the known ones and a drop for each is inserted after it. */
  function DropAfter(instructions: seq<Instruction>, i: nat, objects: seq<Uuid>): (r: (seq<Instruction>, seq<Uuid>))
    requires i < |instructions|
    ensures |r.0| >= |instructions| && r.0[..i + 1] == instructions[..i + 1]
  {
    var unseen := Scan(GetObjects(instructions[i]), objects);
    (instructions[..i + 1] + DropsReversed(unseen) + instructions[i + 1..], objects + unseen)
  }

  /** The outer loop as written, from step `k` of `length - 1` steps: the
      scanned index is the current length minus `k`. */
  function AsWrittenFrom(instructions: seq<Instruction>, objects: seq<Uuid>, k: nat, length: nat): seq<Instruction>
    requires 1 <= k && length <= |instructions|
    decreases length - k
  {
    if k >= length then instructions
    else
      var (instructions', objects') := DropAfter(instructions, |instructions| - k, objects);
      AsWrittenFrom(instructions', objects', k + 1, length)
  }

  /** The drop pass of `flatten` as written. */
  function FlattenAsWritten(instructions: seq<Instruction>): (r: seq<Instruction>)
    ensures |instructions| <= 1 ==> r == instructions
  {
    AsWrittenFrom(instructions, [], 1, |instructions|)
  }

  /** The intended drop pass: every instruction is scanned, from the last to
      the first, and each object is dropped right after the last
      instruction that mentions it; `seen` holds the objects already dropped
      further on. */
  function DropPass(instructions: seq<Instruction>, seen: seq<Uuid>): seq<Instruction>
    decreases |instructions|
  {
    if |instructions| == 0 then []
    else
      var i := |instructions| - 1;
      var unseen := Scan(GetObjects(instructions[i]), seen);
      DropPass(instructions[..i], seen + unseen) + [instructions[i]] + DropsReversed(unseen)
  }

  /** The objects the instructions mention. */
  function Mentioned(instructions: seq<Instruction>): set<Uuid>
    decreases |instructions|
  {
    if |instructions| == 0 then {}
    else Mentioned(instructions[..|instructions| - 1]) + Elements(GetObjects(instructions[|instructions| - 1]))
  }

  function Elements(objs: seq<Uuid>): set<Uuid> {
    set o | o in objs
  }

  /** The instructions with every `Drop` taken out. */
  function RemoveDrops(s: seq<Instruction>): seq<Instruction>
    decreases |s|
  {
    if |s| == 0 then []
    else RemoveDrops(s[..|s| - 1]) + (if s[|s| - 1].Drop? then [] else [s[|s| - 1]])
  }

  /** The inner loop on an instruction that mentions a single object:
      one drop after it when the object is new, no change otherwise. */
  lemma DropAfterSingle(instructions: seq<Instruction>, i: nat, objects: seq<Uuid>, o: Uuid)
    requires i < |instructions| && GetObjects(instructions[i]) == [o]
    ensures o !in objects ==>
      DropAfter(instructions, i, objects) == (instructions[..i + 1] + [Drop(o)] + instructions[i + 1..], objects + [o])
    ensures o in objects ==> DropAfter(instructions, i, objects) == (instructions, objects)
  {
    assert [o][..0] == [];
    assert Scan([], objects) == [];
    var unseen := Scan([o], objects);
    if o !in objects {
      assert unseen == [o];
      assert DropsReversed(unseen) == [Drop(o)];
    } else {
      assert unseen == [];
      assert DropsReversed(unseen) == [];
      assert instructions[..i + 1] + instructions[i + 1..] == instructions;
      assert objects + unseen == objects;
    }
  }

  /** The as-written loop leaves both earlier objects of three literal moves
      without a drop: the first step drops the third object and the second
      step scans the third move again. */
  lemma AsWrittenMissesDrops()
    ensures var s := [MoveData(0, 5), MoveData(1, 6), MoveData(2, 7)];
      FlattenAsWritten(s) == s + [Drop(2)] && 0 in Mentioned(s) && 1 in Mentioned(s)
  {
    var s := [MoveData(0, 5), MoveData(1, 6), MoveData(2, 7)];
    var s1 := s + [Drop(2)];
    DropAfterSingle(s, 2, [], 2);
    assert s[..3] + [Drop(2)] + s[3..] == s1;
    DropAfterSingle(s1, 2, [2], 2);
    calc {
      FlattenAsWritten(s);
      AsWrittenFrom(s, [], 1, 3);
      AsWrittenFrom(s1, [2], 2, 3);
      AsWrittenFrom(s1, [2], 3, 3);
    }
    assert s[..2][..1] == [MoveData(0, 5)];
    assert 0 in Mentioned(s[..2][..1]);
    assert s[..2] == [MoveData(0, 5), MoveData(1, 6)];
  }

  /** The pass on a move of a single object: the rest with that object
      counted as seen, then the move and its drop. */
  lemma DropPassSingle(instructions: seq<Instruction>, seen: seq<Uuid>, o: Uuid)
    requires |instructions| > 0 && GetObjects(instructions[|instructions| - 1]) == [o] && o !in seen
    ensures DropPass(instructions, seen)
            == DropPass(instructions[..|instructions| - 1], seen + [o]) + [instructions[|instructions| - 1], Drop(o)]
  {
    DropPassLast(instructions, seen);
    ScanSingle(o, seen);
    SingleTail(instructions[|instructions| - 1], o);
  }

  lemma SingleTail(last: Instruction, o: Uuid)
    ensures [last] + DropsReversed([o]) == [last, Drop(o)]
  {
    assert DropsReversed([o]) == [Drop(o)];
  }

  /** A single object not yet seen is met by the inner loop. */
  lemma ScanSingle(o: Uuid, seen: seq<Uuid>)
    requires o !in seen
    ensures Scan([o], seen) == [o]
  {
    assert [o][..0] == [];
  }

  /** The intended pass on the same moves, whatever values they move, drops
      every object right after its move. */
  lemma IntendedDropsAll(u: int, v: int, w: int)
    ensures var s := [MoveData(0, u), MoveData(1, v), MoveData(2, w)];
      DropPass(s, []) == [MoveData(0, u), Drop(0), MoveData(1, v), Drop(1), MoveData(2, w), Drop(2)]
  {
    var s := [MoveData(0, u), MoveData(1, v), MoveData(2, w)];
    var s2 := [MoveData(0, u), MoveData(1, v)];
    var s3 := [MoveData(0, u)];
    DropPassSingle(s3, [2, 1], 0);
    assert s3[..0] == [];
    var d3 := [MoveData(0, u), Drop(0)];
    assert DropPass(s3, [2, 1]) == d3;
    DropPassSingle(s2, [2], 1);
    assert s2[..1] == s3 && [2] + [1] == [2, 1];
    var d2 := d3 + [MoveData(1, v), Drop(1)];
    assert DropPass(s2, [2]) == d2;
    DropPassSingle(s, [], 2);
    assert s[..2] == s2 && [] + [2] == [2];
    assert DropPass(s, []) == d2 + [MoveData(2, w), Drop(2)];
  }

  lemma {:induction false} RemoveDropsAppend(a: seq<Instruction>, b: seq<Instruction>)
    ensures RemoveDrops(a + b) == RemoveDrops(a) + RemoveDrops(b)
    decreases |b|
  {
    if |b| > 0 {
      var b' := b[..|b| - 1];
      assert (a + b)[..|a + b| - 1] == a + b';
      RemoveDropsAppend(a, b');
    } else {
      assert a + b == a;
    }
  }

  lemma {:induction false} RemoveDropsOfDrops(s: seq<Instruction>)
    requires forall k :: 0 <= k < |s| ==> s[k].Drop?
    ensures RemoveDrops(s) == []
    decreases |s|
  {
    if |s| > 0 {
      RemoveDropsOfDrops(s[..|s| - 1]);
    }
  }

  lemma {:induction false} RemoveDropsOfNone(s: seq<Instruction>)
    requires NoDrops(s)
    ensures RemoveDrops(s) == s
    decreases |s|
  {
    if |s| > 0 {
      RemoveDropsOfNone(s[..|s| - 1]);
    }
  }

  /** The pass only inserts drops: with every drop taken out, the result is
      the input with every drop taken out, in the same order. */
  lemma {:induction false} DropPassOnlyInsertsDrops(instructions: seq<Instruction>, seen: seq<Uuid>)
    ensures RemoveDrops(DropPass(instructions, seen)) == RemoveDrops(instructions)
    decreases |instructions|
  {
    if |instructions| > 0 {
      var i := |instructions| - 1;
      var last := instructions[i];
      var unseen := Scan(GetObjects(last), seen);
      var rest := DropPass(instructions[..i], seen + unseen);
      var drops := DropsReversed(unseen);
      assert DropPass(instructions, seen) == rest + [last] + drops;
      RemoveDropsOfDrops(drops);
      DropPassOnlyInsertsDrops(instructions[..i], seen + unseen);
      assert [last][..0] == [];
      calc {
        RemoveDrops(rest + [last] + drops);
        { RemoveDropsAppend(rest + [last], drops); }
        RemoveDrops(rest + [last]) + RemoveDrops(drops);
        RemoveDrops(rest + [last]);
        { RemoveDropsAppend(rest, [last]); }
        RemoveDrops(rest) + RemoveDrops([last]);
        RemoveDrops(instructions[..i]) + RemoveDrops([last]);
        RemoveDrops(instructions);
      }
    }
  }

  lemma {:induction false} DropsReversedCount(unseen: seq<Uuid>, o: Uuid)
    requires Distinct(unseen)
    ensures multiset(DropsReversed(unseen))[Drop(o)] == if o in unseen then 1 else 0
    decreases |unseen|
  {
    if |unseen| > 0 {
      var n := |unseen| - 1;
      var front := unseen[..n];
      assert DropsReversed(unseen) == [Drop(unseen[n])] + DropsReversed(front);
      DropsReversedCount(front, o);
      assert unseen == front + [unseen[n]];
      assert unseen[n] !in front;
    }
  }

  /** With no drops to begin with, each object is dropped exactly once if
      the instructions mention it and `seen` does not hold it, and never
      otherwise. */
  lemma {:induction false} DropPassDropsOnce(instructions: seq<Instruction>, seen: seq<Uuid>, o: Uuid)
    requires NoDrops(instructions)
    ensures multiset(DropPass(instructions, seen))[Drop(o)] == if o in Mentioned(instructions) && o !in seen then 1 else 0
    decreases |instructions|
  {
    if |instructions| > 0 {
      var i := |instructions| - 1;
      var last := instructions[i];
      var unseen := Scan(GetObjects(last), seen);
      NoDropsPrefix(instructions, i);
      DropPassDropsOnce(instructions[..i], seen + unseen, o);
      UnseenDropCount(GetObjects(last), seen, o);
      DropPassLastCount(instructions, seen, o);
      MentionedLast(instructions, o);
    }
  }

  /** The drops inserted for one instruction hold one drop of `o` exactly
      when the instruction mentions `o` and `seen` does not hold it. */
  lemma UnseenDropCount(objs: seq<Uuid>, seen: seq<Uuid>, o: Uuid)
    ensures multiset(DropsReversed(Scan(objs, seen)))[Drop(o)] == if o in objs && o !in seen then 1 else 0
    ensures o in seen + Scan(objs, seen) <==> o in seen || o in objs
  {
    ScanFacts(objs, seen);
    DropsReversedCount(Scan(objs, seen), o);
  }

  lemma MentionedLast(instructions: seq<Instruction>, o: Uuid)
    requires |instructions| > 0
    ensures o in Mentioned(instructions) <==>
      o in Mentioned(instructions[..|instructions| - 1]) || o in GetObjects(instructions[|instructions| - 1])
  {
    var objs := GetObjects(instructions[|instructions| - 1]);
    assert o in Elements(objs) <==> o in objs;
  }

  /** The drops of `o` in the pass: those in the pass on all but the last
      instruction, plus those inserted after the last one. */
  lemma DropPassLastCount(instructions: seq<Instruction>, seen: seq<Uuid>, o: Uuid)
    requires |instructions| > 0 && !instructions[|instructions| - 1].Drop?
    ensures var i := |instructions| - 1;
      var unseen := Scan(GetObjects(instructions[i]), seen);
      multiset(DropPass(instructions, seen))[Drop(o)]
        == multiset(DropPass(instructions[..i], seen + unseen))[Drop(o)] + multiset(DropsReversed(unseen))[Drop(o)]
  {
    var i := |instructions| - 1;
    var unseen := Scan(GetObjects(instructions[i]), seen);
    var rest := DropPass(instructions[..i], seen + unseen);
    var drops := DropsReversed(unseen);
    DropPassLast(instructions, seen);
    assert multiset(rest + ([instructions[i]] + drops)) == multiset(rest) + multiset([instructions[i]]) + multiset(drops);
  }

  /** Every drop in `r` is of an object outside `seen`. */
  predicate DropsOutside(r: seq<Instruction>, seen: seq<Uuid>) {
    forall p :: 0 <= p < |r| && r[p].Drop? ==> r[p].obj !in seen
  }

  /** Once an object is dropped, no later instruction mentions it. */
  predicate NoUseAfterDrop(r: seq<Instruction>) {
    forall p, q :: 0 <= p < q < |r| && r[p].Drop? ==> r[p].obj !in GetObjects(r[q])
  }

  /** Every object `r` mentions is in `objects`. */
  predicate MentionsWithin(r: seq<Instruction>, objects: seq<Uuid>) {
    forall q, x :: 0 <= q < |r| && x in GetObjects(r[q]) ==> x in objects
  }

  /** The scanned instruction followed by the drops of its new objects. */
  lemma TailFacts(last: Instruction, seen: seq<Uuid>)
    requires !last.Drop?
    ensures var unseen := Scan(GetObjects(last), seen);
      var tail := [last] + DropsReversed(unseen);
      DropsOutside(tail, seen) && NoUseAfterDrop(tail) && MentionsWithin(tail, seen + unseen)
  {
    var unseen := Scan(GetObjects(last), seen);
    ScanFacts(GetObjects(last), seen);
    var n := |unseen|;
    var tail := [last] + DropsReversed(unseen);
    forall q | 0 < q < |tail|
      ensures tail[q] == Drop(unseen[n - q])
    {
    }
    forall p, q | 0 <= p < q < |tail| && tail[p].Drop?
      ensures tail[p].obj !in GetObjects(tail[q])
    {
      assert GetObjects(tail[q]) == [unseen[n - q]];
    }
    forall q, x | 0 <= q < |tail| && x in GetObjects(tail[q])
      ensures x in seen + unseen
    {
      if q > 0 {
        assert GetObjects(tail[q]) == [unseen[n - q]];
      }
    }
  }

  lemma JoinNoUseAfterDrop(a: seq<Instruction>, b: seq<Instruction>, objects: seq<Uuid>)
    requires NoUseAfterDrop(a) && NoUseAfterDrop(b)
    requires DropsOutside(a, objects) && MentionsWithin(b, objects)
    ensures NoUseAfterDrop(a + b)
  {
    var r := a + b;
    forall p, q | 0 <= p < q < |r| && r[p].Drop?
      ensures r[p].obj !in GetObjects(r[q])
    {
      if q < |a| {
        assert r[p] == a[p] && r[q] == a[q];
      } else if p < |a| {
        assert r[p] == a[p] && r[q] == b[q - |a|];
      } else {
        assert r[p] == b[p - |a|] && r[q] == b[q - |a|];
      }
    }
  }

  lemma JoinDropsOutside(a: seq<Instruction>, b: seq<Instruction>, seen: seq<Uuid>, more: seq<Uuid>)
    requires DropsOutside(a, seen + more) && DropsOutside(b, seen)
    ensures DropsOutside(a + b, seen)
  {
    var r := a + b;
    forall p | 0 <= p < |r| && r[p].Drop?
      ensures r[p].obj !in seen
    {
      if p < |a| {
        assert r[p] == a[p];
      } else {
        assert r[p] == b[p - |a|];
      }
    }
  }

  /** With no drops to begin with, every object dropped is outside `seen`,
      and once an object is dropped no later instruction mentions it. */
  lemma {:induction false} DropPassNoUseAfterDrop(instructions: seq<Instruction>, seen: seq<Uuid>)
    requires NoDrops(instructions)
    ensures var r := DropPass(instructions, seen);
      DropsOutside(r, seen) && NoUseAfterDrop(r)
    decreases |instructions|
  {
    if |instructions| > 0 {
      var i := |instructions| - 1;
      var last := instructions[i];
      var unseen := Scan(GetObjects(last), seen);
      var rest := DropPass(instructions[..i], seen + unseen);
      var tail := [last] + DropsReversed(unseen);
      DropPassLast(instructions, seen);
      NoDropsPrefix(instructions, i);
      DropPassNoUseAfterDrop(instructions[..i], seen + unseen);
      TailFacts(last, seen);
      JoinNoUseAfterDrop(rest, tail, seen + unseen);
      JoinDropsOutside(rest, tail, seen, unseen);
    }
  }

  /** The pass on a non-empty list: the pass on all but the last
      instruction, then the last instruction and the drops of its new
      objects. */
  lemma DropPassLast(instructions: seq<Instruction>, seen: seq<Uuid>)
    requires |instructions| > 0
    ensures var i := |instructions| - 1;
      var unseen := Scan(GetObjects(instructions[i]), seen);
      DropPass(instructions, seen)
        == DropPass(instructions[..i], seen + unseen) + ([instructions[i]] + DropsReversed(unseen))
  {
  }

  lemma NoDropsPrefix(instructions: seq<Instruction>, i: nat)
    requires NoDrops(instructions) && i <= |instructions|
    ensures NoDrops(instructions[..i])
  {
    assert forall k :: 0 <= k < i ==> instructions[..i][k] == instructions[k];
  }

  lemma DropsReversedPush(unseen: seq<Uuid>, o: Uuid)
    ensures DropsReversed(unseen + [o]) == [Drop(o)] + DropsReversed(unseen)
  {
  }

  /** One more object scanned by the inner loop. */
  lemma ScanStep(objs: seq<Uuid>, j: nat, seen: seq<Uuid>)
    requires j < |objs|
    ensures var before := Scan(objs[..j], seen);
      Scan(objs[..j + 1], seen) == if objs[j] in seen + before then before else before + [objs[j]]
  {
    assert objs[..j + 1][..j] == objs[..j];
  }

  /** A drop inserted right after the instruction at `i` goes in front of
      the drops already inserted there. */
  lemma InsertStep(instructions: seq<Instruction>, i: nat, unseen: seq<Uuid>, o: Uuid)
    requires i < |instructions|
    ensures var r := instructions[..i + 1] + DropsReversed(unseen) + instructions[i + 1..];
      r[..i + 1] + [Drop(o)] + r[i + 1..] == instructions[..i + 1] + DropsReversed(unseen + [o]) + instructions[i + 1..]
  {
    var r := instructions[..i + 1] + DropsReversed(unseen) + instructions[i + 1..];
    assert r[..i + 1] == instructions[..i + 1];
    assert r[i + 1..] == DropsReversed(unseen) + instructions[i + 1..];
    DropsReversedPush(unseen, o);
  }

  /** The inner loop of `flatten` on the instruction at `i`: every object it
      mentions that is not yet known becomes known, and a drop of it is
      inserted right after the instruction. */
  method InsertDrops(instructions: seq<Instruction>, i: nat, objects: seq<Uuid>)
    returns (r: seq<Instruction>, objects': seq<Uuid>)
    requires i < |instructions|
    ensures r == DropAfter(instructions, i, objects).0
    ensures objects' == DropAfter(instructions, i, objects).1
  {
    r, objects' := instructions, objects;
    var objs := GetObjects(instructions[i]);
    assert objs[..0] == [];
    assert instructions[..i + 1] + [] + instructions[i + 1..] == instructions;
    for j := 0 to |objs|
      invariant objects' == objects + Scan(objs[..j], objects)
      invariant r == instructions[..i + 1] + DropsReversed(Scan(objs[..j], objects)) + instructions[i + 1..]
    {
      var o := objs[j];
      ScanStep(objs, j, objects);
      if o !in objects' {
        InsertStep(instructions, i, Scan(objs[..j], objects), o);
        objects' := objects' + [o];
        r := r[..i + 1] + [Drop(o)] + r[i + 1..];
      }
    }
    assert objs[..|objs|] == objs;
  }

  /** One step of the loop as written. */
  lemma AsWrittenStep(instructions: seq<Instruction>, objects: seq<Uuid>, k: nat, length: nat)
    requires 1 <= k < length <= |instructions|
    ensures var next := DropAfter(instructions, |instructions| - k, objects);
      length <= |next.0|
      && AsWrittenFrom(instructions, objects, k, length) == AsWrittenFrom(next.0, next.1, k + 1, length)
  {
  }

  /** The drop pass of `flatten` as written: `length - 1` steps, the scanned
      index taken from the current length. */
  method DropPassAsWritten(instructions: seq<Instruction>) returns (r: seq<Instruction>)
    ensures r == FlattenAsWritten(instructions)
  {
    r := instructions;
    var objects: seq<Uuid> := [];
    var length := |instructions|;
    var k := 1;
    while k < length
      invariant 1 <= k && length <= |r|
      invariant AsWrittenFrom(r, objects, k, length) == FlattenAsWritten(instructions)
      decreases length - k
    {
      AsWrittenStep(r, objects, k, length);
      var r', objects' := InsertDrops(r, |r| - k, objects);
      r, objects, k := r', objects', k + 1;
    }
    assert AsWrittenFrom(r, objects, k, length) == r;
  }

  /** One step of the intended pass: the scanned instruction and its drops
      move from the part still to scan to the part already done. */
  lemma DropPassStep(instructions: seq<Instruction>, r: seq<Instruction>, i: nat, objects: seq<Uuid>)
    requires i < |instructions| && i < |r| && r[..i + 1] == instructions[..i + 1]
    ensures var next := DropAfter(r, i, objects);
      next.0[..i] == instructions[..i]
      && DropPass(instructions[..i], next.1) + next.0[i..] == DropPass(instructions[..i + 1], objects) + r[i + 1..]
  {
    assert r[i] == instructions[i] by {
      assert r[..i + 1][i] == instructions[..i + 1][i];
    }
    var unseen := Scan(GetObjects(instructions[i]), objects);
    var next := DropAfter(r, i, objects);
    assert instructions[..i + 1][..i] == instructions[..i];
    assert next.0[..i] == next.0[..i + 1][..i];
    assert next.0[i..] == [instructions[i]] + DropsReversed(unseen) + r[i + 1..];
  }

  /** The intended drop pass: every instruction of the lowered line is
      scanned, from the last to the first. Drops are inserted after the
      scanned index, so it still names the same instruction. */
  method DropUnusedObjects(instructions: seq<Instruction>) returns (r: seq<Instruction>)
    ensures r == DropPass(instructions, [])
  {
    r := instructions;
    var objects: seq<Uuid> := [];
    var i := |instructions|;
    assert instructions[..i] == instructions && r[i..] == [];
    while i > 0
      invariant i <= |instructions| && i <= |r|
      invariant r[..i] == instructions[..i]
      invariant DropPass(instructions[..i], objects) + r[i..] == DropPass(instructions, [])
      decreases i
    {
      i := i - 1;
      DropPassStep(instructions, r, i, objects);
      r, objects := InsertDrops(r, i, objects);
    }
  }

  /** A line lowered and then passed through the intended drop pass, with
      the context and the id supply lowering leaves. */
  function FlattenLine(line: Node, c: ContextState, next: nat): (r: Outcome<Lowering.Lowered>)
    ensures r.Ok? <==> Lowering.Lower(line, c, next).Ok?
  {
    var lowered :- Lowering.Lower(line, c, next);
    Ok(lowered.(instructions := DropPass(lowered.instructions, [])))
  }

  /** What `flatten` promises of a lowered line: the lowered instructions in
      their order once the drops are taken out, exactly one drop of every
      object they mention and of nothing else, and no object mentioned
      after its drop. */
  lemma FlattenLineDrops(line: Node, c: ContextState, next: nat, o: Uuid)
    requires FlattenLine(line, c, next).Ok?
    ensures var lowered := Lowering.Lower(line, c, next).value.instructions;
      var r := FlattenLine(line, c, next).value.instructions;
      RemoveDrops(r) == lowered
      && multiset(r)[Drop(o)] == (if o in Mentioned(lowered) then 1 else 0)
      && NoUseAfterDrop(r)
  {
    var lowered := Lowering.Lower(line, c, next).value.instructions;
    LoweringProperties.LowerExtends(line, c, next);
    DropPassOnlyInsertsDrops(lowered, []);
    RemoveDropsOfNone(lowered);
    DropPassDropsOnce(lowered, [], o);
    DropPassNoUseAfterDrop(lowered, []);
  }

  /** `flatten`: the line's instructions are generated, then the objects
      are dropped after their last use. */
  method Flatten(line: Node, context: Contexts.BackendContext, ids: Generation.IdSupply)
    returns (r: Outcome<seq<Instruction>>)
    modifies context, ids
    ensures var f := FlattenLine(line, old(Generation.StateOf(context)), old(ids.next));
      (r.Ok? <==> f.Ok?)
      && (r.Ok? ==> r.value == f.value.instructions
                    && Generation.StateOf(context) == f.value.context && ids.next == f.value.next)
  {
    var generated := Generation.Generate(line, context, ids);
    if !generated.Ok? {
      return if generated.Panic? then Panic(generated.reason) else Diverged;
    }
    var instructions := DropUnusedObjects(generated.value.0);
    return Ok(instructions);
  }
}
