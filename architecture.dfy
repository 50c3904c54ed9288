// Model of compiler/backend/arch/mod.rs: the register allocator of the back
// end. An `Architecture` owns its register map: the registers with the
// object each one holds, and the stack slots of the objects spilled out of
// them.

module Architectures {
  import opened Wrappers
  import opened Objects
  import opened Registers
  import Assembly

  /** The index of the first register that holds nothing. */
  function FirstEmpty(registers: seq<(Register, Option<Uuid>)>): (r: Option<nat>)
    ensures r.Some? ==> (r.value < |registers| && registers[r.value].1.None?
      && forall j :: 0 <= j < r.value ==> registers[j].1.Some?)
    ensures r.None? ==> forall j :: 0 <= j < |registers| ==> registers[j].1.Some?
  {
    if |registers| == 0 then None
    else if registers[0].1.None? then Some(0)
    else
      var rest := FirstEmpty(registers[1..]);
      if rest.Some? then Some(rest.value + 1) else None
  }

  /** A register that may be spilled: it holds an object that is not to be
      preserved, and it is a general-purpose register. */
  predicate Spillable(registers: seq<(Register, Option<Uuid>)>, ignoring: seq<Uuid>, i: nat)
    requires i < |registers|
  {
    registers[i].1.Some? && registers[i].1.value !in ignoring && registers[i].0.kind.GeneralPurpose?
  }

  /** The index of the first register that may be spilled. */
  function FirstSpillable(registers: seq<(Register, Option<Uuid>)>, ignoring: seq<Uuid>): (r: Option<nat>)
    ensures r.Some? ==> (r.value < |registers| && Spillable(registers, ignoring, r.value)
      && forall j :: 0 <= j < r.value ==> !Spillable(registers, ignoring, j))
    ensures r.None? ==> forall j :: 0 <= j < |registers| ==> !Spillable(registers, ignoring, j)
  {
    if |registers| == 0 then None
    else if Spillable(registers, ignoring, 0) then Some(0)
    else
      var rest := FirstSpillable(registers[1..], ignoring);
      assert forall j :: 1 <= j < |registers| ==>
        (Spillable(registers, ignoring, j) <==> Spillable(registers[1..], ignoring, j - 1));
      if rest.Some? then Some(rest.value + 1) else None
  }

  /** The index of the first register holding `id`. */
  function Holder(registers: seq<(Register, Option<Uuid>)>, id: Uuid): (r: Option<nat>)
    ensures r.Some? ==> (r.value < |registers| && registers[r.value].1 == Some(id)
      && forall j :: 0 <= j < r.value ==> registers[j].1 != Some(id))
    ensures r.None? ==> forall j :: 0 <= j < |registers| ==> registers[j].1 != Some(id)
  {
    if |registers| == 0 then None
    else if registers[0].1 == Some(id) then Some(0)
    else
      var rest := Holder(registers[1..], id);
      if rest.Some? then Some(rest.value + 1) else None
  }

  /** The index of the first entry for the register `register` (the source
      compares register descriptions by value). */
  function PositionOf(registers: seq<(Register, Option<Uuid>)>, register: Register): (r: Option<nat>)
    ensures r.Some? ==> (r.value < |registers| && registers[r.value].0 == register
      && forall j :: 0 <= j < r.value ==> registers[j].0 != register)
    ensures r.None? ==> forall j :: 0 <= j < |registers| ==> registers[j].0 != register
  {
    if |registers| == 0 then None
    else if registers[0].0 == register then Some(0)
    else
      var rest := PositionOf(registers[1..], register);
      if rest.Some? then Some(rest.value + 1) else None
  }

  /** Every recorded stack slot lies below the next free offset. */
  predicate SlotsBelowOffset(stack: map<Uuid, nat>, stackOffset: nat) {
    forall o :: o in stack ==> stack[o] < stackOffset
  }

  /** Every register occupies at least one byte of stack when spilled. */
  predicate RegistersSized(registers: seq<(Register, Option<Uuid>)>) {
    forall i :: 0 <= i < |registers| ==> registers[i].0.sizeBytes > 0
  }

  /** A register handed out by the allocator, the instructions that make it
      usable, and the register map afterwards. */
  datatype Allocation = Allocation(
    register: Register,
    instructions: seq<Assembly.AssemblyInstruction>,
    registers: seq<(Register, Option<Uuid>)>,
    stack: map<Uuid, nat>,
    stackOffset: nat)

  /** What `provide_empty_register` does to the register map: the first
      empty register, taken as it is; failing that, the first
      general-purpose register whose object is not to be preserved, freed
      after storing its object on the stack (in the slot it already has, or
      in a new slot at the end of the stack); with neither, a panic. */
  function Provide(registers: seq<(Register, Option<Uuid>)>, stack: map<Uuid, nat>, stackOffset: nat,
                   ignoring: seq<Uuid>): (r: Outcome<Allocation>)
    ensures !r.Diverged?
    ensures r.Ok? ==> |r.value.instructions| <= 1 && |r.value.registers| == |registers|
    ensures r.Ok? ==> stackOffset <= r.value.stackOffset && stack.Keys <= r.value.stack.Keys
  {
    match FirstEmpty(registers)
    case Some(e) => Ok(Allocation(registers[e].0, [], registers, stack, stackOffset))
    case None =>
      match FirstSpillable(registers, ignoring)
      case None => Panic("No register found")
      case Some(i) =>
        var register := registers[i].0;
        var held := registers[i].1.value;
        var freed := registers[i := (register, None)];
        if held in stack then
          Ok(Allocation(register, [Assembly.StackStore(register, stack[held])], freed, stack, stackOffset))
        else
          Ok(Allocation(register, [Assembly.StackStore(register, stackOffset)], freed,
                        stack[held := stackOffset], stackOffset + register.sizeBytes))
  }

  /** What `get_object` does to the register map: an object already in a
      register is found there at no cost. Otherwise a register is made free;
      an object that lives on the stack is loaded into it (without the
      register being recorded as holding it), and a new object is recorded
      in the first entry for that register. */
  function Get(registers: seq<(Register, Option<Uuid>)>, stack: map<Uuid, nat>, stackOffset: nat,
               id: Uuid, preserving: seq<Uuid>): (r: Outcome<Allocation>)
    ensures !r.Diverged?
    ensures r.Ok? ==> |r.value.instructions| <= 2 && |r.value.registers| == |registers|
    ensures r.Ok? ==> stackOffset <= r.value.stackOffset && stack.Keys <= r.value.stack.Keys
  {
    match Holder(registers, id)
    case Some(h) => Ok(Allocation(registers[h].0, [], registers, stack, stackOffset))
    case None =>
      var provided := Provide(registers, stack, stackOffset, preserving);
      if !provided.Ok? then provided
      else
        var a := provided.value;
        if id in a.stack then
          Ok(a.(instructions := a.instructions + [Assembly.StackLoad(a.register, a.stack[id])]))
        else
          match PositionOf(a.registers, a.register)
          case None => Panic("called `Option::unwrap()` on a `None` value")
          case Some(index) =>
            Ok(a.(registers := a.registers[index := (a.registers[index].0, Some(id))]))
  }

  /** The allocator panics exactly when every register is full and none of
      them may be spilled; it never fails to terminate. */
  lemma ProvidePanics(registers: seq<(Register, Option<Uuid>)>, stack: map<Uuid, nat>, stackOffset: nat,
                      ignoring: seq<Uuid>)
    ensures Provide(registers, stack, stackOffset, ignoring).Panic?
        <==> (forall j :: 0 <= j < |registers| ==> registers[j].1.Some?)
             && (forall j :: 0 <= j < |registers| ==> !Spillable(registers, ignoring, j))
    ensures !Provide(registers, stack, stackOffset, ignoring).Diverged?
  {
    if FirstEmpty(registers).None? && FirstSpillable(registers, ignoring).Some? {
      var i := FirstSpillable(registers, ignoring).value;
      assert Spillable(registers, ignoring, i);
    }
  }

  /** The register handed out is empty afterwards, and it is the only
      entry whose contents changed. Only an object that may be spilled (a
      general-purpose register's object outside `ignoring`) leaves its
      register; no entry changes its register description. */
  lemma ProvideFrees(registers: seq<(Register, Option<Uuid>)>, stack: map<Uuid, nat>, stackOffset: nat,
                     ignoring: seq<Uuid>)
    requires Provide(registers, stack, stackOffset, ignoring).Ok?
    ensures var a := Provide(registers, stack, stackOffset, ignoring).value;
      |a.registers| == |registers|
      && (exists k :: 0 <= k < |registers| && a.registers[k] == (a.register, None)
            && forall j :: 0 <= j < |registers| && j != k ==> a.registers[j] == registers[j])
      && (forall j :: 0 <= j < |registers| ==> a.registers[j].0 == registers[j].0)
      && (forall j :: 0 <= j < |registers| && a.registers[j] != registers[j] ==>
            Spillable(registers, ignoring, j))
  {
    var a := Provide(registers, stack, stackOffset, ignoring).value;
    match FirstEmpty(registers)
    case Some(e) =>
      assert a.registers[e] == (a.register, None);
    case None =>
      var i := FirstSpillable(registers, ignoring).value;
      assert a.registers[i] == (a.register, None);
  }

  /** The stack only grows: existing slots keep their offsets, the next
      free offset never decreases, and with registers of positive size
      every slot stays below it. A spilled object can be found in its slot. */
  lemma ProvideStack(registers: seq<(Register, Option<Uuid>)>, stack: map<Uuid, nat>, stackOffset: nat,
                     ignoring: seq<Uuid>)
    requires Provide(registers, stack, stackOffset, ignoring).Ok?
    ensures var a := Provide(registers, stack, stackOffset, ignoring).value;
      a.stackOffset >= stackOffset
      && (forall o :: o in stack ==> o in a.stack && a.stack[o] == stack[o])
      && (SlotsBelowOffset(stack, stackOffset) && RegistersSized(registers) ==>
            SlotsBelowOffset(a.stack, a.stackOffset) && RegistersSized(a.registers))
      && (a.instructions != [] ==>
            exists o :: o in a.stack && a.instructions == [Assembly.StackStore(a.register, a.stack[o])]
                        && Some(o) in FreedObjects(registers, a.registers))
  {
    var a := Provide(registers, stack, stackOffset, ignoring).value;
    if FirstEmpty(registers).None? {
      var i := FirstSpillable(registers, ignoring).value;
      var held := registers[i].1.value;
      assert a.registers[i].1 == None;
      assert Some(held) in FreedObjects(registers, a.registers);
      assert held in a.stack && a.instructions == [Assembly.StackStore(a.register, a.stack[held])];
    }
  }

  /** The objects whose register entry changed. */
  function FreedObjects(before: seq<(Register, Option<Uuid>)>, after: seq<(Register, Option<Uuid>)>): set<Option<Uuid>>
    requires |before| == |after|
  {
    set j | 0 <= j < |before| && before[j] != after[j] :: before[j].1
  }

  /** An object already held is returned from its register with nothing to
      do; otherwise the lookup panics exactly when the allocator does. */
  lemma GetOutcome(registers: seq<(Register, Option<Uuid>)>, stack: map<Uuid, nat>, stackOffset: nat,
                   id: Uuid, preserving: seq<Uuid>)
    ensures Holder(registers, id).Some? ==>
      Get(registers, stack, stackOffset, id, preserving)
        == Ok(Allocation(registers[Holder(registers, id).value].0, [], registers, stack, stackOffset))
    ensures Holder(registers, id).None? ==>
      (Get(registers, stack, stackOffset, id, preserving).Panic? <==> Provide(registers, stack, stackOffset, preserving).Panic?)
    ensures !Get(registers, stack, stackOffset, id, preserving).Diverged?
  {
    if Holder(registers, id).None? && Provide(registers, stack, stackOffset, preserving).Ok? {
      ProvideFrees(registers, stack, stackOffset, preserving);
      var a := Provide(registers, stack, stackOffset, preserving).value;
      var k :| 0 <= k < |registers| && a.registers[k] == (a.register, None);
      assert a.registers[k].0 == a.register;
    }
    ProvidePanics(registers, stack, stackOffset, preserving);
  }

  /** After a successful lookup of an object no register held, either the
      object lives on the stack and the last instruction loads it from its
      slot into the returned register, or the returned register is now
      recorded as its holder. */
  lemma GetPlacesObject(registers: seq<(Register, Option<Uuid>)>, stack: map<Uuid, nat>, stackOffset: nat,
                        id: Uuid, preserving: seq<Uuid>)
    requires Holder(registers, id).None?
    requires Get(registers, stack, stackOffset, id, preserving).Ok?
    ensures var g := Get(registers, stack, stackOffset, id, preserving).value;
      (id in stack ==>
         |g.instructions| >= 1 && g.instructions[|g.instructions| - 1] == Assembly.StackLoad(g.register, stack[id])
         && Holder(g.registers, id).None?)
      && (id !in stack ==>
         Holder(g.registers, id).Some? && g.registers[Holder(g.registers, id).value].0 == g.register)
  {
    ProvideFrees(registers, stack, stackOffset, preserving);
    ProvideStack(registers, stack, stackOffset, preserving);
    var a := Provide(registers, stack, stackOffset, preserving).value;
    assert forall j :: 0 <= j < |a.registers| ==> a.registers[j].1 != Some(id);
    if id !in a.stack {
      var index := PositionOf(a.registers, a.register).value;
      ClaimedHolder(a.registers, index, id);
    }
  }

  /** Recording an object that no register held in one entry makes that
      entry its holder. */
  lemma ClaimedHolder(registers: seq<(Register, Option<Uuid>)>, index: nat, id: Uuid)
    requires index < |registers|
    requires forall j :: 0 <= j < |registers| ==> registers[j].1 != Some(id)
    ensures Holder(registers[index := (registers[index].0, Some(id))], id) == Some(index)
  {
    var claimed := registers[index := (registers[index].0, Some(id))];
    assert claimed[index].1 == Some(id);
    assert forall j :: 0 <= j < index ==> claimed[j].1 == registers[j].1;
  }

  class Architecture {
    const name: string

    /** `register_map.registers`: every register and the object it holds. */
    var registers: seq<(Register, Option<Uuid>)>

    /** `register_map.scratch_register`. */
    var scratchRegister: nat

    /** `register_map.stack_offset`: where the next spilled object goes. */
    var stackOffset: nat

    /** `register_map.stack`: the stack offset of every spilled object. */
    var stack: map<Uuid, nat>

    constructor (name: string, registers: seq<(Register, Option<Uuid>)>, scratchRegister: nat, stackOffset: nat,
                 stack: map<Uuid, nat>)
      ensures this.name == name && this.registers == registers && this.scratchRegister == scratchRegister
      ensures this.stackOffset == stackOffset && this.stack == stack
    {
      this.name := name;
      this.registers := registers;
      this.scratchRegister := scratchRegister;
      this.stackOffset := stackOffset;
      this.stack := stack;
    }

    /** `provide_empty_register`, as the register-map transition `Provide`. */
    method ProvideEmptyRegister(ignoring: seq<Uuid>) returns (r: Outcome<(Register, seq<Assembly.AssemblyInstruction>)>)
      modifies this
      ensures var p := Provide(old(registers), old(stack), old(stackOffset), ignoring);
        (p.Ok? ==> r == Ok((p.value.register, p.value.instructions)) && registers == p.value.registers
                   && stack == p.value.stack && stackOffset == p.value.stackOffset)
        && (!p.Ok? ==> r.Panic? && p.Panic? && r.reason == p.reason
                       && registers == old(registers) && stack == old(stack) && stackOffset == old(stackOffset))
    {
      var snapshot := registers;
      for i := 0 to |snapshot|
        invariant forall j :: 0 <= j < i ==> snapshot[j].1.Some?
      {
        if snapshot[i].1.None? {
          assert FirstEmpty(snapshot) == Some(i);
          return Ok((snapshot[i].0, []));
        }
      }

      for i := 0 to |registers|
        invariant registers == snapshot
        invariant forall j :: 0 <= j < i ==> !Spillable(registers, ignoring, j)
      {
        var register := registers[i];
        if register.1.value in ignoring {
          continue;
        }
        if register.0.kind.GeneralPurpose? {
          assert Spillable(snapshot, ignoring, i);
          assert FirstSpillable(snapshot, ignoring) == Some(i);
          var moveFunction: seq<Assembly.AssemblyInstruction>;
          if register.1.value in stack {
            moveFunction := [Assembly.StackStore(register.0, stack[register.1.value])];
          } else {
            stack := stack[register.1.value := stackOffset];
            moveFunction := [Assembly.StackStore(register.0, stackOffset)];
            stackOffset := stackOffset + register.0.sizeBytes;
          }
          registers := registers[i := (register.0, None)];
          return Ok((register.0, moveFunction));
        }
      }
      return Panic("No register found");
    }

    /** `get_object`, as the register-map transition `Get`. */
    method GetObject(id: Uuid, preserving: seq<Uuid>) returns (r: Outcome<(Register, seq<Assembly.AssemblyInstruction>)>)
      modifies this
      ensures var g := Get(old(registers), old(stack), old(stackOffset), id, preserving);
        (g.Ok? ==> r == Ok((g.value.register, g.value.instructions)) && registers == g.value.registers
                   && stack == g.value.stack && stackOffset == g.value.stackOffset)
        && (!g.Ok? ==> r.Panic? && g.Panic? && r.reason == g.reason)
    {
      var snapshot := registers;
      for i := 0 to |snapshot|
        invariant forall j :: 0 <= j < i ==> snapshot[j].1 != Some(id)
      {
        if snapshot[i].1 == Some(id) {
          assert Holder(snapshot, id) == Some(i);
          return Ok((snapshot[i].0, []));
        }
      }
      assert Holder(snapshot, id).None?;

      var provided := ProvideEmptyRegister(preserving);
      if provided.Panic? {
        return Panic(provided.reason);
      }
      var instructions := provided.value.1;
      var resultRegister := provided.value.0;

      if id in stack {
        instructions := instructions + [Assembly.StackLoad(resultRegister, stack[id])];
      } else {
        var index := PositionOf(registers, resultRegister);
        if index.None? {
          return Panic("called `Option::unwrap()` on a `None` value");
        }
        registers := registers[index.value := (registers[index.value].0, Some(id))];
      }
      r := Ok((resultRegister, instructions));
    }
  }
}
