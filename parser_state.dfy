// The state the parser functions share, after compiler/parser/parser_meta.rs
// and the `&mut` parameters that parse_line.rs, parse_expression_kind.rs and
// modifier.rs thread through each other: the token cursor, the code-block
// depth and the stack of blocks under construction. The read-only inputs
// (tokens, statements, datatypes, file number) are kept apart from them.
//
// Every parser is modelled twice: a function from the input and a
// `ParseState` to an outcome and the new state, which the lemmas reason
// about, and a method on `ParserMeta` that updates the fields step by step
// and is proved to agree with it. The parser can loop forever on some
// inputs, so the state carries a step budget (`fuel`): every parsing call
// and every loop iteration spends one step, and an exhausted budget yields
// `Diverged`.

module ParserState {
  import opened Wrappers
  import opened Tokens
  import opened Nodes
  import Objects
  import Statements

  /** A `CodeBlockNode` while lines are being pushed into it. */
  datatype Block = Block(position: NodePosition, blockLabel: Option<string>, code: seq<Node>)

  /** The finished block as a node. */
  function BlockNode(b: Block): (r: Node)
    ensures r.CodeBlockNode? && r.position == b.position && r.blockLabel == b.blockLabel && r.code == b.code
  {
    CodeBlockNode(b.position, b.blockLabel, b.code)
  }

  /** What the parser reads but never changes. */
  datatype ParserInput = ParserInput(
    tokens: seq<Token>,
    statements: seq<Statements.Statement>,
    datatypes: seq<Objects.ObjectType>,
    fileNumber: nat)

  /** What the parser changes: `cursor`, `code_block_depth`, `blocks`, and
      the step budget of the model. */
  datatype ParseState = ParseState(cursor: nat, depth: nat, blocks: seq<Block>, fuel: nat)

  const OutOfBounds: string := Statements.OutOfBounds
  const Unwrapped: string := Statements.Unwrapped
  /** The panic of an unsigned subtraction below zero. */
  const Underflow: string := "attempt to subtract with overflow"

  /** A method's result and final state agree with a parsing function: the
      same value and state on success, the same panic, or divergence. After
      a panic the state is not observable. */
  predicate Agrees<T(==)>(r: Outcome<T>, spec: Outcome<(T, ParseState)>, now: ParseState) {
    match spec
    case Ok(result) => r == Ok(result.0) && now == result.1
    case Panic(reason) => r == Panic(reason)
    case Diverged => r == Diverged
  }

  /** `tokens[i]`, which panics out of range. */
  function TokenAt(tokens: seq<Token>, i: int): (r: Outcome<Token>)
    ensures r.Ok? <==> 0 <= i < |tokens|
    ensures r.Ok? ==> r.value == tokens[i]
    ensures r.Panic? ==> r.reason == OutOfBounds
  {
    if 0 <= i < |tokens| then Ok(tokens[i]) else Panic(OutOfBounds)
  }

  /** One step of the budget. */
  function Tick(s: ParseState): (r: Outcome<ParseState>)
    ensures r.Diverged? <==> s.fuel == 0
    ensures !r.Panic?
    ensures r.Ok? ==> r.value == s.(fuel := s.fuel - 1)
  {
    if s.fuel == 0 then Diverged else Ok(s.(fuel := s.fuel - 1))
  }

  /** `blocks[idx].push_code(node)`: `node` is appended to block `idx` and
      nothing else changes. */
  function PushCode(s: ParseState, idx: nat, node: Node): (r: Outcome<ParseState>)
    ensures r.Ok? <==> idx < |s.blocks|
    ensures r.Panic? ==> r.reason == OutOfBounds
    ensures r.Ok? ==> r.value.cursor == s.cursor && r.value.depth == s.depth && r.value.fuel == s.fuel
    ensures r.Ok? ==> (|r.value.blocks| == |s.blocks|
                       && r.value.blocks[idx] == s.blocks[idx].(code := s.blocks[idx].code + [node])
                       && forall j :: 0 <= j < |s.blocks| && j != idx ==> r.value.blocks[j] == s.blocks[j])
  {
    if idx < |s.blocks| then
      var b := s.blocks[idx];
      Ok(s.(blocks := s.blocks[idx := b.(code := b.code + [node])]))
    else Panic(OutOfBounds)
  }

  /** The parser state as an object: the fields the parsing methods update
      in place, and the input they share. */
  class ParserMeta {
    const input: ParserInput
    var cursor: nat
    var depth: nat
    var blocks: seq<Block>
    var fuel: nat

    /** A parser at the first token, outside any block, with no block under
        construction. */
    constructor (input: ParserInput, fuel: nat)
      ensures this.input == input && State() == ParseState(0, 0, [], fuel)
    {
      this.input := input;
      cursor := 0;
      depth := 0;
      blocks := [];
      this.fuel := fuel;
    }

    function State(): ParseState
      reads this
    {
      ParseState(cursor, depth, blocks, fuel)
    }

    /** Spends one step of the budget; `false` when it is exhausted. */
    method Spend() returns (ok: bool)
      modifies this
      ensures ok <==> old(fuel) > 0
      ensures ok ==> State() == old(State()).(fuel := old(fuel) - 1)
      ensures !ok ==> State() == old(State())
    {
      ok := fuel > 0;
      if ok {
        fuel := fuel - 1;
      }
    }

    /** `blocks[idx].push_code(node)` in place. */
    method Push(idx: nat, node: Node) returns (ok: bool)
      modifies this
      ensures ok <==> idx < |old(blocks)|
      ensures ok ==> Ok(State()) == PushCode(old(State()), idx, node)
    {
      ok := idx < |blocks|;
      if ok {
        var b := blocks[idx];
        blocks := blocks[idx := b.(code := b.code + [node])];
      }
    }
  }
}
