// Model of the mutually recursive core of the parser:
// compiler/parser/parse_line.rs (one logical line), parse_expression_kind.rs
// (one expected element of a statement or modifier, including whole code
// blocks) and `modifier_from` of modifier.rs. A code block parses lines
// until its closing brace brings the depth back down, and a line may open
// code blocks of its own, so the four call each other.
//
// As in the rest of the parser model, each is a function on the parser
// state here, with a step budget, and a method on `ParserMeta` below that
// updates the state in place and is proved to agree with it.

module LineParsing {
  import opened Wrappers
  import opened Tokens
  import opened Nodes
  import opened ParserState
  import EK = ExpressionKinds
  import opened Modifiers
  import Statements
  import Config
  import ArithmeticParsing
  import ArgArrays
  import DatatypeParsing

  const ExpectedBracket: string := "not yet implemented: expected bracket to start code block"
  const ExpectedString: string := "not yet implemented: Expected string literal"

  /** Depth and blocks as they were; some budget spent. */
  predicate Framed(s: ParseState, s': ParseState) {
    s'.depth == s.depth && s'.blocks == s.blocks && s'.fuel < s.fuel
  }

  /** Block `b'` is block `b` with code appended. */
  predicate Extends(b: Block, b': Block) {
    b'.position == b.position && b'.blockLabel == b.blockLabel
    && |b.code| <= |b'.code| && b'.code[..|b.code|] == b.code
  }

  /** What a line may change in the blocks: only block `idx`, and only by
      appending to it. */
  predicate OnlyAppends(blocks: seq<Block>, blocks': seq<Block>, idx: nat) {
    |blocks'| == |blocks|
    && forall j :: 0 <= j < |blocks| ==> Extends(blocks[j], blocks'[j]) && (j != idx ==> blocks'[j] == blocks[j])
  }

  lemma ExtendsTransitive(a: Block, b: Block, c: Block)
    requires Extends(a, b) && Extends(b, c)
    ensures Extends(a, c)
  {
    assert c.code[..|a.code|] == c.code[..|b.code|][..|a.code|];
  }

  /** The node an element of kind `k` yields. */
  predicate Fits(n: Node, k: EK.ExpressionKind) {
    match k
    case Value => true
    case Assignment => n.AssignmentSymbolNode?
    case KeywordKind => false
    case IdentifierKind => n.IdentifierNode? && n.dataType.None?
    case CodeBlock => n.CodeBlockNode? && n.blockLabel.None?
    case ParameterDescriptorArray => n.ArgumentsNode?
    case StringLiteral => n.StringLiteralNode?
  }

  /** Every element of the format is required and yields a node. */
  predicate Yielding(kinds: EK.Format) {
    forall i :: 0 <= i < |kinds| ==> kinds[i].1 && kinds[i].0 != EK.KeywordKind
  }

  /** A modifier as `modifier_from` builds it: `extern` with its two string
      literals. */
  predicate WellFormedModifier(m: Modifier) {
    m.base == Config.Extern && |m.arguments| == 2
    && m.arguments[0].StringLiteralNode? && m.arguments[1].StringLiteralNode?
  }

  /** `Token::CodeBlockParenthesisClose` lowers the depth, which is
      unsigned. */
  function CloseBlock(s: ParseState): (r: Outcome<ParseState>)
    ensures r.Ok? <==> s.depth > 0
    ensures r.Ok? ==> r.value == s.(depth := s.depth - 1)
    ensures r.Panic? ==> r.reason == Underflow
  {
    if s.depth == 0 then Panic(Underflow) else Ok(s.(depth := s.depth - 1))
  }

  /** The newline-skipping loop at the end of `parse_line`: line ends are
      skipped, each `}` closes a block, and the loop stops at any other
      token, at the end of the tokens, or once the depth falls below
      `initial`. */
  function SkipNewlines(input: ParserInput, s: ParseState, initial: nat): (r: Outcome<ParseState>)
    ensures !r.Diverged?
    ensures r.Ok? ==> (r.value.blocks == s.blocks && r.value.fuel == s.fuel && r.value.cursor >= s.cursor
                       && r.value.depth <= s.depth)
    ensures r.Ok? && s.depth >= initial ==> r.value.depth + 1 >= initial
    ensures r.Ok? && r.value.depth >= initial ==> (r.value.cursor >= |input.tokens|
                                                   || (!ArithmeticParsing.IsLineDelimiting(input.tokens[r.value.cursor])
                                                       && !input.tokens[r.value.cursor].CodeBlockParenthesisClose?))
    decreases |input.tokens| - s.cursor, 0
  {
    if |input.tokens| <= s.cursor then Ok(s)
    else
      var token := input.tokens[s.cursor];
      if ArithmeticParsing.IsLineDelimiting(token) then
        SkipAfter(input, s.(cursor := s.cursor + 1), initial)
      else if token.CodeBlockParenthesisClose? then
        var s' :- CloseBlock(s);
        SkipAfter(input, s'.(cursor := s'.cursor + 1), initial)
      else Ok(s)
  }

  /** After one skipped token: stop if the depth fell below `initial`. */
  function SkipAfter(input: ParserInput, s: ParseState, initial: nat): (r: Outcome<ParseState>)
    ensures !r.Diverged?
    ensures r.Ok? ==> (r.value.blocks == s.blocks && r.value.fuel == s.fuel && r.value.cursor >= s.cursor
                       && r.value.depth <= s.depth)
    ensures r.Ok? && s.depth + 1 >= initial ==> r.value.depth + 1 >= initial
    ensures r.Ok? && r.value.depth >= initial ==> (r.value.cursor >= |input.tokens|
                                                   || (!ArithmeticParsing.IsLineDelimiting(input.tokens[r.value.cursor])
                                                       && !input.tokens[r.value.cursor].CodeBlockParenthesisClose?))
    decreases |input.tokens| - s.cursor, 1
  {
    if s.depth < initial then Ok(s) else SkipNewlines(input, s, initial)
  }

  /** `Modifier::modifier_from`: a modifier keyword at the cursor, then the
      arguments its format asks for. Any other token yields no modifier and
      leaves the cursor where it was. */
  function ModifierFrom(input: ParserInput, s: ParseState): (r: Outcome<(Option<Modifier>, ParseState)>)
    ensures r.Ok? ==> Framed(s, r.value.1)
    ensures r.Ok? && r.value.0.None? ==> r.value.1.cursor == s.cursor
    ensures r.Ok? && r.value.0.Some? ==> WellFormedModifier(r.value.0.value)
    decreases s.fuel, 0, 0
  {
    var s1 :- Tick(s);
    var token :- TokenAt(input.tokens, s1.cursor);
    if !token.KeywordType? || !KeywordIsModifier(token.keyword) then Ok((None, s1))
    else
      var modifier := Modifier(token.keyword, []);
      var format := GetFormat(modifier).value;
      var (arguments, s2) :- ParseMultiple(input, s1.(cursor := s1.cursor + 1), format, []);
      // The token under the cursor is shown on the way out.
      var _ :- TokenAt(input.tokens, s2.cursor);
      Ok((Some(modifier.(arguments := arguments)), s2))
  }

  /** The modifier loop at the start of `parse_line`: modifiers are read,
      and collected after `modifiers`, until none follows. */
  function ModifierLoop(input: ParserInput, s: ParseState, modifiers: seq<Modifier>)
    : (r: Outcome<(seq<Modifier>, ParseState)>)
    ensures r.Ok? ==> Framed(s, r.value.1)
    ensures r.Ok? ==> |r.value.0| >= |modifiers| && r.value.0[..|modifiers|] == modifiers
    ensures r.Ok? ==> forall i :: |modifiers| <= i < |r.value.0| ==> WellFormedModifier(r.value.0[i])
    decreases s.fuel, 1, 0
  {
    var (m, s1) :- ModifierFrom(input, s);
    if m.None? then Ok((modifiers, s1))
    else
      // The token under the cursor is shown after each modifier.
      var _ :- TokenAt(input.tokens, s1.cursor);
      var r := ModifierLoop(input, s1, modifiers + [m.value]);
      assert r.Ok? ==> r.value.0[..|modifiers|] == (modifiers + [m.value])[..|modifiers|];
      r
  }

  /** `parse_multiple_expression_kinds`: the elements of `kinds` in order,
      their nodes appended to those collected so far, `nodes`. */
  function ParseMultiple(input: ParserInput, s: ParseState, kinds: EK.Format, nodes: seq<Node>)
    : (r: Outcome<(seq<Node>, ParseState)>)
    ensures r.Ok? ==> r.value.1.depth == s.depth && r.value.1.blocks == s.blocks && r.value.1.fuel <= s.fuel
    ensures r.Ok? ==> |r.value.0| >= |nodes| && r.value.0[..|nodes|] == nodes
    ensures r.Ok? && Yielding(kinds) ==> (|r.value.0| == |nodes| + |kinds|
                                          && forall i :: 0 <= i < |kinds| ==> Fits(r.value.0[|nodes| + i], kinds[i].0))
    decreases s.fuel, 1, |kinds|
  {
    if |kinds| == 0 then Ok((nodes, s))
    else
      var (first, s1) :- ParseExpressionKind(input, s, kinds[0].0, kinds[0].1);
      var r := ParseMultiple(input, s1, kinds[1..], nodes + first);
      assert r.Ok? ==> r.value.0[..|nodes|] == (nodes + first)[..|nodes|];
      assert Yielding(kinds) ==> Yielding(kinds[1..]) && |first| == 1;
      assert r.Ok? && Yielding(kinds) ==> r.value.0[|nodes|] == first[0];
      r
  }

  /** `parse_expression_kind`: one element of kind `kind` at the cursor. */
  function ParseExpressionKind(input: ParserInput, s: ParseState, kind: EK.ExpressionKind, required: bool)
    : (r: Outcome<(seq<Node>, ParseState)>)
    ensures r.Ok? ==> Framed(s, r.value.1)
    ensures r.Ok? ==> |r.value.0| <= 1 && forall n :: n in r.value.0 ==> Fits(n, kind)
    ensures r.Ok? && required && kind != EK.KeywordKind ==> |r.value.0| == 1
    ensures kind == EK.KeywordKind ==> (r.Ok? <==> s.fuel > 0)
    ensures kind == EK.KeywordKind && r.Ok? ==> r.value.0 == [] && r.value.1.cursor == s.cursor + 1
    ensures kind == EK.Assignment && r.Ok? ==>
      s.cursor < |input.tokens| && input.tokens[s.cursor].Assignment? && r.value.1.cursor == s.cursor + 1
      && r.value.0 == [AssignmentSymbolNode(NodePosition(input.fileNumber, input.tokens[s.cursor].pos))]
    ensures kind == EK.Assignment && s.fuel > 0 && s.cursor < |input.tokens| && !input.tokens[s.cursor].Assignment?
            ==> r == Panic(NotImplemented)
    ensures kind == EK.IdentifierKind && r.Ok? ==>
      s.cursor < |input.tokens| && input.tokens[s.cursor].Identifier? && r.value.1.cursor == s.cursor + 1
      && r.value.0 == [IdentifierNode(input.tokens[s.cursor].text, None,
                                      NodePosition(input.fileNumber, input.tokens[s.cursor].pos))]
    ensures kind == EK.IdentifierKind && s.fuel > 0 && s.cursor < |input.tokens| && !input.tokens[s.cursor].Identifier?
            ==> r == Panic(NotImplemented)
    ensures kind == EK.StringLiteral && r.Ok? ==>
      s.cursor < |input.tokens| && input.tokens[s.cursor].StringLiteral? && r.value.1.cursor == s.cursor + 1
      && r.value.0 == [StringLiteralNode(NodePosition(input.fileNumber, input.tokens[s.cursor].pos),
                                         input.tokens[s.cursor].text)]
    ensures kind == EK.StringLiteral && s.fuel > 0 && s.cursor < |input.tokens| && !input.tokens[s.cursor].StringLiteral?
            ==> r == Panic(ExpectedString)
    decreases s.fuel, 0, 0
  {
    var s1 :- Tick(s);
    var file := input.fileNumber;
    match kind
    case Value =>
      var (v, s2) :- ArithmeticParsing.ParseArithmetic(input, s1, 0, true);
      if v.Some? then Ok(([v.value], s2))
      else if required then Panic(NotImplemented)
      else Ok(([], s2))
    case Assignment =>
      var token :- TokenAt(input.tokens, s1.cursor);
      if token.Assignment? then Ok(([AssignmentSymbolNode(NodePosition(file, token.pos))], s1.(cursor := s1.cursor + 1)))
      else Panic(NotImplemented)
    case KeywordKind =>
      Ok(([], s1.(cursor := s1.cursor + 1)))
    case IdentifierKind =>
      var token :- TokenAt(input.tokens, s1.cursor);
      if token.Identifier? then
        Ok(([IdentifierNode(token.text, None, NodePosition(file, token.pos))], s1.(cursor := s1.cursor + 1)))
      else Panic(NotImplemented)
    case CodeBlock =>
      var (block, s2) :- ParseCodeBlock(input, s1);
      Ok(([block], s2))
    case ParameterDescriptorArray =>
      var (parameters, s2) :- ArgArrays.ParseArgArray(input, s1);
      Ok(([ArgumentsNode(NodePosition(0, TokenPosition(0, 0)), parameters)], s2))
    case StringLiteral =>
      var token :- TokenAt(input.tokens, s1.cursor);
      if token.StringLiteral? then
        Ok(([StringLiteralNode(NodePosition(file, token.pos), token.text)], s1.(cursor := s1.cursor + 1)))
      else Panic(ExpectedString)
  }

  /** The `CodeBlock` kind: `{` at the cursor opens a block one level
      deeper; lines are parsed into it until the depth is back, and the
      block is taken off the stack as the element's node. */
  function ParseCodeBlock(input: ParserInput, s: ParseState): (r: Outcome<(Node, ParseState)>)
    ensures r.Ok? ==> r.value.1.depth == s.depth && r.value.1.blocks == s.blocks && r.value.1.fuel <= s.fuel
    ensures r.Ok? ==> (r.value.0.CodeBlockNode? && r.value.0.blockLabel.None?
                       && r.value.0.position == NodePosition(input.fileNumber, TokenPosition(0, 0)))
    decreases s.fuel, 1, 0
  {
    var token :- TokenAt(input.tokens, s.cursor);
    if !token.CodeBlockParenthesisOpen? then Panic(ExpectedBracket)
    else
      var opening := Block(NodePosition(input.fileNumber, TokenPosition(0, 0)), None, []);
      var s1 := s.(cursor := s.cursor + 1, depth := s.depth + 1, blocks := s.blocks + [opening]);
      var s2 :- CodeBlockLoop(input, s1, s.depth);
      if |s2.blocks| == 0 then Panic(Unwrapped)
      else
        var last := s2.blocks[|s2.blocks| - 1];
        assert s2.blocks[..|s2.blocks| - 1] == s.blocks;
        Ok((BlockNode(last), s2.(blocks := s2.blocks[..|s2.blocks| - 1])))
  }

  /** The loop of the `CodeBlock` kind: while the depth is above `initial`,
      a line is parsed into the innermost block. */
  function CodeBlockLoop(input: ParserInput, s: ParseState, initial: nat): (r: Outcome<ParseState>)
    ensures r.Ok? ==> r.value.fuel <= s.fuel
    ensures r.Ok? ==> r.value.depth == if s.depth > initial then initial else s.depth
    ensures r.Ok? && |s.blocks| > 0 ==> OnlyAppends(s.blocks, r.value.blocks, |s.blocks| - 1)
    ensures r.Ok? && |s.blocks| == 0 ==> r.value.blocks == s.blocks
    decreases s.fuel, 0, 0
  {
    var s1 :- Tick(s);
    if s1.depth <= initial then Ok(s1)
    else if |s1.blocks| == 0 then Panic(Underflow)
    else
      var s2 :- ParseLine(input, s1, |s1.blocks| - 1);
      var r := CodeBlockLoop(input, s2, initial);
      if r.Ok? then
        OnlyAppendsTransitive(s1.blocks, s2.blocks, r.value.blocks, |s1.blocks| - 1);
        r
      else r
  }

  /** `parse_line` into block `idx`: modifiers, then by the first token a
      statement, an assignment or expression, a closing brace, or nothing;
      then the line ends are skipped. */
  function ParseLine(input: ParserInput, s: ParseState, idx: nat): (r: Outcome<ParseState>)
    ensures r.Ok? ==> r.value.fuel < s.fuel && OnlyAppends(s.blocks, r.value.blocks, idx)
    ensures r.Ok? ==> r.value.depth == s.depth || r.value.depth + 1 == s.depth
    decreases s.fuel, 0, 0
  {
    var s1 :- Tick(s);
    var (modifiers, s2) :- ModifierLoop(input, s1, []);
    var first :- TokenAt(input.tokens, s2.cursor);
    LineBody(input, s2.(cursor := s2.cursor + 1), idx, s1.cursor, s1.depth, modifiers, first)
  }

  /** The rest of `parse_line` after its first token `first`, with
      `lineStart` and `initial` the cursor and depth the line began with. */
  function LineBody(input: ParserInput, s: ParseState, idx: nat, lineStart: nat, initial: nat,
                    modifiers: seq<Modifier>, first: Token): (r: Outcome<ParseState>)
    ensures r.Ok? ==> r.value.fuel <= s.fuel && OnlyAppends(s.blocks, r.value.blocks, idx)
    ensures r.Ok? && s.depth == initial ==> r.value.depth == initial || r.value.depth + 1 == initial
    decreases s.fuel, 1, 0
  {
    if first.KeywordType? then
      var s1 :- StatementLoop(input, s, idx, first.keyword, modifiers, 0);
      SkipNewlines(input, s1, initial)
    else if first.Identifier? then
      IdentifierLine(input, s, idx, lineStart, initial, first)
    else if first.CodeBlockParenthesisClose? then
      var s1 :- CloseBlock(s);
      if s1.depth < initial then Ok(s1) else SkipNewlines(input, s1, initial)
    else
      SkipNewlines(input, s, initial)
  }

  /** A line that starts with an identifier: with `=` after it an
      assignment of the expression that follows, otherwise the expression
      read from the line's start, pushed without skipping line ends. */
  function IdentifierLine(input: ParserInput, s: ParseState, idx: nat, lineStart: nat, initial: nat, first: Token)
    : (r: Outcome<ParseState>)
    requires first.Identifier?
    ensures r.Ok? ==> r.value.fuel <= s.fuel && OnlyAppends(s.blocks, r.value.blocks, idx)
    ensures r.Ok? && s.depth == initial ==> r.value.depth == initial || r.value.depth + 1 == initial
  {
    var next :- TokenAt(input.tokens, lineStart + 1);
    if !next.Assignment? then
      var (value, s1) :- ArithmeticParsing.ParseArithmetic(input, s.(cursor := lineStart), 0, false);
      if value.None? then Panic(Unwrapped)
      else PushCode(s1, idx, value.value)
    else
      var (value, s1) :- ArithmeticParsing.ParseArithmetic(input, s.(cursor := lineStart + 2), 0, false);
      if value.None? then Panic(Unwrapped)
      else
        var position := NodePosition(input.fileNumber, first.pos);
        var s2 :- PushCode(s1, idx, AssignmentNode(IdentifierNode(first.text, None, position), value.value, position));
        SkipNewlines(input, s2, initial)
  }

  /** The statement loop of `parse_line`: every statement, from the `i`th
      on, whose keyword is `keyword` reads its format, builds its node from
      the arguments and the modifiers, and pushes it into block `idx`. */
  function StatementLoop(input: ParserInput, s: ParseState, idx: nat, keyword: Config.Keyword,
                         modifiers: seq<Modifier>, i: nat): (r: Outcome<ParseState>)
    ensures r.Ok? ==> r.value.fuel <= s.fuel && r.value.depth == s.depth && OnlyAppends(s.blocks, r.value.blocks, idx)
    decreases s.fuel, 0, 0
  {
    if i >= |input.statements| then Ok(s)
    else
      var s1 :- Tick(s);
      var statement := input.statements[i];
      if Statements.AffiliatedKeyword(statement) != Some(keyword) then
        StatementLoop(input, s1, idx, keyword, modifiers, i + 1)
      else
        var (arguments, s2) :- ParseMultiple(input, s1, Statements.EntireFormat(statement), []);
        var (node, modifiers') :- Statements.GenerateNode(statement, arguments, modifiers);
        var s3 :- PushCode(s2, idx, node);
        var r := StatementLoop(input, s3, idx, keyword, modifiers', i + 1);
        if r.Ok? then
          OnlyAppendsTransitive(s3.blocks, s3.blocks, r.value.blocks, idx);
          OnlyAppendsTransitive(s2.blocks, s3.blocks, r.value.blocks, idx);
          r
        else r
  }

  lemma OnlyAppendsTransitive(a: seq<Block>, b: seq<Block>, c: seq<Block>, idx: nat)
    requires OnlyAppends(a, b, idx) && OnlyAppends(b, c, idx)
    ensures OnlyAppends(a, c, idx)
  {
    forall j | 0 <= j < |a|
      ensures Extends(a[j], c[j])
    {
      ExtendsTransitive(a[j], b[j], c[j]);
    }
  }

  /** A method that returns no value agrees with a parsing function that
      yields only the new state. */
  predicate Reaches(r: Outcome<()>, spec: Outcome<ParseState>, now: ParseState) {
    match spec
    case Ok(result) => r == Ok(()) && now == result
    case Panic(reason) => r == Panic(reason)
    case Diverged => r == Diverged
  }

  /** The newline-skipping loop of `parse_line` on the parser's own state. */
  method Skip(p: ParserMeta, initial: nat) returns (r: Outcome<()>)
    modifies p
    ensures Reaches(r, SkipNewlines(p.input, old(p.State()), initial), p.State())
  {
    var tokens := p.input.tokens;
    while p.cursor < |tokens|
      invariant SkipNewlines(p.input, p.State(), initial) == SkipNewlines(p.input, old(p.State()), initial)
      decreases |tokens| - p.cursor
    {
      var token := tokens[p.cursor];
      if ArithmeticParsing.IsLineDelimiting(token) {
        p.cursor := p.cursor + 1;
      } else if token.CodeBlockParenthesisClose? {
        if p.depth == 0 {
          return Panic(Underflow);
        }
        p.depth := p.depth - 1;
        p.cursor := p.cursor + 1;
      } else {
        return Ok(());
      }
      if p.depth < initial {
        return Ok(());
      }
    }
    return Ok(());
  }

  /** `Modifier::modifier_from` on the parser's own state. */
  method ReadModifier(p: ParserMeta) returns (r: Outcome<Option<Modifier>>)
    modifies p
    ensures Agrees(r, ModifierFrom(p.input, old(p.State())), p.State())
    decreases p.fuel, 0
  {
    var ok := p.Spend();
    if !ok {
      return Diverged;
    }
    var tokens := p.input.tokens;
    if p.cursor >= |tokens| {
      return Panic(OutOfBounds);
    }
    var token := tokens[p.cursor];
    if !token.KeywordType? || !KeywordIsModifier(token.keyword) {
      return Ok(None);
    }
    p.cursor := p.cursor + 1;
    var modifier := Modifier(token.keyword, []);
    var format := GetFormat(modifier).value;
    var arguments := ReadMultiple(p, format);
    if !arguments.Ok? {
      return if arguments.Panic? then Panic(arguments.reason) else Diverged;
    }
    if p.cursor >= |tokens| {
      return Panic(OutOfBounds);
    }
    return Ok(Some(modifier.(arguments := arguments.value)));
  }

  /** The modifier loop of `parse_line` on the parser's own state. */
  method ReadModifiers(p: ParserMeta) returns (r: Outcome<seq<Modifier>>)
    modifies p
    ensures Agrees(r, ModifierLoop(p.input, old(p.State()), []), p.State())
    decreases p.fuel, 1
  {
    var modifiers: seq<Modifier> := [];
    var done := false;
    r := Diverged;
    while !done
      invariant !done ==> p.fuel <= old(p.fuel)
      invariant !done ==> ModifierLoop(p.input, p.State(), modifiers) == ModifierLoop(p.input, old(p.State()), [])
      invariant done ==> Agrees(r, ModifierLoop(p.input, old(p.State()), []), p.State())
      decreases !done, p.fuel
    {
      var m := ReadModifier(p);
      if !m.Ok? {
        done, r := true, if m.Panic? then Panic(m.reason) else Diverged;
      } else if m.value.None? {
        done, r := true, Ok(modifiers);
      } else if p.cursor >= |p.input.tokens| {
        done, r := true, Panic(OutOfBounds);
      } else {
        modifiers := modifiers + [m.value.value];
      }
    }
  }

  /** `parse_multiple_expression_kinds` on the parser's own state. */
  method ReadMultiple(p: ParserMeta, kinds: EK.Format) returns (r: Outcome<seq<Node>>)
    modifies p
    ensures Agrees(r, ParseMultiple(p.input, old(p.State()), kinds, []), p.State())
    decreases p.fuel, 1
  {
    var nodes: seq<Node> := [];
    var i := 0;
    while i < |kinds|
      invariant i <= |kinds| && p.fuel <= old(p.fuel)
      invariant ParseMultiple(p.input, p.State(), kinds[i..], nodes) == ParseMultiple(p.input, old(p.State()), kinds, [])
    {
      assert kinds[i..][1..] == kinds[i + 1..];
      var element := ReadExpressionKind(p, kinds[i].0, kinds[i].1);
      if !element.Ok? {
        return if element.Panic? then Panic(element.reason) else Diverged;
      }
      nodes := nodes + element.value;
      i := i + 1;
    }
    return Ok(nodes);
  }

  /** `parse_expression_kind` on the parser's own state. */
  method ReadExpressionKind(p: ParserMeta, kind: EK.ExpressionKind, required: bool) returns (r: Outcome<seq<Node>>)
    modifies p
    ensures Agrees(r, ParseExpressionKind(p.input, old(p.State()), kind, required), p.State())
    decreases p.fuel, 0
  {
    var ok := p.Spend();
    if !ok {
      return Diverged;
    }
    var tokens := p.input.tokens;
    var file := p.input.fileNumber;
    match kind
    case Value =>
      var v := ArithmeticParsing.ReadArithmetic(p, 0, true);
      if !v.Ok? {
        return if v.Panic? then Panic(v.reason) else Diverged;
      }
      if v.value.Some? {
        return Ok([v.value.value]);
      }
      return if required then Panic(NotImplemented) else Ok([]);
    case Assignment =>
      if p.cursor >= |tokens| {
        return Panic(OutOfBounds);
      }
      var token := tokens[p.cursor];
      if !token.Assignment? {
        return Panic(NotImplemented);
      }
      p.cursor := p.cursor + 1;
      return Ok([AssignmentSymbolNode(NodePosition(file, token.pos))]);
    case KeywordKind =>
      p.cursor := p.cursor + 1;
      return Ok([]);
    case IdentifierKind =>
      if p.cursor >= |tokens| {
        return Panic(OutOfBounds);
      }
      var token := tokens[p.cursor];
      if !token.Identifier? {
        return Panic(NotImplemented);
      }
      p.cursor := p.cursor + 1;
      return Ok([IdentifierNode(token.text, None, NodePosition(file, token.pos))]);
    case CodeBlock =>
      var block := ReadCodeBlock(p);
      if !block.Ok? {
        return if block.Panic? then Panic(block.reason) else Diverged;
      }
      return Ok([block.value]);
    case ParameterDescriptorArray =>
      var parameters := ArgArrays.ReadArgArray(p);
      if !parameters.Ok? {
        return if parameters.Panic? then Panic(parameters.reason) else Diverged;
      }
      return Ok([ArgumentsNode(NodePosition(0, TokenPosition(0, 0)), parameters.value)]);
    case StringLiteral =>
      if p.cursor >= |tokens| {
        return Panic(OutOfBounds);
      }
      var token := tokens[p.cursor];
      if !token.StringLiteral? {
        return Panic(ExpectedString);
      }
      p.cursor := p.cursor + 1;
      return Ok([StringLiteralNode(NodePosition(file, token.pos), token.text)]);
  }

  /** The `CodeBlock` kind on the parser's own state: the block is pushed,
      lines are parsed into it while the depth is above the one it started
      at, and it is popped again. */
  method ReadCodeBlock(p: ParserMeta) returns (r: Outcome<Node>)
    modifies p
    ensures Agrees(r, ParseCodeBlock(p.input, old(p.State())), p.State())
    decreases p.fuel, 1
  {
    if p.cursor >= |p.input.tokens| {
      return Panic(OutOfBounds);
    }
    if !p.input.tokens[p.cursor].CodeBlockParenthesisOpen? {
      return Panic(ExpectedBracket);
    }
    var initial := p.depth;
    p.cursor := p.cursor + 1;
    p.depth := p.depth + 1;
    p.blocks := p.blocks + [Block(NodePosition(p.input.fileNumber, TokenPosition(0, 0)), None, [])];
    var lines := ReadBlockLines(p, initial);
    if !lines.Ok? {
      return if lines.Panic? then Panic(lines.reason) else Diverged;
    }
    if |p.blocks| == 0 {
      return Panic(Unwrapped);
    }
    var last := p.blocks[|p.blocks| - 1];
    p.blocks := p.blocks[..|p.blocks| - 1];
    return Ok(BlockNode(last));
  }

  /** The loop of the `CodeBlock` kind on the parser's own state. */
  method ReadBlockLines(p: ParserMeta, initial: nat) returns (r: Outcome<()>)
    modifies p
    ensures Reaches(r, CodeBlockLoop(p.input, old(p.State()), initial), p.State())
    decreases p.fuel, 0
  {
    var done := false;
    r := Diverged;
    while !done
      invariant !done ==> p.fuel <= old(p.fuel)
      invariant !done ==> CodeBlockLoop(p.input, p.State(), initial) == CodeBlockLoop(p.input, old(p.State()), initial)
      invariant done ==> Reaches(r, CodeBlockLoop(p.input, old(p.State()), initial), p.State())
      decreases !done, p.fuel
    {
      var ok := p.Spend();
      if !ok {
        done, r := true, Diverged;
      } else if p.depth <= initial {
        done, r := true, Ok(());
      } else if |p.blocks| == 0 {
        done, r := true, Panic(Underflow);
      } else {
        var line := ReadLine(p, |p.blocks| - 1);
        if !line.Ok? {
          done, r := true, line;
        }
      }
    }
  }

  /** `parse_line` into block `idx` on the parser's own state. */
  method ReadLine(p: ParserMeta, idx: nat) returns (r: Outcome<()>)
    modifies p
    ensures Reaches(r, ParseLine(p.input, old(p.State()), idx), p.State())
    decreases p.fuel, 0
  {
    var ok := p.Spend();
    if !ok {
      return Diverged;
    }
    var lineStart, initial := p.cursor, p.depth;
    var modifiers := ReadModifiers(p);
    if !modifiers.Ok? {
      return if modifiers.Panic? then Panic(modifiers.reason) else Diverged;
    }
    if p.cursor >= |p.input.tokens| {
      return Panic(OutOfBounds);
    }
    var first := p.input.tokens[p.cursor];
    p.cursor := p.cursor + 1;
    r := ReadLineBody(p, idx, lineStart, initial, modifiers.value, first);
  }

  /** The rest of `parse_line` on the parser's own state. */
  method ReadLineBody(p: ParserMeta, idx: nat, lineStart: nat, initial: nat, modifiers: seq<Modifier>, first: Token)
    returns (r: Outcome<()>)
    modifies p
    ensures Reaches(r, LineBody(p.input, old(p.State()), idx, lineStart, initial, modifiers, first), p.State())
    decreases p.fuel, 2
  {
    if first.KeywordType? {
      r := ReadStatements(p, idx, first.keyword, modifiers);
      if r.Ok? {
        r := Skip(p, initial);
      }
    } else if first.Identifier? {
      r := ReadIdentifierLine(p, idx, lineStart, initial, first);
    } else if first.CodeBlockParenthesisClose? {
      if p.depth == 0 {
        return Panic(Underflow);
      }
      p.depth := p.depth - 1;
      r := Ok(());
      if p.depth >= initial {
        r := Skip(p, initial);
      }
    } else {
      r := Skip(p, initial);
    }
  }

  /** A line that starts with an identifier, on the parser's own state. */
  method ReadIdentifierLine(p: ParserMeta, idx: nat, lineStart: nat, initial: nat, first: Token) returns (r: Outcome<()>)
    requires first.Identifier?
    modifies p
    ensures Reaches(r, IdentifierLine(p.input, old(p.State()), idx, lineStart, initial, first), p.State())
  {
    if lineStart + 1 >= |p.input.tokens| {
      return Panic(OutOfBounds);
    }
    var assignment := p.input.tokens[lineStart + 1].Assignment?;
    p.cursor := if assignment then lineStart + 2 else lineStart;
    var value := ArithmeticParsing.ReadArithmetic(p, 0, false);
    if !value.Ok? {
      return if value.Panic? then Panic(value.reason) else Diverged;
    }
    if value.value.None? {
      return Panic(Unwrapped);
    }
    var position := NodePosition(p.input.fileNumber, first.pos);
    var node := if assignment then AssignmentNode(IdentifierNode(first.text, None, position), value.value.value, position)
                else value.value.value;
    var ok := p.Push(idx, node);
    if !ok {
      return Panic(OutOfBounds);
    }
    r := Ok(());
    if assignment {
      r := Skip(p, initial);
    }
  }

  /** The statement loop of `parse_line` on the parser's own state. */
  method ReadStatements(p: ParserMeta, idx: nat, keyword: Config.Keyword, modifiers: seq<Modifier>)
    returns (r: Outcome<()>)
    modifies p
    ensures Reaches(r, StatementLoop(p.input, old(p.State()), idx, keyword, modifiers, 0), p.State())
    decreases p.fuel, 1
  {
    var statements := p.input.statements;
    var current := modifiers;
    var i := 0;
    while i < |statements|
      invariant p.fuel <= old(p.fuel)
      invariant StatementLoop(p.input, p.State(), idx, keyword, current, i)
                == StatementLoop(p.input, old(p.State()), idx, keyword, modifiers, 0)
      decreases |statements| - i
    {
      var done;
      done, r, current := StatementRound(p, idx, keyword, current, i);
      if done {
        return;
      }
      i := i + 1;
    }
    return Ok(());
  }

  /** The `i`th statement of the loop on the parser's own state: when its
      keyword matches, its node is read, generated and pushed. `done` when
      the loop ends here with `r`. */
  method StatementRound(p: ParserMeta, idx: nat, keyword: Config.Keyword, modifiers: seq<Modifier>, i: nat)
    returns (done: bool, r: Outcome<()>, modifiers': seq<Modifier>)
    requires i < |p.input.statements|
    modifies p
    ensures done ==> Reaches(r, StatementLoop(p.input, old(p.State()), idx, keyword, modifiers, i), p.State())
    ensures !done ==> (p.fuel < old(p.fuel)
                       && StatementLoop(p.input, p.State(), idx, keyword, modifiers', i + 1)
                          == StatementLoop(p.input, old(p.State()), idx, keyword, modifiers, i))
    decreases p.fuel, 0
  {
    done, r, modifiers' := true, Diverged, modifiers;
    var ok := p.Spend();
    if !ok {
      return;
    }
    var statement := p.input.statements[i];
    if Statements.AffiliatedKeyword(statement) != Some(keyword) {
      return false, r, modifiers';
    }
    var arguments := ReadMultiple(p, Statements.EntireFormat(statement));
    if !arguments.Ok? {
      return true, if arguments.Panic? then Panic(arguments.reason) else Diverged, modifiers';
    }
    var generated := Statements.GenerateNode(statement, arguments.value, modifiers);
    if !generated.Ok? {
      return true, if generated.Panic? then Panic(generated.reason) else Diverged, modifiers';
    }
    var pushed := p.Push(idx, generated.value.0);
    if !pushed {
      return true, Panic(OutOfBounds), modifiers';
    }
    done, modifiers' := false, generated.value.1;
  }
}
