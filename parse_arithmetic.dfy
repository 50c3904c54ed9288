// Model of compiler/parser/parse_arithmetic_expression.rs: the
// precedence-climbing parser of value expressions. It reads tokens from the
// cursor, keeps the operands read so far and the pending operation, folds
// them when an operator of no higher precedence follows, parses the right
// side of a higher-precedence operator recursively, and stops at a line end,
// at `)`, at an operator weaker than its minimum, or (when asked to) at any
// token that cannot be part of an arithmetic expression.

module ArithmeticParsing {
  import opened Wrappers
  import opened Tokens
  import opened Nodes
  import opened ParserState
  import opened Operators
  import TokenParsing

  /** The tokens an arithmetic expression is made of. */
  predicate IsExpectedInArithmetic(t: Token) {
    t.IntegerLiteral? || t.BoolLiteral? || t.Identifier? || t.Operator?
      || t.ArithmeticParenthesisOpen? || t.ArithmeticParenthesisClose?
  }

  /** The tokens that end a line. */
  predicate IsLineDelimiting(t: Token) {
    t.SoftNewline? || t.HardNewline?
  }

  const UnexpectedInCall: string := "not yet implemented: Unexpected token in function call"
  const LineEndingInCall: string := "not yet implemented: Error: Unexpected line ending in function call"

  /** What a parsing step may change: the cursor moves forward, not past
      the end, the budget shrinks, and depth and blocks stay. */
  predicate Advanced(s: ParseState, s': ParseState, tokens: seq<Token>) {
    s'.depth == s.depth && s'.blocks == s.blocks && s'.fuel < s.fuel
    && s.cursor <= s'.cursor <= |tokens|
  }

  lemma AdvancedTransitive(s: ParseState, s': ParseState, s'': ParseState, tokens: seq<Token>)
    requires Advanced(s, s', tokens) && Advanced(s', s'', tokens)
    ensures Advanced(s, s'', tokens)
  {
  }

  /** The span from the start of `a` to the end of `b`, which panics when
      `b` ends before `a` starts. */
  function Span(file: nat, a: Node, b: Node): (r: Outcome<NodePosition>)
    ensures !r.Diverged?
    ensures r.Ok? <==> Nodes.GetPosition(a).token.start <= Nodes.GetPosition(b).token.start + Nodes.GetPosition(b).token.length
    ensures r.Ok? ==> (r.value.line == file && r.value.token.start == Nodes.GetPosition(a).token.start
                       && r.value.token.start + r.value.token.length
                          == Nodes.GetPosition(b).token.start + Nodes.GetPosition(b).token.length)
  {
    var start := Nodes.GetPosition(a).token.start;
    var end := Nodes.GetPosition(b).token.start + Nodes.GetPosition(b).token.length;
    if end < start then Panic(Underflow)
    else Ok(NodePosition(file, TokenPosition(start, end - start)))
  }

  /** The first two operands combined by `op`, spanning both. */
  function Combine(file: nat, op: Operation, nodes: seq<Node>): (r: Outcome<Node>)
    ensures !r.Diverged?
    ensures r.Ok? ==> (|nodes| >= 2 && r.value.ValueNode? && r.value.inner.ArithmeticNode?
                       && r.value.inner.operation == op
                       && r.value.inner.argumentA == nodes[0] && r.value.inner.argumentB == nodes[1])
  {
    if |nodes| < 2 then Panic(OutOfBounds)
    else
      var position :- Span(file, nodes[0], nodes[1]);
      Ok(ValueNode(ArithmeticNode(op, nodes[0], nodes[1], position)))
  }

  /** The last operand replaced by `op` applied to it and `rhs`. The span
      starts at the last operand and its length is computed from `rhs` and
      the second operand. */
  function CombineLast(file: nat, op: Operation, nodes: seq<Node>, rhs: Node): (r: Outcome<seq<Node>>)
    ensures !r.Diverged?
    ensures r.Ok? ==> (|nodes| >= 2 && |r.value| == |nodes| && r.value[..|nodes| - 1] == nodes[..|nodes| - 1]
                       && r.value[|nodes| - 1].ValueNode?
                       && r.value[|nodes| - 1].inner.ArithmeticNode?
                       && r.value[|nodes| - 1].inner.operation == op
                       && r.value[|nodes| - 1].inner.argumentA == nodes[|nodes| - 1]
                       && r.value[|nodes| - 1].inner.argumentB == rhs)
  {
    if |nodes| == 0 then Panic(Unwrapped)
    else if |nodes| < 2 then Panic(OutOfBounds)
    else
      var last := nodes[|nodes| - 1];
      var start := Nodes.GetPosition(last).token.start;
      var end := Nodes.GetPosition(rhs).token.start + Nodes.GetPosition(nodes[1]).token.length;
      if end < start then Panic(Underflow)
      else
        var position := NodePosition(file, TokenPosition(start, end - start));
        Ok(nodes[..|nodes| - 1] + [ValueNode(ArithmeticNode(op, last, rhs, position))])
  }

  /** The value after the loop: the pending operation applied to the first
      two operands, or else the first operand, if any. */
  function Finish(file: nat, nodes: seq<Node>, op: Option<Operation>): (r: Outcome<Option<Node>>)
    ensures !r.Diverged?
    ensures op.None? ==> r == Ok(if |nodes| == 0 then None else Some(nodes[0]))
    ensures op.Some? && r.Ok? ==> (r.value.Some? && r.value.value.ValueNode? && r.value.value.inner.ArithmeticNode?
                                   && r.value.value.inner.operation == op.value)
  {
    if op.Some? then
      var combined :- Combine(file, op.value, nodes);
      Ok(Some(combined))
    else if |nodes| == 0 then Ok(None)
    else Ok(Some(nodes[0]))
  }

  /** The end of the expression with the cursor at `s`: the value after
      the loop, and the token under the cursor, which is shown on the way
      out whenever there is a value and so must exist. */
  function Conclude(input: ParserInput, s: ParseState, nodes: seq<Node>, op: Option<Operation>)
    : (r: Outcome<(Option<Node>, ParseState)>)
    ensures !r.Diverged?
    ensures r.Ok? ==> r.value.1 == s && Finish(input.fileNumber, nodes, op) == Ok(r.value.0)
    ensures r.Ok? && r.value.0.Some? ==> s.cursor < |input.tokens|
    ensures op.None? ==> (r.Ok? <==> |nodes| == 0 || s.cursor < |input.tokens|)
  {
    var v :- Finish(input.fileNumber, nodes, op);
    if v.Some? && s.cursor >= |input.tokens| then Panic(OutOfBounds) else Ok((v, s))
  }

  /** The last operand is a plain identifier, which `(` turns into a call. */
  predicate EndsInIdentifier(nodes: seq<Node>) {
    |nodes| > 0 && nodes[|nodes| - 1].ValueNode? && nodes[|nodes| - 1].inner.IdentifierNode?
  }

  /** `parse_arithmetic_expression(min, stop)`: a lone last token that is a
      value is returned at once, with the cursor left on it; otherwise the
      loop reads the expression. */
  function ParseArithmetic(input: ParserInput, s: ParseState, min: nat, stop: bool)
    : (r: Outcome<(Option<Node>, ParseState)>)
    ensures r.Ok? ==> Advanced(s, r.value.1, input.tokens)
    decreases s.fuel, 0
  {
    var s1 :- Tick(s);
    if |input.tokens| == s.cursor + 1 && TokenParsing.ParseToken(input.tokens[s.cursor], input.fileNumber).Some? then
      Ok((TokenParsing.ParseToken(input.tokens[s.cursor], input.fileNumber), s1))
    else
      ArithmeticLoop(input, s1, min, stop, [], None)
  }

  /** One round of the loop and the rounds after it, with the operands
      `nodes` and the pending operation `op` read so far. */
  function ArithmeticLoop(input: ParserInput, s: ParseState, min: nat, stop: bool, nodes: seq<Node>, op: Option<Operation>)
    : (r: Outcome<(Option<Node>, ParseState)>)
    ensures r.Ok? ==> Advanced(s, r.value.1, input.tokens)
    decreases s.fuel, 0
  {
    var s1 :- Tick(s);
    var token :- TokenAt(input.tokens, s1.cursor);
    OnToken(input, s1, min, stop, nodes, op, token)
  }

  /** The round at `token`, with the cursor still on it. */
  function OnToken(input: ParserInput, s: ParseState, min: nat, stop: bool, nodes: seq<Node>, op: Option<Operation>, token: Token)
    : (r: Outcome<(Option<Node>, ParseState)>)
    requires s.cursor < |input.tokens| && token == input.tokens[s.cursor]
    ensures r.Ok? ==> Advanced(s.(fuel := s.fuel + 1), r.value.1, input.tokens)
    decreases s.fuel, 3
  {
    var s' := s.(cursor := s.cursor + 1);
    if (stop && !IsExpectedInArithmetic(token)) || IsLineDelimiting(token) then
      Conclude(input, s, nodes, op)
    else if s'.cursor >= |input.tokens| then
      // The token after this one is shown before it is looked at.
      Panic(OutOfBounds)
    else if token.ArithmeticParenthesisOpen? then
      OnOpen(input, s', min, stop, nodes, op)
    else if token.ArithmeticParenthesisClose? then
      Conclude(input, s', nodes, op)
    else if token.Operator? then
      OnOperator(input, s, min, stop, nodes, op, token.op)
    else
      var leaf := TokenParsing.ParseToken(token, input.fileNumber);
      if leaf.None? then Ok((None, s'))
      else ArithmeticLoop(input, s', min, stop, nodes + [leaf.value], op)
  }

  /** The round after `(`, with the cursor past it: a call when no
      operation is pending and the last operand is an identifier, which
      ends the expression; otherwise a parenthesised operand. */
  function OnOpen(input: ParserInput, s: ParseState, min: nat, stop: bool, nodes: seq<Node>, op: Option<Operation>)
    : (r: Outcome<(Option<Node>, ParseState)>)
    ensures r.Ok? ==> Advanced(s, r.value.1, input.tokens)
    decreases s.fuel, 2
  {
    if op.None? && EndsInIdentifier(nodes) then
      var (arguments, s') :- CallArguments(input, s, []);
      var call := FunctionCallNode(nodes[|nodes| - 1].inner.identifier, arguments,
                                   NodePosition(input.fileNumber, TokenPosition(0, 0)));
      // No operation is pending, so the first operand is the value.
      var nodes' := nodes[..|nodes| - 1] + [call];
      if s'.cursor >= |input.tokens| then Panic(OutOfBounds)
      else Ok((Some(nodes'[0]), s'))
    else
      var (inner, s') :- ParseArithmetic(input, s, 0, true);
      if inner.None? then Panic(Unwrapped)
      else ArithmeticLoop(input, s', min, stop, nodes + [inner.value], op)
  }

  /** The round at operator `o`, with the cursor still on it: an operator
      weaker than `min` ends the expression there; the first operator
      becomes the pending one; one that binds no tighter than the pending
      one folds the first two operands; one that binds tighter takes the
      next operand, parsed with a higher minimum, for the last operand. */
  function OnOperator(input: ParserInput, s: ParseState, min: nat, stop: bool, nodes: seq<Node>, op: Option<Operation>, o: Operation)
    : (r: Outcome<(Option<Node>, ParseState)>)
    requires s.cursor < |input.tokens|
    ensures r.Ok? ==> Advanced(s.(fuel := s.fuel + 1), r.value.1, input.tokens)
    decreases s.fuel, 2
  {
    var s' := s.(cursor := s.cursor + 1);
    var order := OperationOrder(o);
    if order < min then
      Conclude(input, s, nodes, op)
    else if op.None? then
      ArithmeticLoop(input, s', min, stop, nodes, Some(o))
    else if order <= OperationOrder(op.value) then
      var combined :- Combine(input.fileNumber, op.value, nodes);
      ArithmeticLoop(input, s', min, stop, [combined], Some(o))
    else
      OnStronger(input, s', min, stop, nodes, op, o)
  }

  /** The round after an operator that binds tighter than the pending one,
      with the cursor past it: the right operand is the sub-expression of
      the operators at least as strong, and it joins the last operand. */
  function OnStronger(input: ParserInput, s: ParseState, min: nat, stop: bool, nodes: seq<Node>, op: Option<Operation>, o: Operation)
    : (r: Outcome<(Option<Node>, ParseState)>)
    requires 0 < s.cursor <= |input.tokens|
    ensures r.Ok? ==> Advanced(s.(fuel := s.fuel + 1), r.value.1, input.tokens)
    decreases s.fuel, 1
  {
    var (rhs, s') :- ParseArithmetic(input, s, OperationOrder(o) + 1, false);
    if rhs.None? then Panic(Unwrapped)
    else
      var nodes' :- CombineLast(input.fileNumber, o, nodes, rhs.value);
      ArithmeticLoop(input, s', min, stop, nodes', op)
  }

  /** The argument loop of a call: each argument is parsed as a stopping
      sub-expression, and the token just before the cursor then decides: `)`
      ends the call, `,` reads another argument, anything else panics. */
  function CallArguments(input: ParserInput, s: ParseState, arguments: seq<Node>)
    : (r: Outcome<(seq<Node>, ParseState)>)
    ensures r.Ok? ==> Advanced(s, r.value.1, input.tokens)
    ensures r.Ok? ==> |r.value.0| >= |arguments| && r.value.0[..|arguments|] == arguments
    decreases s.fuel, 1
  {
    var s1 :- Tick(s);
    var (argument, s2) :- ParseArithmetic(input, s1, 0, true);
    var arguments' := if argument.Some? then arguments + [argument.value] else arguments;
    var r := AfterArgument(input, s2, arguments');
    assert r.Ok? ==> r.value.0[..|arguments|] == arguments'[..|arguments|];
    r
  }

  /** After an argument: the token just before the cursor ends the call or
      asks for another argument. */
  function AfterArgument(input: ParserInput, s: ParseState, arguments: seq<Node>)
    : (r: Outcome<(seq<Node>, ParseState)>)
    ensures r.Ok? ==> s.cursor <= |input.tokens| ==> Advanced(s.(fuel := s.fuel + 1), r.value.1, input.tokens)
    ensures r.Ok? ==> |r.value.0| >= |arguments| && r.value.0[..|arguments|] == arguments
    decreases s.fuel, 2
  {
    if s.cursor == 0 then Panic(Underflow)
    else if s.cursor - 1 >= |input.tokens| then Panic(LineEndingInCall)
    else
      var token := input.tokens[s.cursor - 1];
      if token.ArithmeticParenthesisClose? then Ok((arguments, s))
      else if token.ArgumentSeparator? then CallArguments(input, s, arguments)
      else Panic(UnexpectedInCall)
  }

  /** `parse_arithmetic_expression` on the parser's own state. */
  method ReadArithmetic(p: ParserMeta, min: nat, stop: bool) returns (r: Outcome<Option<Node>>)
    modifies p
    ensures Agrees(r, ParseArithmetic(p.input, old(p.State()), min, stop), p.State())
    decreases p.fuel, 0
  {
    var ok := p.Spend();
    if !ok {
      return Diverged;
    }
    var tokens := p.input.tokens;
    if |tokens| == p.cursor + 1 {
      var leaf := TokenParsing.ParseToken(tokens[p.cursor], p.input.fileNumber);
      if leaf.Some? {
        return Ok(leaf);
      }
    }
    ghost var start := p.State();
    var nodes: seq<Node> := [];
    var op: Option<Operation> := None;
    var done := false;
    r := Diverged;
    while !done
      invariant !done ==> ArithmeticLoop(p.input, p.State(), min, stop, nodes, op) == ArithmeticLoop(p.input, start, min, stop, [], None)
      invariant done ==> Agrees(r, ArithmeticLoop(p.input, start, min, stop, [], None), p.State())
      decreases !done, p.fuel
    {
      done, r, nodes, op := ArithmeticRound(p, min, stop, nodes, op);
    }
  }

  /** One round of the loop of `parse_arithmetic_expression`: either the
      expression ends (`done`) with the loop's result, or the operands and
      the pending operation are updated for the next round. */
  method ArithmeticRound(p: ParserMeta, min: nat, stop: bool, nodes: seq<Node>, op: Option<Operation>)
    returns (done: bool, r: Outcome<Option<Node>>, nodes': seq<Node>, op': Option<Operation>)
    modifies p
    ensures done ==> Agrees(r, ArithmeticLoop(p.input, old(p.State()), min, stop, nodes, op), p.State())
    ensures !done ==> (p.fuel < old(p.fuel)
                       && ArithmeticLoop(p.input, p.State(), min, stop, nodes', op')
                          == ArithmeticLoop(p.input, old(p.State()), min, stop, nodes, op))
    decreases p.fuel, 0
  {
    var ok := p.Spend();
    if !ok {
      return true, Diverged, nodes, op;
    }
    if p.cursor >= |p.input.tokens| {
      return true, Panic(OutOfBounds), nodes, op;
    }
    done, r, nodes', op' := TokenRound(p, min, stop, nodes, op, p.input.tokens[p.cursor]);
  }

  /** The round at the token under the cursor on the parser's own state. */
  method TokenRound(p: ParserMeta, min: nat, stop: bool, nodes: seq<Node>, op: Option<Operation>, token: Token)
    returns (done: bool, r: Outcome<Option<Node>>, nodes': seq<Node>, op': Option<Operation>)
    requires p.cursor < |p.input.tokens| && token == p.input.tokens[p.cursor]
    modifies p
    ensures done ==> Agrees(r, OnToken(p.input, old(p.State()), min, stop, nodes, op, token), p.State())
    ensures !done ==> (p.fuel <= old(p.fuel)
                       && ArithmeticLoop(p.input, p.State(), min, stop, nodes', op')
                          == OnToken(p.input, old(p.State()), min, stop, nodes, op, token))
    decreases p.fuel, 3
  {
    nodes', op' := nodes, op;
    done, r := true, Diverged;
    var file := p.input.fileNumber;
    if (stop && !IsExpectedInArithmetic(token)) || IsLineDelimiting(token) {
      r := Finish(file, nodes, op);
    } else if p.cursor + 1 >= |p.input.tokens| {
      r := Panic(OutOfBounds);
    } else if token.ArithmeticParenthesisOpen? {
      p.cursor := p.cursor + 1;
      done, r, nodes', op' := OpenRound(p, min, stop, nodes, op);
    } else if token.ArithmeticParenthesisClose? {
      p.cursor := p.cursor + 1;
      r := Finish(file, nodes, op);
      if r.Ok? && r.value.Some? && p.cursor >= |p.input.tokens| {
        r := Panic(OutOfBounds);
      }
    } else if token.Operator? {
      done, r, nodes', op' := OperatorRound(p, min, stop, nodes, op, token.op);
    } else {
      p.cursor := p.cursor + 1;
      var leaf := TokenParsing.ParseToken(token, file);
      if leaf.None? {
        r := Ok(None);
      } else {
        done, nodes' := false, nodes + [leaf.value];
      }
    }
  }

  /** The round after `(` on the parser's own state. */
  method OpenRound(p: ParserMeta, min: nat, stop: bool, nodes: seq<Node>, op: Option<Operation>)
    returns (done: bool, r: Outcome<Option<Node>>, nodes': seq<Node>, op': Option<Operation>)
    modifies p
    ensures done ==> Agrees(r, OnOpen(p.input, old(p.State()), min, stop, nodes, op), p.State())
    ensures !done ==> (p.fuel < old(p.fuel)
                       && ArithmeticLoop(p.input, p.State(), min, stop, nodes', op')
                          == OnOpen(p.input, old(p.State()), min, stop, nodes, op))
    decreases p.fuel, 2
  {
    nodes', op' := nodes, op;
    done, r := true, Diverged;
    if op.None? && EndsInIdentifier(nodes) {
      var arguments := ReadCallArguments(p);
      if !arguments.Ok? {
        return true, if arguments.Panic? then Panic(arguments.reason) else Diverged, nodes', op';
      }
      var call := FunctionCallNode(nodes[|nodes| - 1].inner.identifier, arguments.value,
                                   NodePosition(p.input.fileNumber, TokenPosition(0, 0)));
      nodes' := nodes[..|nodes| - 1] + [call];
      r := if p.cursor >= |p.input.tokens| then Panic(OutOfBounds) else Ok(Some(nodes'[0]));
    } else {
      var inner := ReadArithmetic(p, 0, true);
      if !inner.Ok? {
        return true, if inner.Panic? then Panic(inner.reason) else Diverged, nodes', op';
      }
      if inner.value.None? {
        return true, Panic(Unwrapped), nodes', op';
      }
      done, nodes' := false, nodes + [inner.value.value];
    }
  }

  /** The round at an operator on the parser's own state. */
  method OperatorRound(p: ParserMeta, min: nat, stop: bool, nodes: seq<Node>, op: Option<Operation>, o: Operation)
    returns (done: bool, r: Outcome<Option<Node>>, nodes': seq<Node>, op': Option<Operation>)
    requires p.cursor < |p.input.tokens|
    modifies p
    ensures done ==> Agrees(r, OnOperator(p.input, old(p.State()), min, stop, nodes, op, o), p.State())
    ensures !done ==> (p.fuel <= old(p.fuel)
                       && ArithmeticLoop(p.input, p.State(), min, stop, nodes', op')
                          == OnOperator(p.input, old(p.State()), min, stop, nodes, op, o))
    decreases p.fuel, 2
  {
    nodes', op' := nodes, op;
    done, r := true, Diverged;
    ghost var s0 := p.State();
    var file := p.input.fileNumber;
    var order := OperationOrder(o);
    if order < min {
      r := Finish(file, nodes, op);
      return;
    }
    p.cursor := p.cursor + 1;
    assert p.State() == s0.(cursor := s0.cursor + 1);
    if op.None? {
      done, op' := false, Some(o);
    } else if order <= OperationOrder(op.value) {
      var combined := Combine(file, op.value, nodes);
      if !combined.Ok? {
        return true, Panic(combined.reason), nodes', op';
      }
      done, nodes', op' := false, [combined.value], Some(o);
    } else {
      assert OnOperator(p.input, s0, min, stop, nodes, op, o) == OnStronger(p.input, p.State(), min, stop, nodes, op, o);
      done, r, nodes' := StrongerRound(p, min, stop, nodes, op, o);
    }
  }

  /** The round after a tighter operator, on the parser's own state. */
  method StrongerRound(p: ParserMeta, min: nat, stop: bool, nodes: seq<Node>, op: Option<Operation>, o: Operation)
    returns (done: bool, r: Outcome<Option<Node>>, nodes': seq<Node>)
    requires 0 < p.cursor <= |p.input.tokens|
    modifies p
    ensures done ==> Agrees(r, OnStronger(p.input, old(p.State()), min, stop, nodes, op, o), p.State())
    ensures !done ==> (p.fuel <= old(p.fuel)
                       && ArithmeticLoop(p.input, p.State(), min, stop, nodes', op)
                          == OnStronger(p.input, old(p.State()), min, stop, nodes, op, o))
    decreases p.fuel, 1
  {
    nodes' := nodes;
    ghost var s0 := p.State();
    ghost var spec := ParseArithmetic(p.input, s0, OperationOrder(o) + 1, false);
    var rhs := ReadArithmetic(p, OperationOrder(o) + 1, false);
    if !rhs.Ok? {
      return true, if rhs.Panic? then Panic(rhs.reason) else Diverged, nodes';
    }
    if rhs.value.None? {
      return true, Panic(Unwrapped), nodes';
    }
    assert spec == Ok((rhs.value, p.State()));
    var combined := CombineLast(p.input.fileNumber, o, nodes, rhs.value.value);
    if !combined.Ok? {
      return true, Panic(combined.reason), nodes';
    }
    assert OnStronger(p.input, s0, min, stop, nodes, op, o) == ArithmeticLoop(p.input, p.State(), min, stop, combined.value, op);
    done, r, nodes' := false, Diverged, combined.value;
  }

  /** The argument loop of a call, on the parser's own state. */
  method ReadCallArguments(p: ParserMeta) returns (r: Outcome<seq<Node>>)
    modifies p
    ensures Agrees(r, CallArguments(p.input, old(p.State()), []), p.State())
    decreases p.fuel, 1
  {
    var arguments: seq<Node> := [];
    var done := false;
    r := Diverged;
    while !done
      invariant !done ==> CallArguments(p.input, p.State(), arguments) == CallArguments(p.input, old(p.State()), [])
      invariant done ==> Agrees(r, CallArguments(p.input, old(p.State()), []), p.State())
      decreases !done, p.fuel
    {
      done, r, arguments := ArgumentRound(p, arguments);
    }
  }

  /** One argument of a call, on the parser's own state. */
  method ArgumentRound(p: ParserMeta, arguments: seq<Node>)
    returns (done: bool, r: Outcome<seq<Node>>, arguments': seq<Node>)
    modifies p
    ensures done ==> Agrees(r, CallArguments(p.input, old(p.State()), arguments), p.State())
    ensures !done ==> (p.fuel < old(p.fuel)
                       && CallArguments(p.input, p.State(), arguments') == CallArguments(p.input, old(p.State()), arguments))
    decreases p.fuel, 0
  {
    arguments', done, r := arguments, true, Diverged;
    var ok := p.Spend();
    if !ok {
      return;
    }
    var argument := ReadArithmetic(p, 0, true);
    if !argument.Ok? {
      return true, if argument.Panic? then Panic(argument.reason) else Diverged, arguments';
    }
    if argument.value.Some? {
      arguments' := arguments + [argument.value.value];
    }
    done, r := ArgumentEnd(p, arguments');
  }

  /** The token before the cursor after an argument, on the parser's own
      state: `done` unless another argument follows. */
  method ArgumentEnd(p: ParserMeta, arguments: seq<Node>) returns (done: bool, r: Outcome<seq<Node>>)
    modifies p
    ensures done ==> Agrees(r, AfterArgument(p.input, old(p.State()), arguments), p.State())
    ensures !done ==> (p.State() == old(p.State())
                       && CallArguments(p.input, p.State(), arguments) == AfterArgument(p.input, old(p.State()), arguments))
  {
    var tokens := p.input.tokens;
    if p.cursor == 0 {
      return true, Panic(Underflow);
    }
    p.cursor := p.cursor - 1;
    if p.cursor >= |tokens| {
      return true, Panic(LineEndingInCall);
    }
    var token := tokens[p.cursor];
    p.cursor := p.cursor + 1;
    if token.ArithmeticParenthesisClose? {
      return true, Ok(arguments);
    } else if !token.ArgumentSeparator? {
      return true, Panic(UnexpectedInCall);
    }
    done, r := false, Diverged;
  }
}
