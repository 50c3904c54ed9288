// What `parse_arithmetic_expression` of
// compiler/parser/parse_arithmetic_expression.rs makes of short token
// sequences: the effect of one token on the loop, then whole expressions
// with one or two operators and a call with one argument.

module ArithmeticExamples {
  import opened Wrappers
  import opened Tokens
  import opened Nodes
  import opened ParserState
  import opened Operators
  import opened ArithmeticParsing
  import TokenParsing

  /** A token that is a value on its own: a literal or an identifier. */
  predicate IsOperand(t: Token) {
    t.IntegerLiteral? || t.BoolLiteral? || t.Identifier?
  }

  /** The leaf node of an operand token. */
  function Leaf(t: Token, file: nat): (r: Node)
    requires IsOperand(t)
    ensures r.ValueNode? && Nodes.GetPosition(r) == NodePosition(file, t.pos)
    ensures TokenParsing.ParseToken(t, file) == Some(r)
  {
    TokenParsing.ParseToken(t, file).value
  }

  /** The state `k` tokens further on, with `n` steps of the budget spent. */
  function Later(s: ParseState, k: nat, n: nat): (r: ParseState)
    requires n <= s.fuel
    ensures r.cursor == s.cursor + k && r.fuel + n == s.fuel && r.depth == s.depth && r.blocks == s.blocks
  {
    s.(cursor := s.cursor + k, fuel := s.fuel - n)
  }

  /** With the cursor on the last token, an operand is the whole
      expression: its leaf is returned at once, the cursor stays on it and
      one step of the budget is spent. Any other last token goes to the
      loop. */
  lemma SingleToken(input: ParserInput, s: ParseState, min: nat, stop: bool)
    requires s.fuel > 0 && s.cursor + 1 == |input.tokens|
    ensures IsOperand(input.tokens[s.cursor]) ==>
      ParseArithmetic(input, s, min, stop) == Ok((Some(Leaf(input.tokens[s.cursor], input.fileNumber)), Later(s, 0, 1)))
    ensures !IsOperand(input.tokens[s.cursor]) ==>
      ParseArithmetic(input, s, min, stop) == ArithmeticLoop(input, Later(s, 0, 1), min, stop, [], None)
  {
  }

  /** `(` that does not start a call opens a parenthesised operand: for
      `( a )` the operand `a` joins the operands and the loop goes on past
      the `)`, three steps of the budget later. */
  lemma ParenthesisedOperand(input: ParserInput, s: ParseState, min: nat, stop: bool, nodes: seq<Node>, op: Option<Operation>)
    requires !(op.None? && EndsInIdentifier(nodes))
    requires s.fuel >= 3 && s.cursor + 2 < |input.tokens|
    requires IsOperand(input.tokens[s.cursor]) && input.tokens[s.cursor + 1].ArithmeticParenthesisClose?
    ensures OnOpen(input, s, min, stop, nodes, op)
            == ArithmeticLoop(input, Later(s, 2, 3), min, stop, nodes + [Leaf(input.tokens[s.cursor], input.fileNumber)], op)
  {
    var A := Leaf(input.tokens[s.cursor], input.fileNumber);
    LoopStart(input, s, 0, true);
    OperandStep(input, Later(s, 0, 1), 0, true, [], None);
    assert Later(Later(s, 0, 1), 1, 1) == Later(s, 1, 2) && [] + [A] == [A];
    var s2 := Later(s, 2, 3);
    assert ArithmeticLoop(input, Later(s, 1, 2), 0, true, [A], None)
           == OnToken(input, Later(s, 1, 3), 0, true, [A], None, input.tokens[s.cursor + 1]);
    assert ParseArithmetic(input, s, 0, true) == Ok((Some(A), s2));
  }

  /** Unless the cursor is on the last token, the expression is read by the
      loop, starting with no operands and no pending operation. */
  lemma LoopStart(input: ParserInput, s: ParseState, min: nat, stop: bool)
    requires s.fuel > 0 && s.cursor + 1 != |input.tokens|
    ensures ParseArithmetic(input, s, min, stop) == ArithmeticLoop(input, Later(s, 0, 1), min, stop, [], None)
  {
  }

  /** An operand that is not the last token joins the operands. */
  lemma OperandStep(input: ParserInput, s: ParseState, min: nat, stop: bool, nodes: seq<Node>, op: Option<Operation>)
    requires s.fuel > 0 && s.cursor + 1 < |input.tokens| && IsOperand(input.tokens[s.cursor])
    ensures ArithmeticLoop(input, s, min, stop, nodes, op)
            == ArithmeticLoop(input, Later(s, 1, 1), min, stop, nodes + [Leaf(input.tokens[s.cursor], input.fileNumber)], op)
  {
    var s1 := Later(s, 0, 1);
    assert ArithmeticLoop(input, s, min, stop, nodes, op) == OnToken(input, s1, min, stop, nodes, op, input.tokens[s.cursor]);
  }

  /** The first operator that is strong enough becomes the pending one. */
  lemma FirstOperatorStep(input: ParserInput, s: ParseState, min: nat, stop: bool, nodes: seq<Node>, o: Operation, q: TokenPosition)
    requires s.fuel > 0 && s.cursor + 1 < |input.tokens| && input.tokens[s.cursor] == Operator(o, q)
    requires OperationOrder(o) >= min
    ensures ArithmeticLoop(input, s, min, stop, nodes, None) == ArithmeticLoop(input, Later(s, 1, 1), min, stop, nodes, Some(o))
  {
    var s1 := Later(s, 0, 1);
    assert ArithmeticLoop(input, s, min, stop, nodes, None) == OnToken(input, s1, min, stop, nodes, None, Operator(o, q));
    assert OnToken(input, s1, min, stop, nodes, None, Operator(o, q)) == OnOperator(input, s1, min, stop, nodes, None, o);
  }

  /** An operator binding no tighter than the pending one folds the first
      two operands with the pending one and becomes pending itself. */
  lemma WeakerOperatorStep(input: ParserInput, s: ParseState, min: nat, stop: bool, nodes: seq<Node>, pending: Operation,
                           o: Operation, q: TokenPosition)
    requires s.fuel > 0 && s.cursor + 1 < |input.tokens| && input.tokens[s.cursor] == Operator(o, q)
    requires min <= OperationOrder(o) <= OperationOrder(pending)
    requires Combine(input.fileNumber, pending, nodes).Ok?
    ensures ArithmeticLoop(input, s, min, stop, nodes, Some(pending))
            == ArithmeticLoop(input, Later(s, 1, 1), min, stop, [Combine(input.fileNumber, pending, nodes).value], Some(o))
  {
    var s1 := Later(s, 0, 1);
    assert ArithmeticLoop(input, s, min, stop, nodes, Some(pending))
           == OnToken(input, s1, min, stop, nodes, Some(pending), Operator(o, q));
    assert OnToken(input, s1, min, stop, nodes, Some(pending), Operator(o, q))
           == OnOperator(input, s1, min, stop, nodes, Some(pending), o);
  }

  /** An operator binding tighter than the pending one hands over to the
      parse of its right operand. */
  lemma StrongerOperatorStep(input: ParserInput, s: ParseState, min: nat, stop: bool, nodes: seq<Node>, pending: Operation,
                             o: Operation, q: TokenPosition)
    requires s.fuel > 0 && s.cursor + 1 < |input.tokens| && input.tokens[s.cursor] == Operator(o, q)
    requires min <= OperationOrder(o) && OperationOrder(pending) < OperationOrder(o)
    ensures ArithmeticLoop(input, s, min, stop, nodes, Some(pending))
            == OnStronger(input, Later(s, 1, 1), min, stop, nodes, Some(pending), o)
  {
    var s1 := Later(s, 0, 1);
    assert ArithmeticLoop(input, s, min, stop, nodes, Some(pending))
           == OnToken(input, s1, min, stop, nodes, Some(pending), Operator(o, q));
    assert OnToken(input, s1, min, stop, nodes, Some(pending), Operator(o, q))
           == OnOperator(input, s1, min, stop, nodes, Some(pending), o);
  }

  /** `(` after an identifier, with no operation pending, starts a call. */
  lemma CallStep(input: ParserInput, s: ParseState, min: nat, stop: bool, nodes: seq<Node>)
    requires s.fuel > 0 && s.cursor + 1 < |input.tokens| && input.tokens[s.cursor].ArithmeticParenthesisOpen?
    ensures ArithmeticLoop(input, s, min, stop, nodes, None) == OnOpen(input, Later(s, 1, 1), min, stop, nodes, None)
  {
    var s1 := Later(s, 0, 1);
    assert ArithmeticLoop(input, s, min, stop, nodes, None) == OnToken(input, s1, min, stop, nodes, None, input.tokens[s.cursor]);
  }

  /** A line end stops the loop with the cursor on it. */
  lemma LineEndStep(input: ParserInput, s: ParseState, min: nat, stop: bool, nodes: seq<Node>, op: Option<Operation>)
    requires s.fuel > 0 && s.cursor < |input.tokens| && IsLineDelimiting(input.tokens[s.cursor])
    ensures ArithmeticLoop(input, s, min, stop, nodes, op) == Conclude(input, Later(s, 0, 1), nodes, op)
  {
    var s1 := Later(s, 0, 1);
    assert ArithmeticLoop(input, s, min, stop, nodes, op) == OnToken(input, s1, min, stop, nodes, op, input.tokens[s.cursor]);
  }

  /** An operator weaker than the minimum ends the expression in front of
      it, leaving it for the caller. */
  lemma WeakOperatorStops(input: ParserInput, s: ParseState, min: nat, stop: bool, nodes: seq<Node>, op: Option<Operation>,
                          o: Operation, q: TokenPosition)
    requires s.fuel > 0 && s.cursor + 1 < |input.tokens| && input.tokens[s.cursor] == Operator(o, q)
    requires OperationOrder(o) < min
    ensures ArithmeticLoop(input, s, min, stop, nodes, op) == Conclude(input, Later(s, 0, 1), nodes, op)
  {
    var s1 := Later(s, 0, 1);
    assert ArithmeticLoop(input, s, min, stop, nodes, op) == OnToken(input, s1, min, stop, nodes, op, Operator(o, q));
    assert OnToken(input, s1, min, stop, nodes, op, Operator(o, q)) == OnOperator(input, s1, min, stop, nodes, op, o);
  }

  /** When asked to stop at unexpected tokens, anything that cannot be part
      of an arithmetic expression ends it in front of that token. */
  lemma UnexpectedTokenStops(input: ParserInput, s: ParseState, min: nat, nodes: seq<Node>, op: Option<Operation>)
    requires s.fuel > 0 && s.cursor < |input.tokens| && !IsExpectedInArithmetic(input.tokens[s.cursor])
    ensures ArithmeticLoop(input, s, min, true, nodes, op) == Conclude(input, Later(s, 0, 1), nodes, op)
  {
    var s1 := Later(s, 0, 1);
    assert ArithmeticLoop(input, s, min, true, nodes, op) == OnToken(input, s1, min, true, nodes, op, input.tokens[s.cursor]);
  }

  /** A token that is neither a line end nor the end of the expression
      panics when it is the last token: the token after it is shown before
      the loop goes on. */
  lemma LastTokenPanics(input: ParserInput, s: ParseState, min: nat, stop: bool, nodes: seq<Node>, op: Option<Operation>)
    requires s.fuel > 0 && s.cursor + 1 == |input.tokens|
    requires IsExpectedInArithmetic(input.tokens[s.cursor]) || !stop
    requires !IsLineDelimiting(input.tokens[s.cursor])
    ensures ArithmeticLoop(input, s, min, stop, nodes, op) == Panic(OutOfBounds)
  {
    var s1 := Later(s, 0, 1);
    assert ArithmeticLoop(input, s, min, stop, nodes, op) == OnToken(input, s1, min, stop, nodes, op, input.tokens[s.cursor]);
  }

  /** An expression that starts with an operand and an operator has both
      in hand after three steps: the operand and the pending operator. */
  lemma OperandThenOperator(input: ParserInput, s: ParseState, min: nat, stop: bool, o: Operation, q: TokenPosition)
    requires s.fuel >= 3 && s.cursor + 3 <= |input.tokens|
    requires IsOperand(input.tokens[s.cursor]) && input.tokens[s.cursor + 1] == Operator(o, q) && OperationOrder(o) >= min
    ensures ParseArithmetic(input, s, min, stop)
            == ArithmeticLoop(input, Later(s, 2, 3), min, stop, [Leaf(input.tokens[s.cursor], input.fileNumber)], Some(o))
  {
    var A := Leaf(input.tokens[s.cursor], input.fileNumber);
    LoopStart(input, s, min, stop);
    OperandStep(input, Later(s, 0, 1), min, stop, [], None);
    assert Later(Later(s, 0, 1), 1, 1) == Later(s, 1, 2) && [] + [A] == [A];
    FirstOperatorStep(input, Later(s, 1, 2), min, stop, [A], o, q);
    assert Later(Later(s, 1, 2), 1, 1) == Later(s, 2, 3);
  }

  /** `a o b` followed by a line end is `o` applied to `a` and `b`, spanning
      both; the cursor stops on the line end after five steps. */
  lemma BinaryExpression(input: ParserInput, s: ParseState, stop: bool, o: Operation, q: TokenPosition)
    requires s.fuel >= 5 && s.cursor + 4 <= |input.tokens|
    requires var t := input.tokens;
      IsOperand(t[s.cursor]) && t[s.cursor + 1] == Operator(o, q) && IsOperand(t[s.cursor + 2])
      && IsLineDelimiting(t[s.cursor + 3])
      && t[s.cursor].pos.start <= t[s.cursor + 2].pos.start + t[s.cursor + 2].pos.length
    ensures var t := input.tokens;
      var a := t[s.cursor].pos;
      var b := t[s.cursor + 2].pos;
      ParseArithmetic(input, s, 0, stop)
      == Ok((Some(ValueNode(ArithmeticNode(o, Leaf(t[s.cursor], input.fileNumber), Leaf(t[s.cursor + 2], input.fileNumber),
                                           NodePosition(input.fileNumber, TokenPosition(a.start, b.start + b.length - a.start))))),
             Later(s, 3, 5)))
  {
    var t := input.tokens;
    var file := input.fileNumber;
    var A, B := Leaf(t[s.cursor], file), Leaf(t[s.cursor + 2], file);
    OperandThenOperator(input, s, 0, stop, o, q);
    OperandStep(input, Later(s, 2, 3), 0, stop, [A], Some(o));
    assert Later(Later(s, 2, 3), 1, 1) == Later(s, 3, 4) && [A] + [B] == [A, B];
    LineEndStep(input, Later(s, 3, 4), 0, stop, [A, B], Some(o));
    assert Later(Later(s, 3, 4), 0, 1) == Later(s, 3, 5);
  }

  /** `a o1 b o2 c` where `o2` binds no tighter than `o1` groups to the
      left: `(a o1 b) o2 c`. */
  lemma LeftAssociative(input: ParserInput, s: ParseState, stop: bool, o1: Operation, o2: Operation, q1: TokenPosition, q2: TokenPosition)
    requires s.fuel >= 7 && s.cursor + 6 <= |input.tokens|
    requires var t := input.tokens;
      IsOperand(t[s.cursor]) && t[s.cursor + 1] == Operator(o1, q1) && IsOperand(t[s.cursor + 2])
      && t[s.cursor + 3] == Operator(o2, q2) && IsOperand(t[s.cursor + 4]) && IsLineDelimiting(t[s.cursor + 5])
    requires OperationOrder(o2) <= OperationOrder(o1)
    requires var t := input.tokens;
      t[s.cursor].pos.start <= t[s.cursor + 2].pos.start + t[s.cursor + 2].pos.length
      && t[s.cursor].pos.start <= t[s.cursor + 4].pos.start + t[s.cursor + 4].pos.length
    ensures var r := ParseArithmetic(input, s, 0, stop);
      var t := input.tokens;
      && r.Ok? && r.value.1 == Later(s, 5, 7) && r.value.0.Some?
      && r.value.0.value.ValueNode? && r.value.0.value.inner.ArithmeticNode?
      && var top := r.value.0.value.inner;
      && top.operation == o2 && top.argumentB == Leaf(t[s.cursor + 4], input.fileNumber)
      && top.argumentA.ValueNode? && top.argumentA.inner.ArithmeticNode?
      && top.argumentA.inner.operation == o1
      && top.argumentA.inner.argumentA == Leaf(t[s.cursor], input.fileNumber)
      && top.argumentA.inner.argumentB == Leaf(t[s.cursor + 2], input.fileNumber)
  {
    var t := input.tokens;
    var file := input.fileNumber;
    var A, B, C := Leaf(t[s.cursor], file), Leaf(t[s.cursor + 2], file), Leaf(t[s.cursor + 4], file);
    OperandThenOperator(input, s, 0, stop, o1, q1);
    OperandStep(input, Later(s, 2, 3), 0, stop, [A], Some(o1));
    assert Later(Later(s, 2, 3), 1, 1) == Later(s, 3, 4) && [A] + [B] == [A, B];
    WeakerStep(input, Later(s, 3, 4), stop, A, B, o1, o2, q2);
  }

  /** The looser operator of `LeftAssociative` and what follows it. */
  lemma WeakerStep(input: ParserInput, s: ParseState, stop: bool, A: Node, B: Node, o1: Operation, o2: Operation, q2: TokenPosition)
    requires s.fuel >= 3 && s.cursor + 3 <= |input.tokens|
    requires var t := input.tokens;
      t[s.cursor] == Operator(o2, q2) && IsOperand(t[s.cursor + 1]) && IsLineDelimiting(t[s.cursor + 2])
    requires OperationOrder(o2) <= OperationOrder(o1)
    requires var c := input.tokens[s.cursor + 1].pos;
      Nodes.GetPosition(A).token.start <= Nodes.GetPosition(B).token.start + Nodes.GetPosition(B).token.length
      && Nodes.GetPosition(A).token.start <= c.start + c.length
    ensures var r := ArithmeticLoop(input, s, 0, stop, [A, B], Some(o1));
      && r.Ok? && r.value.1 == Later(s, 2, 3) && r.value.0.Some?
      && r.value.0.value.ValueNode? && r.value.0.value.inner.ArithmeticNode?
      && var top := r.value.0.value.inner;
      && top.operation == o2 && top.argumentB == Leaf(input.tokens[s.cursor + 1], input.fileNumber)
      && top.argumentA.ValueNode? && top.argumentA.inner.ArithmeticNode?
      && top.argumentA.inner.operation == o1
      && top.argumentA.inner.argumentA == A
      && top.argumentA.inner.argumentB == B
  {
    var C := Leaf(input.tokens[s.cursor + 1], input.fileNumber);
    var AB := Combine(input.fileNumber, o1, [A, B]);
    assert AB.Ok? && Nodes.GetPosition(AB.value).token.start == Nodes.GetPosition(A).token.start;
    WeakerOperatorStep(input, s, 0, stop, [A, B], o1, o2, q2);
    OperandStep(input, Later(s, 1, 1), 0, stop, [AB.value], Some(o2));
    assert Later(Later(s, 1, 1), 1, 1) == Later(s, 2, 2) && [AB.value] + [C] == [AB.value, C];
    LineEndStep(input, Later(s, 2, 2), 0, stop, [AB.value, C], Some(o2));
    assert Later(Later(s, 2, 2), 0, 1) == Later(s, 2, 3);
  }

  /** The right operand of a tighter operator when a line end follows it:
      the operand alone, with the cursor on the line end. */
  lemma LoneOperand(input: ParserInput, s: ParseState, min: nat, stop: bool)
    requires s.fuel >= 3 && s.cursor + 2 <= |input.tokens|
    requires IsOperand(input.tokens[s.cursor]) && IsLineDelimiting(input.tokens[s.cursor + 1])
    ensures ParseArithmetic(input, s, min, stop) == Ok((Some(Leaf(input.tokens[s.cursor], input.fileNumber)), Later(s, 1, 3)))
  {
    var C := Leaf(input.tokens[s.cursor], input.fileNumber);
    LoopStart(input, s, min, stop);
    OperandStep(input, Later(s, 0, 1), min, stop, [], None);
    assert Later(Later(s, 0, 1), 1, 1) == Later(s, 1, 2) && [] + [C] == [C];
    LineEndStep(input, Later(s, 1, 2), min, stop, [C], None);
    assert Later(Later(s, 1, 2), 0, 1) == Later(s, 1, 3);
  }

  /** `a o1 b o2 c` where `o2` binds tighter than `o1` groups to the right:
      `a o1 (b o2 c)`, the inner expression parsed with a higher minimum. */
  lemma HigherPrecedence(input: ParserInput, s: ParseState, stop: bool, o1: Operation, o2: Operation, q1: TokenPosition, q2: TokenPosition)
    requires s.fuel >= 9 && s.cursor + 6 <= |input.tokens|
    requires var t := input.tokens;
      IsOperand(t[s.cursor]) && t[s.cursor + 1] == Operator(o1, q1) && IsOperand(t[s.cursor + 2])
      && t[s.cursor + 3] == Operator(o2, q2) && IsOperand(t[s.cursor + 4]) && IsLineDelimiting(t[s.cursor + 5])
    requires OperationOrder(o2) > OperationOrder(o1)
    requires var t := input.tokens;
      t[s.cursor + 2].pos.start <= t[s.cursor + 4].pos.start + t[s.cursor + 2].pos.length
      && t[s.cursor].pos.start <= t[s.cursor + 4].pos.start + t[s.cursor + 2].pos.length
    ensures var r := ParseArithmetic(input, s, 0, stop);
      var t := input.tokens;
      && r.Ok? && r.value.1 == Later(s, 5, 9) && r.value.0.Some?
      && r.value.0.value.ValueNode? && r.value.0.value.inner.ArithmeticNode?
      && var top := r.value.0.value.inner;
      && top.operation == o1 && top.argumentA == Leaf(t[s.cursor], input.fileNumber)
      && top.argumentB.ValueNode? && top.argumentB.inner.ArithmeticNode?
      && top.argumentB.inner.operation == o2
      && top.argumentB.inner.argumentA == Leaf(t[s.cursor + 2], input.fileNumber)
      && top.argumentB.inner.argumentB == Leaf(t[s.cursor + 4], input.fileNumber)
  {
    var t := input.tokens;
    var file := input.fileNumber;
    var A, B, C := Leaf(t[s.cursor], file), Leaf(t[s.cursor + 2], file), Leaf(t[s.cursor + 4], file);
    OperandThenOperator(input, s, 0, stop, o1, q1);
    OperandStep(input, Later(s, 2, 3), 0, stop, [A], Some(o1));
    assert Later(Later(s, 2, 3), 1, 1) == Later(s, 3, 4) && [A] + [B] == [A, B];
    StrongerStep(input, Later(s, 3, 4), stop, A, B, o1, o2, q2);
  }

  /** The tighter operator of `HigherPrecedence` and what follows it. */
  lemma StrongerStep(input: ParserInput, s: ParseState, stop: bool, A: Node, B: Node, o1: Operation, o2: Operation, q2: TokenPosition)
    requires s.fuel >= 5 && 0 < s.cursor && s.cursor + 3 <= |input.tokens|
    requires var t := input.tokens;
      t[s.cursor] == Operator(o2, q2) && IsOperand(t[s.cursor + 1]) && IsLineDelimiting(t[s.cursor + 2])
    requires OperationOrder(o2) > OperationOrder(o1)
    requires var c := input.tokens[s.cursor + 1].pos;
      Nodes.GetPosition(B).token.start <= c.start + Nodes.GetPosition(B).token.length
      && Nodes.GetPosition(A).token.start <= c.start + Nodes.GetPosition(B).token.length
    ensures var r := ArithmeticLoop(input, s, 0, stop, [A, B], Some(o1));
      && r.Ok? && r.value.1 == Later(s, 2, 5) && r.value.0.Some?
      && r.value.0.value.ValueNode? && r.value.0.value.inner.ArithmeticNode?
      && var top := r.value.0.value.inner;
      && top.operation == o1 && top.argumentA == A
      && top.argumentB.ValueNode? && top.argumentB.inner.ArithmeticNode?
      && top.argumentB.inner.operation == o2
      && top.argumentB.inner.argumentA == B
      && top.argumentB.inner.argumentB == Leaf(input.tokens[s.cursor + 1], input.fileNumber)
  {
    var file := input.fileNumber;
    var C := Leaf(input.tokens[s.cursor + 1], file);
    StrongerOperatorStep(input, s, 0, stop, [A, B], o1, o2, q2);
    LoneOperand(input, Later(s, 1, 1), OperationOrder(o2) + 1, false);
    assert Later(Later(s, 1, 1), 1, 3) == Later(s, 2, 4);
    var BC := CombineLast(file, o2, [A, B], C);
    assert BC.Ok?;
    assert Nodes.GetPosition(BC.value[1]).token.start + Nodes.GetPosition(BC.value[1]).token.length
           == input.tokens[s.cursor + 1].pos.start + Nodes.GetPosition(B).token.length;
    assert OnStronger(input, Later(s, 1, 1), 0, stop, [A, B], Some(o1), o2)
           == ArithmeticLoop(input, Later(s, 2, 4), 0, stop, BC.value, Some(o1));
    LineEndStep(input, Later(s, 2, 4), 0, stop, BC.value, Some(o1));
    assert Later(Later(s, 2, 4), 0, 1) == Later(s, 2, 5);
  }

  /** `f(a)` followed by a line end is a call of `f` with the one argument
      `a`, at the zero position; the cursor stops on the line end. */
  lemma CallWithOneArgument(input: ParserInput, s: ParseState, stop: bool, name: string, p: TokenPosition,
                            q: TokenPosition, u: TokenPosition)
    requires s.fuel >= 7 && s.cursor + 5 <= |input.tokens|
    requires var t := input.tokens;
      t[s.cursor] == Identifier(name, p) && t[s.cursor + 1] == ArithmeticParenthesisOpen(q)
      && IsOperand(t[s.cursor + 2]) && t[s.cursor + 3] == ArithmeticParenthesisClose(u)
      && IsLineDelimiting(t[s.cursor + 4])
    ensures ParseArithmetic(input, s, 0, stop)
            == Ok((Some(FunctionCallNode(name, [Leaf(input.tokens[s.cursor + 2], input.fileNumber)],
                                         NodePosition(input.fileNumber, TokenPosition(0, 0)))),
                   Later(s, 4, 7)))
  {
    var t := input.tokens;
    var file := input.fileNumber;
    var F := Leaf(t[s.cursor], file);
    LoopStart(input, s, 0, stop);
    OperandStep(input, Later(s, 0, 1), 0, stop, [], None);
    assert Later(Later(s, 0, 1), 1, 1) == Later(s, 1, 2) && [] + [F] == [F];
    CallStep(input, Later(s, 1, 2), 0, stop, [F]);
    assert Later(Later(s, 1, 2), 1, 1) == Later(s, 2, 3);
    OneArgument(input, Later(s, 2, 3));
    assert Later(Later(s, 2, 3), 2, 4) == Later(s, 4, 7);
  }

  /** The argument list `a)` of a call: one argument, with the cursor past
      the `)`. */
  lemma OneArgument(input: ParserInput, s: ParseState)
    requires s.fuel >= 4 && s.cursor + 3 <= |input.tokens|
    requires IsOperand(input.tokens[s.cursor]) && input.tokens[s.cursor + 1].ArithmeticParenthesisClose?
    ensures CallArguments(input, s, []) == Ok(([Leaf(input.tokens[s.cursor], input.fileNumber)], Later(s, 2, 4)))
  {
    var A := Leaf(input.tokens[s.cursor], input.fileNumber);
    LoopStart(input, Later(s, 0, 1), 0, true);
    assert Later(Later(s, 0, 1), 0, 1) == Later(s, 0, 2);
    OperandStep(input, Later(s, 0, 2), 0, true, [], None);
    assert Later(Later(s, 0, 2), 1, 1) == Later(s, 1, 3) && [] + [A] == [A];
    var s3 := Later(s, 1, 4);
    assert ArithmeticLoop(input, Later(s, 1, 3), 0, true, [A], None)
           == OnToken(input, s3, 0, true, [A], None, input.tokens[s.cursor + 1]);
    assert OnToken(input, s3, 0, true, [A], None, input.tokens[s.cursor + 1]) == Conclude(input, Later(s, 2, 4), [A], None);
    assert ParseArithmetic(input, Later(s, 0, 1), 0, true) == Ok((Some(A), Later(s, 2, 4)));
    assert AfterArgument(input, Later(s, 2, 4), [] + [A]) == Ok(([A], Later(s, 2, 4)));
  }
}
