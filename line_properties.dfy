// What the line parser of compiler/parser/parse_line.rs and
// parse_expression_kind.rs promises beyond the contracts of its functions:
// a statement whose arguments were read is always generated, unless an
// `extern` modifier is misplaced; and what it makes of a few whole lines
// and of an empty code block.

module LineProperties {
  import opened Wrappers
  import opened Tokens
  import opened Nodes
  import opened ParserState
  import opened Modifiers
  import opened LineParsing
  import EK = ExpressionKinds
  import Config
  import Statements
  import ArithmeticParsing
  import ArithmeticExamples

  /** The arguments read for a statement are those its format asks for, so
      `generate_node` succeeds on them: always for `let`, `var` and `exit`,
      and for a function unless an `extern` modifier comes before the last
      place. The panic "Statement didn't generate node" of the line parser
      is reached only in that case. */
  lemma StatementGenerated(input: ParserInput, s: ParseState, st: Statements.Statement, modifiers: seq<Modifier>)
    requires ParseMultiple(input, s, Statements.EntireFormat(st), []).Ok?
    requires forall i :: 0 <= i < |modifiers| ==> WellFormedModifier(modifiers[i])
    ensures var e := Statements.ExternIndex(modifiers);
            Statements.GenerateNode(st, ParseMultiple(input, s, Statements.EntireFormat(st), []).value.0, modifiers).Ok?
            <==> !(st.Function? && e.Some? && e.value != |modifiers| - 1)
  {
    var kinds := Statements.EntireFormat(st);
    assert Yielding(kinds);
    var arguments := ParseMultiple(input, s, kinds, []).value.0;
    assert |arguments| == |kinds|;
    forall i | 0 <= i < |kinds|
      ensures Fits(arguments[i], kinds[i].0)
    {
      assert arguments[0 + i] == arguments[i];
    }
    if st.Function? {
      assert Fits(arguments[0], EK.IdentifierKind);
      assert Fits(arguments[1], EK.ParameterDescriptorArray);
      assert Fits(arguments[2], EK.CodeBlock);
      var e := Statements.ExternIndex(modifiers);
      if e.Some? && e.value == |modifiers| - 1 {
        assert WellFormedModifier(modifiers[e.value]);
      }
    } else if st.Exit? {
    } else {
      assert Fits(arguments[0], EK.IdentifierKind);
    }
  }

  /** A line that does not start with a modifier keyword has no modifiers:
      one step is spent and the cursor stays. */
  lemma NoModifiers(input: ParserInput, s: ParseState)
    requires s.fuel > 0 && s.cursor < |input.tokens|
    requires !input.tokens[s.cursor].KeywordType? || !KeywordIsModifier(input.tokens[s.cursor].keyword)
    ensures ModifierLoop(input, s, []) == Ok(([], s.(fuel := s.fuel - 1)))
  {
    assert ModifierFrom(input, s) == Ok((None, s.(fuel := s.fuel - 1)));
  }

  /** `extern "a" "b"`: the modifier holds the two string literals that
      follow the keyword, with their texts and positions, and the cursor
      moves past all three tokens. */
  lemma ExternModifier(input: ParserInput, s: ParseState, a: string, pa: TokenPosition,
                       b: string, pb: TokenPosition, pk: TokenPosition)
    requires s.fuel >= 3 && s.cursor + 3 < |input.tokens|
    requires input.tokens[s.cursor] == KeywordType(Config.Extern, pk)
    requires input.tokens[s.cursor + 1] == StringLiteral(a, pa)
    requires input.tokens[s.cursor + 2] == StringLiteral(b, pb)
    ensures ModifierFrom(input, s)
            == Ok((Some(Modifier(Config.Extern, [StringLiteralNode(NodePosition(input.fileNumber, pa), a),
                                                 StringLiteralNode(NodePosition(input.fileNumber, pb), b)])),
                   s.(cursor := s.cursor + 3, fuel := s.fuel - 3)))
  {
    var kinds := [(EK.StringLiteral, true), (EK.StringLiteral, true)];
    assert GetFormat(Modifier(Config.Extern, [])) == Ok(kinds);
    var na := StringLiteralNode(NodePosition(input.fileNumber, pa), a);
    var nb := StringLiteralNode(NodePosition(input.fileNumber, pb), b);
    var sa := s.(cursor := s.cursor + 1, fuel := s.fuel - 1);
    var sb := s.(cursor := s.cursor + 2, fuel := s.fuel - 2);
    var sc := s.(cursor := s.cursor + 3, fuel := s.fuel - 3);
    assert ParseExpressionKind(input, sa, EK.StringLiteral, true) == Ok(([na], sb));
    assert ParseExpressionKind(input, sb, EK.StringLiteral, true) == Ok(([nb], sc));
    assert [] + [na] == [na] && [na] + [nb] == [na, nb];
    assert ParseMultiple(input, sb, kinds[1..], [na]) == Ok(([na, nb], sc));
    assert ParseMultiple(input, sa, kinds, []) == Ok(([na, nb], sc));
  }

  /** A line starting `extern "a" "b"` followed by no further modifier
      has exactly that modifier; one more step is spent looking at the
      token after it, and the cursor stays on that token. */
  lemma ExternModifierLoop(input: ParserInput, s: ParseState, a: string, pa: TokenPosition,
                           b: string, pb: TokenPosition, pk: TokenPosition)
    requires s.fuel >= 4 && s.cursor + 3 < |input.tokens|
    requires input.tokens[s.cursor] == KeywordType(Config.Extern, pk)
    requires input.tokens[s.cursor + 1] == StringLiteral(a, pa)
    requires input.tokens[s.cursor + 2] == StringLiteral(b, pb)
    requires !input.tokens[s.cursor + 3].KeywordType? || !KeywordIsModifier(input.tokens[s.cursor + 3].keyword)
    ensures ModifierLoop(input, s, [])
            == Ok(([Modifier(Config.Extern, [StringLiteralNode(NodePosition(input.fileNumber, pa), a),
                                             StringLiteralNode(NodePosition(input.fileNumber, pb), b)])],
                   s.(cursor := s.cursor + 3, fuel := s.fuel - 4)))
  {
    ExternModifier(input, s, a, pa, b, pb, pk);
    var m := Modifier(Config.Extern, [StringLiteralNode(NodePosition(input.fileNumber, pa), a),
                                      StringLiteralNode(NodePosition(input.fileNumber, pb), b)]);
    var sc := s.(cursor := s.cursor + 3, fuel := s.fuel - 3);
    assert ModifierFrom(input, sc) == Ok((None, sc.(fuel := sc.fuel - 1)));
    assert [] + [m] == [m];
  }

  /** A line without modifiers: two steps are spent, and the rest of the
      line is decided by its first token. */
  lemma LineStart(input: ParserInput, s: ParseState, idx: nat)
    requires s.fuel >= 2 && s.cursor < |input.tokens|
    requires !input.tokens[s.cursor].KeywordType? || !KeywordIsModifier(input.tokens[s.cursor].keyword)
    ensures ParseLine(input, s, idx)
            == LineBody(input, s.(cursor := s.cursor + 1, fuel := s.fuel - 2), idx, s.cursor, s.depth, [], input.tokens[s.cursor])
  {
    NoModifiers(input, s.(fuel := s.fuel - 1));
  }

  /** A line that is only `}`: the depth drops by one and the line ends
      at once, since the depth is now below the line's own. */
  lemma ClosingLine(input: ParserInput, s: ParseState, idx: nat)
    requires s.fuel >= 2 && s.cursor < |input.tokens| && input.tokens[s.cursor].CodeBlockParenthesisClose?
    requires s.depth > 0
    ensures ParseLine(input, s, idx) == Ok(s.(cursor := s.cursor + 1, depth := s.depth - 1, fuel := s.fuel - 2))
  {
    LineStart(input, s, idx);
  }

  /** `{ }`: the code block opens and closes on the next token, and the
      element is an empty, unlabelled block; depth and blocks are as
      before. */
  lemma EmptyBlock(input: ParserInput, s: ParseState)
    requires s.fuel >= 4 && s.cursor + 2 <= |input.tokens|
    requires input.tokens[s.cursor].CodeBlockParenthesisOpen? && input.tokens[s.cursor + 1].CodeBlockParenthesisClose?
    ensures ParseCodeBlock(input, s)
            == Ok((CodeBlockNode(NodePosition(input.fileNumber, TokenPosition(0, 0)), None, []),
                   s.(cursor := s.cursor + 2, fuel := s.fuel - 4)))
  {
    var opening := Block(NodePosition(input.fileNumber, TokenPosition(0, 0)), None, []);
    var s1 := s.(cursor := s.cursor + 1, depth := s.depth + 1, blocks := s.blocks + [opening]);
    var s4 := s1.(cursor := s.cursor + 2, depth := s.depth, fuel := s.fuel - 4);
    EmptyBlockLoop(input, s1, s.depth);
    assert s4.blocks[..|s4.blocks| - 1] == s.blocks;
    assert BlockNode(opening) == CodeBlockNode(NodePosition(input.fileNumber, TokenPosition(0, 0)), None, []);
  }

  /** The block loop right after `{`, on `}`: one line closes the block,
      and the loop stops at the depth it started from. */
  lemma EmptyBlockLoop(input: ParserInput, s1: ParseState, initial: nat)
    requires s1.fuel >= 4 && s1.cursor < |input.tokens| && input.tokens[s1.cursor].CodeBlockParenthesisClose?
    requires s1.depth == initial + 1 && |s1.blocks| > 0
    ensures CodeBlockLoop(input, s1, initial) == Ok(s1.(cursor := s1.cursor + 1, depth := initial, fuel := s1.fuel - 4))
  {
    var s2 := s1.(fuel := s1.fuel - 1);
    ClosingLine(input, s2, |s1.blocks| - 1);
    var s3 := s1.(cursor := s1.cursor + 1, depth := initial, fuel := s1.fuel - 3);
    assert CodeBlockLoop(input, s3, initial) == Ok(s3.(fuel := s1.fuel - 4));
  }

  /** Statements whose keyword is not the line's are passed over, one
      step each, and the line is left as it was. */
  lemma {:induction false} OtherStatements(input: ParserInput, s: ParseState, idx: nat, keyword: Config.Keyword,
                                           modifiers: seq<Modifier>, i: nat)
    requires i <= |input.statements| && s.fuel >= |input.statements| - i
    requires forall j :: i <= j < |input.statements| ==> Statements.AffiliatedKeyword(input.statements[j]) != Some(keyword)
    ensures StatementLoop(input, s, idx, keyword, modifiers, i) == Ok(s.(fuel := s.fuel - (|input.statements| - i)))
    decreases |input.statements| - i
  {
    if i < |input.statements| {
      OtherStatements(input, s.(fuel := s.fuel - 1), idx, keyword, modifiers, i + 1);
    }
  }

  /** The arguments of `let x = v` or `var x = v` with `v` a single
      operand ending the line: the identifier, the `=` and the operand,
      read in six steps; the cursor stops on the line end. */
  lemma LetArguments(input: ParserInput, s: ParseState)
    requires s.fuel >= 6 && s.cursor + 4 <= |input.tokens|
    requires input.tokens[s.cursor].Identifier? && input.tokens[s.cursor + 1].Assignment?
    requires ArithmeticExamples.IsOperand(input.tokens[s.cursor + 2])
    requires ArithmeticParsing.IsLineDelimiting(input.tokens[s.cursor + 3])
    ensures var file := input.fileNumber;
            ParseMultiple(input, s, [(EK.IdentifierKind, true), (EK.Assignment, true), (EK.Value, true)], [])
            == Ok(([IdentifierNode(input.tokens[s.cursor].text, None, NodePosition(file, input.tokens[s.cursor].pos)),
                    AssignmentSymbolNode(NodePosition(file, input.tokens[s.cursor + 1].pos)),
                    ArithmeticExamples.Leaf(input.tokens[s.cursor + 2], file)],
                   s.(cursor := s.cursor + 3, fuel := s.fuel - 6)))
  {
    var file := input.fileNumber;
    var x := IdentifierNode(input.tokens[s.cursor].text, None, NodePosition(file, input.tokens[s.cursor].pos));
    var eq := AssignmentSymbolNode(NodePosition(file, input.tokens[s.cursor + 1].pos));
    var v := ArithmeticExamples.Leaf(input.tokens[s.cursor + 2], file);
    var kinds := [(EK.IdentifierKind, true), (EK.Assignment, true), (EK.Value, true)];
    var s1 := s.(cursor := s.cursor + 1, fuel := s.fuel - 1);
    var s2 := s.(cursor := s.cursor + 2, fuel := s.fuel - 2);
    var s3 := s.(cursor := s.cursor + 2, fuel := s.fuel - 3);
    assert ParseExpressionKind(input, s, EK.IdentifierKind, true) == Ok(([x], s1));
    assert ParseExpressionKind(input, s1, EK.Assignment, true) == Ok(([eq], s2));
    ArithmeticExamples.LoneOperand(input, s3, 0, true);
    assert ArithmeticExamples.Later(s3, 1, 3) == s.(cursor := s.cursor + 3, fuel := s.fuel - 6);
    assert ParseExpressionKind(input, s2, EK.Value, true) == Ok(([v], s.(cursor := s.cursor + 3, fuel := s.fuel - 6)));
    var s6 := s.(cursor := s.cursor + 3, fuel := s.fuel - 6);
    assert kinds[1..] == [(EK.Assignment, true), (EK.Value, true)] && kinds[1..][1..] == [(EK.Value, true)];
    assert [(EK.Value, true)][1..] == [];
    assert [] + [x] == [x] && [x] + [eq] == [x, eq] && [x, eq] + [v] == [x, eq, v];
    assert ParseMultiple(input, s6, [], [x, eq, v]) == Ok(([x, eq, v], s6));
    assert ParseMultiple(input, s2, [(EK.Value, true)], [x, eq]) == ParseMultiple(input, s6, [], [x, eq, v]);
    assert ParseMultiple(input, s1, kinds[1..], [x]) == ParseMultiple(input, s2, kinds[1..][1..], [x, eq]);
    assert ParseMultiple(input, s, kinds, []) == ParseMultiple(input, s1, kinds[1..], [x]);
  }

  /** One line end, then the end of the tokens or a token that is neither
      a line end nor `}`: the line end is skipped and nothing else changes. */
  lemma OneLineEnd(input: ParserInput, s: ParseState, initial: nat)
    requires s.depth >= initial && s.cursor < |input.tokens| && ArithmeticParsing.IsLineDelimiting(input.tokens[s.cursor])
    requires s.cursor + 1 == |input.tokens|
             || (!ArithmeticParsing.IsLineDelimiting(input.tokens[s.cursor + 1])
                 && !input.tokens[s.cursor + 1].CodeBlockParenthesisClose?)
    ensures SkipNewlines(input, s, initial) == Ok(s.(cursor := s.cursor + 1))
  {
    assert SkipNewlines(input, s, initial) == SkipAfter(input, s.(cursor := s.cursor + 1), initial);
  }

  /** The statement loop on `let x = v`: the `let` statement reads its
      arguments and appends its node; the other three statements are passed
      over. */
  lemma LetStatement(input: ParserInput, s: ParseState, idx: nat)
    requires input.statements == Statements.AllStatements
    requires s.fuel >= 10 && idx < |s.blocks| && s.cursor + 4 <= |input.tokens|
    requires input.tokens[s.cursor].Identifier? && input.tokens[s.cursor + 1].Assignment?
    requires ArithmeticExamples.IsOperand(input.tokens[s.cursor + 2])
    requires ArithmeticParsing.IsLineDelimiting(input.tokens[s.cursor + 3])
    ensures var node := LetNode(input.tokens[s.cursor].text,
                                Some(ArithmeticExamples.Leaf(input.tokens[s.cursor + 2], input.fileNumber)),
                                false, Statements.Origin);
            StatementLoop(input, s, idx, Config.Let, [], 0)
            == Ok(s.(cursor := s.cursor + 3, fuel := s.fuel - 10,
                     blocks := s.blocks[idx := s.blocks[idx].(code := s.blocks[idx].code + [node])]))
  {
    var v := ArithmeticExamples.Leaf(input.tokens[s.cursor + 2], input.fileNumber);
    var node := LetNode(input.tokens[s.cursor].text, Some(v), false, Statements.Origin);
    var sD := s.(cursor := s.cursor + 3, fuel := s.fuel - 7,
                 blocks := s.blocks[idx := s.blocks[idx].(code := s.blocks[idx].code + [node])]);
    LetRound(input, s, idx);
    OnlyFirstIsLet();
    OtherStatements(input, sD, idx, Config.Let, [], 1);
  }

  /** The round of the statement loop on `let`: the line's arguments are
      read, the let node is generated and pushed onto block `idx`. */
  lemma LetRound(input: ParserInput, s: ParseState, idx: nat)
    requires input.statements == Statements.AllStatements
    requires s.fuel >= 10 && idx < |s.blocks| && s.cursor + 4 <= |input.tokens|
    requires input.tokens[s.cursor].Identifier? && input.tokens[s.cursor + 1].Assignment?
    requires ArithmeticExamples.IsOperand(input.tokens[s.cursor + 2])
    requires ArithmeticParsing.IsLineDelimiting(input.tokens[s.cursor + 3])
    ensures var node := LetNode(input.tokens[s.cursor].text,
                                Some(ArithmeticExamples.Leaf(input.tokens[s.cursor + 2], input.fileNumber)),
                                false, Statements.Origin);
            StatementLoop(input, s, idx, Config.Let, [], 0)
            == StatementLoop(input, s.(cursor := s.cursor + 3, fuel := s.fuel - 7,
                                       blocks := s.blocks[idx := s.blocks[idx].(code := s.blocks[idx].code + [node])]),
                             idx, Config.Let, [], 1)
  {
    var file := input.fileNumber;
    var x := IdentifierNode(input.tokens[s.cursor].text, None, NodePosition(file, input.tokens[s.cursor].pos));
    var eq := AssignmentSymbolNode(NodePosition(file, input.tokens[s.cursor + 1].pos));
    var v := ArithmeticExamples.Leaf(input.tokens[s.cursor + 2], file);
    var node := LetNode(input.tokens[s.cursor].text, Some(v), false, Statements.Origin);
    var sB := s.(fuel := s.fuel - 1);
    LetArguments(input, sB);
    var sC := s.(cursor := s.cursor + 3, fuel := s.fuel - 7);
    OnlyFirstIsLet();
    assert Statements.EntireFormat(input.statements[0]) == [(EK.IdentifierKind, true), (EK.Assignment, true), (EK.Value, true)];
    Statements.LetStatementNode(Statements.Let, x.identifier, None, x.position, eq.position, v, []);
    var sD := sC.(blocks := s.blocks[idx := s.blocks[idx].(code := s.blocks[idx].code + [node])]);
    assert PushCode(sC, idx, node) == Ok(sD);
    StatementStep(input, s, idx, Config.Let, [], 0, [x, eq, v], sC, node, [], sD);
  }

  /** Of all statements only the first, `let`, belongs to the keyword
      `let`. */
  lemma OnlyFirstIsLet()
    ensures Statements.AllStatements[0] == Statements.Let
    ensures forall j :: 1 <= j < |Statements.AllStatements| ==>
      Statements.AffiliatedKeyword(Statements.AllStatements[j]) != Some(Config.Let)
  {
  }

  /** One round of the statement loop on a statement of the line's keyword
      whose arguments parse, whose node generates and is pushed. */
  lemma StatementStep(input: ParserInput, s: ParseState, idx: nat, keyword: Config.Keyword, modifiers: seq<Modifier>,
                      i: nat, arguments: seq<Node>, s2: ParseState, node: Node, modifiers': seq<Modifier>,
                      s3: ParseState)
    requires i < |input.statements| && s.fuel > 0
    requires Statements.AffiliatedKeyword(input.statements[i]) == Some(keyword)
    requires ParseMultiple(input, s.(fuel := s.fuel - 1), Statements.EntireFormat(input.statements[i]), [])
             == Ok((arguments, s2))
    requires Statements.GenerateNode(input.statements[i], arguments, modifiers) == Ok((node, modifiers'))
    requires PushCode(s2, idx, node) == Ok(s3)
    ensures StatementLoop(input, s, idx, keyword, modifiers, i) == StatementLoop(input, s3, idx, keyword, modifiers', i + 1)
  {
  }

  /** The rest of the line `let x = v` after its keyword `first`. */
  lemma LetLineBody(input: ParserInput, s: ParseState, idx: nat, lineStart: nat, first: Token)
    requires input.statements == Statements.AllStatements
    requires first.KeywordType? && first.keyword == Config.Let
    requires s.fuel >= 10 && idx < |s.blocks| && s.cursor + 4 <= |input.tokens|
    requires input.tokens[s.cursor].Identifier? && input.tokens[s.cursor + 1].Assignment?
    requires ArithmeticExamples.IsOperand(input.tokens[s.cursor + 2])
    requires ArithmeticParsing.IsLineDelimiting(input.tokens[s.cursor + 3])
    requires s.cursor + 4 == |input.tokens|
             || (!ArithmeticParsing.IsLineDelimiting(input.tokens[s.cursor + 4])
                 && !input.tokens[s.cursor + 4].CodeBlockParenthesisClose?)
    ensures var node := LetNode(input.tokens[s.cursor].text,
                                Some(ArithmeticExamples.Leaf(input.tokens[s.cursor + 2], input.fileNumber)),
                                false, Statements.Origin);
            LineBody(input, s, idx, lineStart, s.depth, [], first)
            == Ok(s.(cursor := s.cursor + 4, fuel := s.fuel - 10,
                     blocks := s.blocks[idx := s.blocks[idx].(code := s.blocks[idx].code + [node])]))
  {
    LetStatement(input, s, idx);
    var node := LetNode(input.tokens[s.cursor].text,
                        Some(ArithmeticExamples.Leaf(input.tokens[s.cursor + 2], input.fileNumber)),
                        false, Statements.Origin);
    var sE := s.(cursor := s.cursor + 3, fuel := s.fuel - 10,
                 blocks := s.blocks[idx := s.blocks[idx].(code := s.blocks[idx].code + [node])]);
    OneLineEnd(input, sE, s.depth);
  }

  /** The line `let x = v` with `v` a single operand, the statements being
      those of the language: a let node binding `x` to `v`, immutable, is
      appended to block `idx`, the line end is skipped, and nothing else
      changes. */
  lemma LetLine(input: ParserInput, s: ParseState, idx: nat)
    requires input.statements == Statements.AllStatements
    requires s.fuel >= 12 && idx < |s.blocks| && s.cursor + 5 <= |input.tokens|
    requires input.tokens[s.cursor].KeywordType? && input.tokens[s.cursor].keyword == Config.Let
    requires input.tokens[s.cursor + 1].Identifier? && input.tokens[s.cursor + 2].Assignment?
    requires ArithmeticExamples.IsOperand(input.tokens[s.cursor + 3])
    requires ArithmeticParsing.IsLineDelimiting(input.tokens[s.cursor + 4])
    requires s.cursor + 5 == |input.tokens|
             || (!ArithmeticParsing.IsLineDelimiting(input.tokens[s.cursor + 5])
                 && !input.tokens[s.cursor + 5].CodeBlockParenthesisClose?)
    ensures var node := LetNode(input.tokens[s.cursor + 1].text,
                                Some(ArithmeticExamples.Leaf(input.tokens[s.cursor + 3], input.fileNumber)),
                                false, Statements.Origin);
            ParseLine(input, s, idx)
            == Ok(s.(cursor := s.cursor + 5, fuel := s.fuel - 12,
                     blocks := s.blocks[idx := s.blocks[idx].(code := s.blocks[idx].code + [node])]))
  {
    LineStart(input, s, idx);
    LetLineBody(input, s.(cursor := s.cursor + 1, fuel := s.fuel - 2), idx, s.cursor, input.tokens[s.cursor]);
  }

  /** The rest of the line `x = v` after the identifier `x`. */
  lemma Assigned(input: ParserInput, s: ParseState, idx: nat, lineStart: nat, x: Token)
    requires x.Identifier? && s.fuel >= 3 && idx < |s.blocks| && lineStart + 4 <= |input.tokens|
    requires input.tokens[lineStart + 1].Assignment? && ArithmeticExamples.IsOperand(input.tokens[lineStart + 2])
    requires ArithmeticParsing.IsLineDelimiting(input.tokens[lineStart + 3])
    requires lineStart + 4 == |input.tokens|
             || (!ArithmeticParsing.IsLineDelimiting(input.tokens[lineStart + 4])
                 && !input.tokens[lineStart + 4].CodeBlockParenthesisClose?)
    ensures var position := NodePosition(input.fileNumber, x.pos);
            var node := AssignmentNode(IdentifierNode(x.text, None, position),
                                       ArithmeticExamples.Leaf(input.tokens[lineStart + 2], input.fileNumber), position);
            IdentifierLine(input, s, idx, lineStart, s.depth, x)
            == Ok(s.(cursor := lineStart + 4, fuel := s.fuel - 3,
                     blocks := s.blocks[idx := s.blocks[idx].(code := s.blocks[idx].code + [node])]))
  {
    var position := NodePosition(input.fileNumber, x.pos);
    var v := ArithmeticExamples.Leaf(input.tokens[lineStart + 2], input.fileNumber);
    var node := AssignmentNode(IdentifierNode(x.text, None, position), v, position);
    var s1 := s.(cursor := lineStart + 2);
    ArithmeticExamples.LoneOperand(input, s1, 0, false);
    var s2 := s.(cursor := lineStart + 3, fuel := s.fuel - 3);
    assert ArithmeticExamples.Later(s1, 1, 3) == s2;
    var s3 := s2.(blocks := s.blocks[idx := s.blocks[idx].(code := s.blocks[idx].code + [node])]);
    assert PushCode(s2, idx, node) == Ok(s3);
    OneLineEnd(input, s3, s.depth);
  }

  /** The line `x = v` with `v` a single operand: an assignment node of
      the untyped identifier `x` and `v`, at the identifier's position, is
      appended to block `idx` and the line end is skipped. */
  lemma AssignmentLine(input: ParserInput, s: ParseState, idx: nat)
    requires s.fuel >= 5 && idx < |s.blocks| && s.cursor + 4 <= |input.tokens|
    requires input.tokens[s.cursor].Identifier? && input.tokens[s.cursor + 1].Assignment?
    requires ArithmeticExamples.IsOperand(input.tokens[s.cursor + 2])
    requires ArithmeticParsing.IsLineDelimiting(input.tokens[s.cursor + 3])
    requires s.cursor + 4 == |input.tokens|
             || (!ArithmeticParsing.IsLineDelimiting(input.tokens[s.cursor + 4])
                 && !input.tokens[s.cursor + 4].CodeBlockParenthesisClose?)
    ensures var x := input.tokens[s.cursor];
            var position := NodePosition(input.fileNumber, x.pos);
            var node := AssignmentNode(IdentifierNode(x.text, None, position),
                                       ArithmeticExamples.Leaf(input.tokens[s.cursor + 2], input.fileNumber), position);
            ParseLine(input, s, idx)
            == Ok(s.(cursor := s.cursor + 4, fuel := s.fuel - 5,
                     blocks := s.blocks[idx := s.blocks[idx].(code := s.blocks[idx].code + [node])]))
  {
    LineStart(input, s, idx);
    Assigned(input, s.(cursor := s.cursor + 1, fuel := s.fuel - 2), idx, s.cursor, input.tokens[s.cursor]);
  }

  /** The line `v` with `v` a single identifier and no `=` after it: the
      identifier's value node is appended to block `idx`, and the line end
      is NOT skipped; the cursor stays on it. */
  lemma ExpressionLine(input: ParserInput, s: ParseState, idx: nat)
    requires s.fuel >= 5 && idx < |s.blocks| && s.cursor + 2 <= |input.tokens|
    requires input.tokens[s.cursor].Identifier? && ArithmeticParsing.IsLineDelimiting(input.tokens[s.cursor + 1])
    ensures var node := ArithmeticExamples.Leaf(input.tokens[s.cursor], input.fileNumber);
            ParseLine(input, s, idx)
            == Ok(s.(cursor := s.cursor + 1, fuel := s.fuel - 5,
                     blocks := s.blocks[idx := s.blocks[idx].(code := s.blocks[idx].code + [node])]))
  {
    var node := ArithmeticExamples.Leaf(input.tokens[s.cursor], input.fileNumber);
    LineStart(input, s, idx);
    var s1 := s.(fuel := s.fuel - 2);
    ArithmeticExamples.LoneOperand(input, s1, 0, false);
    var s2 := s.(cursor := s.cursor + 1, fuel := s.fuel - 5);
    assert ArithmeticExamples.Later(s1, 1, 3) == s2;
    assert IdentifierLine(input, s.(cursor := s.cursor + 1, fuel := s.fuel - 2), idx, s.cursor, s.depth, input.tokens[s.cursor])
           == PushCode(s2, idx, node);
  }
}
