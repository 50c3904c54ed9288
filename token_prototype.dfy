// Model of `TokenPrototype::into_token` in
// compiler/tokenization/token_prototype.rs: a lexer match, its span and its
// text become a classified token. The lexer itself is not modelled; the
// prototype it recognised is the input.

module TokenPrototypes {
  import opened Wrappers
  import Config
  import Operators
  import IntegerTypes
  import opened Tokens
  import Objects
  import IntegerBuild
  import Diagnostics

  /** The kinds of lexer match (the `test` prototype exists only in test
      builds and is not modelled). */
  datatype TokenPrototype =
    | StringLiteralProto
    | IntegerLiteralProto
    | BoolLiteralTrue
    | BoolLiteralFalse
    | AssignmentProto
    | SoftNewlineProto
    | OperationProto
    | HardNewlineProto
    | ArgumentSeparatorProto
    | ArithmeticParenthesisOpenProto
    | ArithmeticParenthesisCloseProto
    | CurlyParenthesisOpenProto
    | CurlyParenthesisCloseProto
    | ColonProto
    | IdentifierProto

  /** A lexer span: byte offsets of the first character and one past the
      last one. */
  datatype Span = Span(start: nat, end: nat)

  /** The prototypes that need nothing but their position. */
  predicate IsFixed(p: TokenPrototype) {
    !(p.StringLiteralProto? || p.IntegerLiteralProto? || p.OperationProto? || p.IdentifierProto?)
  }

  /** The token of a fixed prototype. */
  function FixedToken(p: TokenPrototype, pos: TokenPosition): Token
    requires IsFixed(p)
  {
    match p
    case BoolLiteralTrue => BoolLiteral(true, pos)
    case BoolLiteralFalse => BoolLiteral(false, pos)
    case AssignmentProto => Assignment(pos)
    case SoftNewlineProto => SoftNewline(pos)
    case HardNewlineProto => HardNewline(pos)
    case ArgumentSeparatorProto => ArgumentSeparator(pos)
    case ArithmeticParenthesisOpenProto => ArithmeticParenthesisOpen(pos)
    case ArithmeticParenthesisCloseProto => ArithmeticParenthesisClose(pos)
    case CurlyParenthesisOpenProto => CodeBlockParenthesisOpen(pos)
    case CurlyParenthesisCloseProto => CodeBlockParenthesisClose(pos)
    case ColonProto => Colon(pos)
  }

  /** The operator arm: the first operation, in declaration order, whose
      symbol is the text; an unknown symbol panics (`todo!`). */
  function OperatorToken(contents: string, pos: TokenPosition): Outcome<Token> {
    var op := Operators.FromSymbol(contents);
    if op.Some? then Ok(Operator(op.value, pos)) else Panic("Unknown operation: " + contents + " passed regex")
  }

  /** The string-literal arm: the text without its delimiters; slicing a
      text shorter than two characters panics. */
  function StringToken(contents: string, pos: TokenPosition): Outcome<Token> {
    if |contents| >= 2 then Ok(StringLiteral(contents[1..|contents| - 1], pos))
    else Panic("byte index out of range")
  }

  /** The integer-literal arm: the value and type `generate_integer` found,
      or a panic when it found none, with what it logged. */
  function IntegerToken(types: seq<(IntegerTypes.IntegerType, Objects.ObjectType)>, contents: string, pos: TokenPosition)
    : (r: (Outcome<Token>, seq<Diagnostics.Notification>))
    ensures !r.0.Diverged? && |r.1| <= 1
    ensures r.0.Ok? ==> r.0.value.IntegerLiteral?
    ensures r.0.Ok? && r.0.value.kind.Some? ==> IntegerBuild.InRange(r.0.value.kind.value, r.0.value.value)
  {
    var generated := IntegerBuild.IntegerOfToken(types, UnspecifiedString(contents, pos));
    (if generated.0.Some? then Ok(IntegerLiteral(generated.0.value.0, generated.0.value.1, pos))
     else Panic("todo: implement error, integer expected, found " + contents), generated.1)
  }

  /** The identifier arm: the first keyword, in declaration order, written
      as the text, or else an identifier with the text. */
  function IdentifierToken(contents: string, pos: TokenPosition): Token {
    var k := Config.FindKeyword(contents);
    if k.Some? then KeywordType(k.value, pos) else Identifier(contents, pos)
  }

  /** `into_token`: the token and the notifications `generate_integer`
      wrote to the error log. The position's length is a `usize`
      subtraction, which panics when the span ends before it starts.
      At most one notification is written, and only for an integer
      literal; a typed integer lies within its type's bounds. */
  function IntoToken(p: TokenPrototype, span: Span, contents: string, types: seq<(IntegerTypes.IntegerType, Objects.ObjectType)>)
    : (r: (Outcome<Token>, seq<Diagnostics.Notification>))
    ensures !r.0.Diverged?
    ensures span.end < span.start ==> r.0.Panic?
    ensures |r.1| <= 1 && (p != IntegerLiteralProto ==> r.1 == [])
    ensures r.0.Ok? && r.0.value.IntegerLiteral? && r.0.value.kind.Some? ==>
      IntegerBuild.InRange(r.0.value.kind.value, r.0.value.value)
  {
    if span.end < span.start then (Panic("attempt to subtract with overflow"), [])
    else Convert(p, TokenPosition(span.start, span.end - span.start), contents, types)
  }

  /** The arm of `into_token` for each prototype, at position `pos`. */
  function Convert(p: TokenPrototype, pos: TokenPosition, contents: string,
                   types: seq<(IntegerTypes.IntegerType, Objects.ObjectType)>)
    : (Outcome<Token>, seq<Diagnostics.Notification>)
  {
    match p
    case OperationProto => (OperatorToken(contents, pos), [])
    case StringLiteralProto => (StringToken(contents, pos), [])
    case IntegerLiteralProto => IntegerToken(types, contents, pos)
    case IdentifierProto => (Ok(IdentifierToken(contents, pos)), [])
    case _ => (Ok(FixedToken(p, pos)), [])
  }

  /** Every token made from a well-formed span sits at the span's start and
      is as long as the span; only integer literals write to the log. */
  lemma IntoTokenPosition(p: TokenPrototype, span: Span, contents: string, types: seq<(IntegerTypes.IntegerType, Objects.ObjectType)>)
    ensures IntoToken(p, span, contents, types).0.Ok? ==>
      span.start <= span.end
      && GetPosition(IntoToken(p, span, contents, types).0.value) == TokenPosition(span.start, span.end - span.start)
    ensures !p.IntegerLiteralProto? ==> IntoToken(p, span, contents, types).1 == []
  {
  }

  /** Fixed prototypes always convert, and distinct fixed prototypes give
      distinct tokens: the mapping is one to one. */
  lemma FixedOneToOne(p: TokenPrototype, q: TokenPrototype, span: Span, a: string, b: string,
                      types: seq<(IntegerTypes.IntegerType, Objects.ObjectType)>)
    requires IsFixed(p) && IsFixed(q) && span.start <= span.end
    ensures IntoToken(p, span, a, types).0.Ok?
    ensures IntoToken(p, span, a, types).0 == IntoToken(q, span, b, types).0 <==> p == q
  {
  }

  /** Round trip: a quoted text comes back without its quotes. */
  lemma StringLiteralUnquotes(inner: string, span: Span, types: seq<(IntegerTypes.IntegerType, Objects.ObjectType)>)
    requires span.start <= span.end
    ensures IntoToken(StringLiteralProto, span, "\"" + inner + "\"", types).0
      == Ok(StringLiteral(inner, TokenPosition(span.start, span.end - span.start)))
  {
    var quoted := "\"" + inner + "\"";
    assert quoted[1..|quoted| - 1] == inner;
  }

  /** A string literal loses exactly its first and last character. */
  lemma StringLiteralText(span: Span, contents: string, types: seq<(IntegerTypes.IntegerType, Objects.ObjectType)>)
    requires span.start <= span.end
    ensures IntoToken(StringLiteralProto, span, contents, types).0.Ok? <==> |contents| >= 2
    ensures IntoToken(StringLiteralProto, span, contents, types).0.Ok? ==>
      var text := RawText(IntoToken(StringLiteralProto, span, contents, types).0.value).value;
      contents == [contents[0]] + text + [contents[|contents| - 1]]
  {
    if |contents| >= 2 {
      var text := contents[1..|contents| - 1];
      assert contents == [contents[0]] + text + [contents[|contents| - 1]];
    }
  }

  /** An operator's text converts to the operation with that symbol, and
      the token's raw text is the text again; any other text panics. */
  lemma OperatorText(span: Span, contents: string, types: seq<(IntegerTypes.IntegerType, Objects.ObjectType)>)
    requires span.start <= span.end
    ensures IntoToken(OperationProto, span, contents, types).0.Ok? <==> exists op :: Operators.Symbol(op) == contents
    ensures IntoToken(OperationProto, span, contents, types).0.Ok? ==>
      IntoToken(OperationProto, span, contents, types).0.value.Operator?
      && RawText(IntoToken(OperationProto, span, contents, types).0.value) == Some(contents)
  {
    var pos := TokenPosition(span.start, span.end - span.start);
    OperatorArm(span, contents, types);
    OperatorTokenText(contents, pos);
  }

  /** An operator prototype is converted by the operator arm alone. */
  lemma OperatorArm(span: Span, contents: string, types: seq<(IntegerTypes.IntegerType, Objects.ObjectType)>)
    requires span.start <= span.end
    ensures IntoToken(OperationProto, span, contents, types).0
            == OperatorToken(contents, TokenPosition(span.start, span.end - span.start))
  {
    var pos := TokenPosition(span.start, span.end - span.start);
    assert IntoToken(OperationProto, span, contents, types) == Convert(OperationProto, pos, contents, types);
  }

  /** The operator arm converts exactly the symbols of operations, into
      operators whose raw text is the symbol. */
  lemma OperatorTokenText(contents: string, pos: TokenPosition)
    ensures OperatorToken(contents, pos).Ok? <==> exists op :: Operators.Symbol(op) == contents
    ensures OperatorToken(contents, pos).Ok? ==>
      OperatorToken(contents, pos).value.Operator? && RawText(OperatorToken(contents, pos).value) == Some(contents)
  {
    var op := Operators.FromSymbol(contents);
    if op.None? {
      assert forall o :: Operators.Symbol(o) != contents;
      assert OperatorToken(contents, pos).Panic?;
    } else {
      var t := Operator(op.value, pos);
      assert OperatorToken(contents, pos) == Ok(t);
      assert RawText(t) == Some(Operators.Symbol(op.value));
      assert Operators.Symbol(op.value) == contents;
    }
  }

  /** Each operation's symbol converts to that operation. */
  lemma OperatorRoundTrip(op: Operators.Operation, span: Span, types: seq<(IntegerTypes.IntegerType, Objects.ObjectType)>)
    requires span.start <= span.end
    ensures IntoToken(OperationProto, span, Operators.Symbol(op), types).0
      == Ok(Operator(op, TokenPosition(span.start, span.end - span.start)))
  {
    OperatorArm(span, Operators.Symbol(op), types);
    Operators.FromSymbolOfSymbol(op);
  }

  /** A keyword's name becomes that keyword; any other identifier keeps its
      text. */
  lemma IdentifierText(span: Span, contents: string, types: seq<(IntegerTypes.IntegerType, Objects.ObjectType)>)
    requires span.start <= span.end
    ensures IntoToken(IdentifierProto, span, contents, types).0.Ok?
    ensures (exists k :: Config.KeywordName(k) == contents) <==>
      IntoToken(IdentifierProto, span, contents, types).0.value.KeywordType?
    ensures IntoToken(IdentifierProto, span, contents, types).0.value.KeywordType? ==>
      Config.KeywordName(IntoToken(IdentifierProto, span, contents, types).0.value.keyword) == contents
    ensures IntoToken(IdentifierProto, span, contents, types).0.value.Identifier? ==>
      RawText(IntoToken(IdentifierProto, span, contents, types).0.value) == Some(contents)
  {
  }

  /** A keyword's own name converts to that keyword. */
  lemma KeywordRoundTrip(k: Config.Keyword, span: Span, types: seq<(IntegerTypes.IntegerType, Objects.ObjectType)>)
    requires span.start <= span.end
    ensures IntoToken(IdentifierProto, span, Config.KeywordName(k), types).0
      == Ok(KeywordType(k, TokenPosition(span.start, span.end - span.start)))
  {
    Config.FindKeywordName(k);
  }

  /** The integer-literal arm takes value and type from `generate_integer`,
      keeps its log, and panics exactly when no integer comes out. */
  lemma IntegerLiteralValue(types: seq<(IntegerTypes.IntegerType, Objects.ObjectType)>, contents: string, pos: TokenPosition)
    ensures var generated := IntegerBuild.IntegerOfToken(types, UnspecifiedString(contents, pos));
      IntegerToken(types, contents, pos).1 == generated.1
      && (IntegerToken(types, contents, pos).0.Ok? <==> generated.0.Some?)
      && (generated.0.Some? ==>
            IntegerToken(types, contents, pos).0 == Ok(IntegerLiteral(generated.0.value.0, generated.0.value.1, pos)))
  {
  }
}
