// Model of compiler/tokenization/token.rs: the classified tokens and their
// accessors. The variant list is the union of those declared in token.rs and
// those produced by token_prototype.rs (newlines, separators, braces, colon).

module Tokens {
  import opened Wrappers
  import Config
  import Operators
  import IntegerTypes

  /** `TokenPosition`: where in its line a token starts and how long it is. */
  datatype TokenPosition = TokenPosition(start: nat, length: nat)

  datatype Token =
    | UnspecifiedString(text: string, pos: TokenPosition)
    | StringLiteral(text: string, pos: TokenPosition)
    | IntegerLiteral(value: int, kind: Option<IntegerTypes.IntegerType>, pos: TokenPosition)
    | BoolLiteral(truth: bool, pos: TokenPosition)
    | KeywordType(keyword: Config.Keyword, pos: TokenPosition)
    | Identifier(text: string, pos: TokenPosition)
    | Operator(op: Operators.Operation, pos: TokenPosition)
    | Assignment(pos: TokenPosition)
    | ArithmeticParenthesisOpen(pos: TokenPosition)
    | ArithmeticParenthesisClose(pos: TokenPosition)
    | SoftNewline(pos: TokenPosition)
    | HardNewline(pos: TokenPosition)
    | ArgumentSeparator(pos: TokenPosition)
    | CodeBlockParenthesisOpen(pos: TokenPosition)
    | CodeBlockParenthesisClose(pos: TokenPosition)
    | Colon(pos: TokenPosition)

  /** `get_position`: every variant carries its position. */
  function GetPosition(t: Token): (r: TokenPosition)
    ensures r == t.pos
  {
    match t
    case UnspecifiedString(_, p) => p
    case StringLiteral(_, p) => p
    case IntegerLiteral(_, _, p) => p
    case BoolLiteral(_, p) => p
    case KeywordType(_, p) => p
    case Identifier(_, p) => p
    case Operator(_, p) => p
    case Assignment(p) => p
    case ArithmeticParenthesisOpen(p) => p
    case ArithmeticParenthesisClose(p) => p
    case SoftNewline(p) => p
    case HardNewline(p) => p
    case ArgumentSeparator(p) => p
    case CodeBlockParenthesisOpen(p) => p
    case CodeBlockParenthesisClose(p) => p
    case Colon(p) => p
  }

  /** `get_raw_text`: the text a token stands for, where it has one. */
  function RawText(t: Token): Option<string> {
    match t
    case StringLiteral(text, _) => Some(text)
    case Identifier(text, _) => Some(text)
    case BoolLiteral(b, _) => Some(if b then Config.TrueName else Config.FalseName)
    case UnspecifiedString(text, _) => Some(text)
    case Operator(op, _) => Some(Operators.Symbol(op))
    case Assignment(_) => Some(Config.AssignmentOperation)
    case _ => None
  }

  /** The tokens that carry text: exactly these have a raw text. */
  predicate HasText(t: Token) {
    t.StringLiteral? || t.Identifier? || t.BoolLiteral? || t.UnspecifiedString?
    || t.Operator? || t.Assignment?
  }

  /** Raw text exists exactly for the textual tokens; text-carrying
      tokens give their text back unchanged. */
  lemma RawTextCases(t: Token)
    ensures RawText(t).Some? <==> HasText(t)
    ensures (t.StringLiteral? || t.Identifier? || t.UnspecifiedString?) ==> RawText(t) == Some(t.text)
  {
  }

  /** The raw text of a literal, operator or assignment determines the
      token's content: a boolean renders as its own name, and an operator's
      rendering is read back as the same operator. */
  lemma RawTextDeterminesContent(t: Token)
    ensures t.BoolLiteral? ==> (RawText(t) == Some("true") <==> t.truth)
    ensures t.BoolLiteral? ==> (RawText(t) == Some("false") <==> !t.truth)
    ensures t.Operator? ==> Operators.FromSymbol(RawText(t).value) == Some(t.op)
    ensures t.Assignment? ==> RawText(t) == Some("=")
  {
    if t.Operator? {
      Operators.FromSymbolOfSymbol(t.op);
    }
  }

  /** An assignment never renders like an operator, so `=` and `==` stay
      apart. */
  lemma AssignmentIsNotAnOperator(op: Operators.Operation, p: TokenPosition, q: TokenPosition)
    ensures RawText(Assignment(p)) != RawText(Operator(op, q))
  {
  }
}
