// Models of compiler/parser/parse_token.rs and of the older `parse_token` in
// compiler/parser/parse.rs: a single token becomes a leaf node, or nothing.

module TokenParsing {
  import opened Wrappers
  import opened Tokens
  import opened Nodes
  import IntegerTypes
  import Lowering
  import Instructions

  /** The leaf a value token stands for: integer and bool literals inside a
      literal shell, identifiers untyped; both inside a value shell. */
  predicate IsLeafOf(n: Node, token: Token, lineNumber: nat) {
    match token
    case IntegerLiteral(v, kind, pos) =>
      n == ValueNode(LiteralValueNode(IntegerLiteralNode(v, kind, NodePosition(lineNumber, pos))))
    case BoolLiteral(b, pos) =>
      n == ValueNode(LiteralValueNode(BoolLiteralNode(b, NodePosition(lineNumber, pos))))
    case Identifier(text, pos) =>
      n == ValueNode(IdentifierNode(text, None, NodePosition(lineNumber, pos)))
    case _ => false
  }

  /** `parse_token` of parse_token.rs. */
  function ParseToken(token: Token, lineNumber: nat): (r: Option<Node>)
    ensures r.Some? <==> token.IntegerLiteral? || token.BoolLiteral? || token.Identifier?
    ensures r.Some? ==> IsLeafOf(r.value, token, lineNumber)
  {
    match token
    case IntegerLiteral(v, kind, pos) =>
      Some(ValueNode(LiteralValueNode(IntegerLiteralNode(v, kind, NodePosition(lineNumber, pos)))))
    case BoolLiteral(b, pos) =>
      Some(ValueNode(LiteralValueNode(BoolLiteralNode(b, NodePosition(lineNumber, pos)))))
    case Identifier(text, pos) =>
      Some(ValueNode(IdentifierNode(text, None, NodePosition(lineNumber, pos))))
    case _ => None
  }

  /** The older `parse_token` of parse.rs: only integer literals are
      accepted. */
  function ParseTokenLegacy(token: Token, lineNumber: nat): (r: Option<Node>)
    ensures r.Some? <==> token.IntegerLiteral?
    ensures r.Some? ==> IsLeafOf(r.value, token, lineNumber)
  {
    match token
    case IntegerLiteral(v, kind, pos) =>
      Some(ValueNode(LiteralValueNode(IntegerLiteralNode(v, kind, NodePosition(lineNumber, pos)))))
    case _ => None
  }

  /** The newer version extends the older one: both agree wherever the
      older accepts a token. */
  lemma LegacyAgrees(token: Token, lineNumber: nat)
    ensures ParseTokenLegacy(token, lineNumber).Some? ==> ParseTokenLegacy(token, lineNumber) == ParseToken(token, lineNumber)
    ensures ParseTokenLegacy(token, lineNumber).None? && ParseToken(token, lineNumber).Some?
            <==> token.BoolLiteral? || token.Identifier?
  {
  }

  /** The test of parse.rs: `IntegerLiteral(10, u32)` at the zero position
      on line 0. */
  lemma LegacyIntegerExample()
    ensures ParseTokenLegacy(IntegerLiteral(10, Some(IntegerTypes.Unsigned32BitInteger), TokenPosition(0, 0)), 0)
            == Some(ValueNode(LiteralValueNode(IntegerLiteralNode(10, Some(IntegerTypes.Unsigned32BitInteger),
                                                                   NodePosition(0, TokenPosition(0, 0))))))
  {
  }

  /** A parsed literal may be mutated in place and a parsed identifier may
      not. */
  lemma ParsedMutability(token: Token, lineNumber: nat)
    requires ParseToken(token, lineNumber).Some?
    ensures OutputIsRandomlyMutable(ParseToken(token, lineNumber).value) == Some(!token.Identifier?)
  {
  }

  /** A parsed integer literal lowers to a single move of its value, wrapped
      to 64 bits, into a fresh id. */
  lemma ParsedIntegerLowers(token: Token, lineNumber: nat, c: ContextState, next: nat)
    requires token.IntegerLiteral?
    ensures var r := Lowering.Lower(ParseToken(token, lineNumber).value, c, next);
      r == Ok(Lowering.Lowered([Instructions.MoveData(next, Lowering.WrapI64(token.value))], Some(next), c, next + 1))
  {
    var leaf := IntegerLiteralNode(token.value, token.kind, NodePosition(lineNumber, token.pos));
    calc {
      Lowering.Lower(ParseToken(token, lineNumber).value, c, next);
      Lowering.LowerUnpacked(LiteralValueNode(leaf), c, next);
      Lowering.LowerUnpacked(leaf, c, next);
      Lowering.Lower(leaf, c, next);
    }
  }
}
