// Model of compiler/parser/statements.rs: the four statements, the keyword
// that starts each, the formats of their headers and bodies, and the node
// each builds from its parsed arguments and the line's modifiers.

module Statements {
  import opened Wrappers
  import opened ExpressionKinds
  import opened Nodes
  import opened Modifiers
  import Config
  import Tokens

  datatype Statement = Let | Var | Exit | Function

  /** `Statements::iter()`: declaration order. */
  const AllStatements: seq<Statement> := [Let, Var, Exit, Function]

  /** `get_affiliated_keyword`. */
  function AffiliatedKeyword(s: Statement): (r: Option<Config.Keyword>)
    ensures r.Some? && !KeywordIsModifier(r.value)
  {
    match s
    case Let => Some(Config.Let)
    case Var => Some(Config.Var)
    case Exit => Some(Config.Exit)
    case Function => Some(Config.Function)
  }

  /** Different statements are started by different keywords, so a keyword
      selects at most one statement. */
  lemma AffiliatedKeywordInjective(s: Statement, t: Statement)
    ensures AffiliatedKeyword(s) == AffiliatedKeyword(t) ==> s == t
  {
  }

  /** `get_header_format`. */
  function HeaderFormat(s: Statement): Format {
    match s
    case Let => [(IdentifierKind, true)]
    case Var => [(IdentifierKind, true)]
    case Exit => []
    case Function => [(IdentifierKind, true), (ParameterDescriptorArray, true)]
  }

  /** `get_body_format`. */
  function BodyFormat(s: Statement): Format {
    match s
    case Let => [(Assignment, true), (Value, true)]
    case Var => [(Assignment, true), (Value, true)]
    case Exit => [(Value, true)]
    case Function => [(CodeBlock, true)]
  }

  /** What the line parser expects after a statement's keyword: the header
      format followed by the body format. Every element is required. */
  function EntireFormat(s: Statement): (r: Format)
    ensures forall i :: 0 <= i < |r| ==> r[i].1
    ensures s.Let? || s.Var? ==> r == [(IdentifierKind, true), (Assignment, true), (Value, true)]
    ensures s.Exit? ==> r == [(Value, true)]
    ensures s.Function? ==> r == [(IdentifierKind, true), (ParameterDescriptorArray, true), (CodeBlock, true)]
  {
    HeaderFormat(s) + BodyFormat(s)
  }

  /** Where statement nodes are placed: line 0, the zero position. */
  const Origin: NodePosition := NodePosition(0, Tokens.TokenPosition(0, 0))

  const OutOfBounds: string := "index out of bounds"
  const Unwrapped: string := "called `Option::unwrap()` on a `None` value"
  const ExternNotLast: string := "not yet implemented: Throw an error: extern expect as last modifier"

  /** The position of the first `extern` modifier. */
  function ExternIndex(modifiers: seq<Modifier>): (r: Option<nat>)
    ensures r.Some? ==> (r.value < |modifiers| && modifiers[r.value].base == Config.Extern
                         && forall j :: 0 <= j < r.value ==> modifiers[j].base != Config.Extern)
    ensures r.None? ==> forall j :: 0 <= j < |modifiers| ==> modifiers[j].base != Config.Extern
  {
    if |modifiers| == 0 then None
    else if modifiers[0].base == Config.Extern then Some(0)
    else
      var rest := ExternIndex(modifiers[1..]);
      if rest.Some? then Some(rest.value + 1) else None
  }

  /** `generate_node` (called by the line parser as `generate_entire_node`):
      the statement's node, and the modifiers left after it consumed its
      own. Each `[i]`, `unwrap` and downcast of the source fails with a
      panic here. */
  function GenerateNode(s: Statement, arguments: seq<Node>, modifiers: seq<Modifier>): (r: Outcome<(Node, seq<Modifier>)>)
    ensures !r.Diverged?
    ensures r.Ok? && !s.Function? ==> r.value.1 == modifiers
  {
    match s
    case Exit =>
      if |arguments| == 0 then Panic(OutOfBounds)
      else Ok((ExitNode(arguments[0], Origin), modifiers))
    case Function => GenerateFunction(arguments, modifiers)
    case _ =>
      if |arguments| == 0 then Panic(OutOfBounds)
      else if !arguments[0].IdentifierNode? then Panic(Unwrapped)
      else if |arguments| < 3 then Panic(OutOfBounds)
      else Ok((LetNode(arguments[0].identifier, Some(arguments[2]), s == Var, Origin), modifiers))
  }

  /** The `Function` case of `generate_node`: the name, the parameters and
      the block come from the arguments; an `extern` modifier, which must be
      the last one, is consumed and its second argument becomes the block's
      label. */
  function GenerateFunction(arguments: seq<Node>, modifiers: seq<Modifier>): (r: Outcome<(Node, seq<Modifier>)>)
    ensures !r.Diverged?
    ensures r.Ok? ==> r.value.0.FunctionDeclarationNode?
  {
    if |arguments| == 0 then Panic(OutOfBounds)
    else if !arguments[0].IdentifierNode? then Panic(Unwrapped)
    else
      var block := arguments[|arguments| - 1];
      if !block.CodeBlockNode? then Panic(Unwrapped)
      else if |arguments| < 2 then Panic(OutOfBounds)
      else if !arguments[1].ArgumentsNode? then Panic(Unwrapped)
      else
        var parameters := arguments[1].args;
        var e := ExternIndex(modifiers);
        if e.None? then
          Ok((FunctionDeclarationNode(Origin, arguments[0].identifier, block, parameters, []), modifiers))
        else if e.value != |modifiers| - 1 then Panic(ExternNotLast)
        else
          var externArguments := modifiers[e.value].arguments;
          if |externArguments| < 2 then Panic(OutOfBounds)
          else if !externArguments[1].StringLiteralNode? then Panic(Unwrapped)
          else
            var labelled := block.(blockLabel := Some(externArguments[1].text));
            Ok((FunctionDeclarationNode(Origin, arguments[0].identifier, labelled, parameters, []),
                modifiers[..e.value] + modifiers[e.value + 1..]))
  }

  /** `let x = v` and `var x = v`: a let node binding `x` to `v`, mutable
      exactly for `var`, with the modifiers untouched. */
  lemma LetStatementNode(s: Statement, x: string, t: Option<Objects.ObjectType>, p: NodePosition,
                         q: NodePosition, v: Node, modifiers: seq<Modifier>)
    requires s.Let? || s.Var?
    ensures GenerateNode(s, [IdentifierNode(x, t, p), AssignmentSymbolNode(q), v], modifiers)
            == Ok((LetNode(x, Some(v), s.Var?, Origin), modifiers))
  {
  }

  /** `exit v`: an exit node over `v`. */
  lemma ExitStatementNode(v: Node, modifiers: seq<Modifier>)
    ensures GenerateNode(Exit, [v], modifiers) == Ok((ExitNode(v, Origin), modifiers))
  {
  }

  /** A function declaration without `extern` keeps its block and the
      modifiers as they are. With `extern` as the last modifier, that
      modifier is consumed and the block is labelled with its second
      argument; with `extern` anywhere else, generation panics. */
  lemma FunctionStatementNode(name: string, t: Option<Objects.ObjectType>, p: NodePosition,
                              parameters: seq<ParameterDescriptor>, q: NodePosition, block: Node,
                              modifiers: seq<Modifier>)
    requires block.CodeBlockNode?
    ensures var r := GenerateNode(Function, [IdentifierNode(name, t, p), ArgumentsNode(q, parameters), block], modifiers);
      && (ExternIndex(modifiers).None? ==>
            r == Ok((FunctionDeclarationNode(Origin, name, block, parameters, []), modifiers)))
      && (ExternIndex(modifiers).Some? && ExternIndex(modifiers).value != |modifiers| - 1 ==> r.Panic?)
      && (forall name2, q', m' :: |modifiers| > 0
            && modifiers[|modifiers| - 1].base == Config.Extern
            && ExternIndex(modifiers[..|modifiers| - 1]).None?
            && |modifiers[|modifiers| - 1].arguments| >= 2
            && modifiers[|modifiers| - 1].arguments[1] == StringLiteralNode(q', name2)
            && m' == modifiers[..|modifiers| - 1]
            ==> r == Ok((FunctionDeclarationNode(Origin, name, block.(blockLabel := Some(name2)), parameters, []), m')))
  {
    var arguments := [IdentifierNode(name, t, p), ArgumentsNode(q, parameters), block];
    forall name2, q', m' | |modifiers| > 0
        && modifiers[|modifiers| - 1].base == Config.Extern
        && ExternIndex(modifiers[..|modifiers| - 1]).None?
        && |modifiers[|modifiers| - 1].arguments| >= 2
        && modifiers[|modifiers| - 1].arguments[1] == StringLiteralNode(q', name2)
        && m' == modifiers[..|modifiers| - 1]
      ensures GenerateNode(Function, arguments, modifiers)
              == Ok((FunctionDeclarationNode(Origin, name, block.(blockLabel := Some(name2)), parameters, []), m'))
    {
      var n := |modifiers| - 1;
      var e := ExternIndex(modifiers);
      forall j | 0 <= j < n ensures modifiers[j].base != Config.Extern {
        assert modifiers[..n][j] == modifiers[j];
      }
      assert e == Some(n);
      assert modifiers[n + 1..] == [];
      assert modifiers[..n] + modifiers[n + 1..] == m';
      assert arguments[|arguments| - 1] == block;
    }
  }
}
