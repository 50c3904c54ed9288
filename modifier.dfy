// The pure part of compiler/parser/modifier.rs: which keywords are
// modifiers and what arguments each expects. Reading a modifier from the
// token stream (`modifier_from`) belongs to the line parser, with which it
// is mutually recursive.

module Modifiers {
  import opened Wrappers
  import opened ExpressionKinds
  import Config
  import Nodes

  /** `Modifier`: the keyword and the nodes parsed as its arguments. */
  datatype Modifier = Modifier(base: Config.Keyword, arguments: seq<Nodes.Node>)

  /** `keyword_is_modifier`. */
  function KeywordIsModifier(k: Config.Keyword): (r: bool)
    ensures r <==> k == Config.Extern
  {
    match k
    case Extern => true
    case _ => false
  }

  const NotImplemented: string := "not yet implemented"

  /** `get_format`: an `extern` modifier takes two required string
      literals; every other keyword is unimplemented. */
  function GetFormat(m: Modifier): (r: Outcome<Format>)
    ensures r.Ok? <==> KeywordIsModifier(m.base)
    ensures r.Ok? ==> |r.value| == 2 && forall i :: 0 <= i < |r.value| ==> r.value[i] == (StringLiteral, true)
    ensures !r.Diverged?
  {
    match m.base
    case Extern => Ok([(StringLiteral, true), (StringLiteral, true)])
    case _ => Panic(NotImplemented)
  }

  /** Exactly one keyword is a modifier. */
  lemma OneModifierKeyword()
    ensures forall k :: k in Config.AllKeywords && KeywordIsModifier(k) ==> k == Config.Extern
    ensures |set k | k in Config.AllKeywords && KeywordIsModifier(k)| == 1
  {
    assert (set k | k in Config.AllKeywords && KeywordIsModifier(k)) == {Config.Extern};
  }
}
