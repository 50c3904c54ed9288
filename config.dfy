// Model of the constants in config.rs that the core uses.

module Config {
  import opened Wrappers

  /** The keywords of the language. config.rs declares `let` and `var`; the
      parser also uses `Exit`, `Function` and `Extern`, whose spellings are
      this model's choice. */
  datatype Keyword = Let | Var | Exit | Function | Extern

  /** Declaration order, which is the order `Keyword::iter()` visits. */
  const AllKeywords: seq<Keyword> := [Let, Var, Exit, Function, Extern]

  /** The text a keyword is written as (`AsRef<str>`). */
  function KeywordName(k: Keyword): (r: string)
    ensures 3 <= |r| && forall i :: 0 <= i < |r| ==> 'a' <= r[i] <= 'z'
    ensures r != TrueName && r != FalseName
  {
    match k
    case Let => "let"
    case Var => "var"
    case Exit => "exit"
    case Function => "func"
    case Extern => "extern"
  }

  /** The first keyword, in declaration order, written as `text`. */
  function FindKeyword(text: string): (r: Option<Keyword>)
    ensures r.Some? ==> KeywordName(r.value) == text
    ensures r.None? ==> forall k :: KeywordName(k) != text
  {
    FindKeywordIn(AllKeywords, text)
  }

  function FindKeywordIn(ks: seq<Keyword>, text: string): (r: Option<Keyword>)
    ensures r.Some? ==> r.value in ks && KeywordName(r.value) == text
    ensures r.None? ==> forall k :: k in ks ==> KeywordName(k) != text
  {
    if ks == [] then None
    else if KeywordName(ks[0]) == text then Some(ks[0])
    else FindKeywordIn(ks[1..], text)
  }

  /** Keyword names are pairwise distinct, so looking a keyword's own name up
      finds that keyword. */
  lemma FindKeywordName(k: Keyword)
    ensures FindKeyword(KeywordName(k)) == Some(k)
  {
    var r := FindKeyword(KeywordName(k));
    assert r.Some? && KeywordName(r.value) == KeywordName(k);
    assert "let"[0] == 'l' && "var"[0] == 'v' && "exit"[0] == 'e' && "func"[0] == 'f' && "extern"[0] == 'e';
    assert "exit"[1] == 'x' && "extern"[1] == 'x' && "exit"[2] == 'i' && "extern"[2] == 't';
  }

  /** `BOOL_STATE_NAMES`: the spelling of true and of false. */
  const TrueName: string := "true"
  const FalseName: string := "false"

  /** `ASSIGNMENT_OPERATION`. */
  const AssignmentOperation: string := "="
}
