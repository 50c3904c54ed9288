// Model of compiler/parser/parse_arg_array.rs: a parenthesised list of
// parameter descriptors. The source takes the element parser as a closure;
// its one caller passes `parse_parameter_descriptor` with internal names
// enabled, which is what the model fixes.

module ArgArrays {
  import opened Wrappers
  import opened Tokens
  import opened Nodes
  import opened ParserState
  import DatatypeParsing

  const ExpectedOpening: string := "not yet implemented: didnt find the thing '('"

  /** The elements after the cursor up to and including the closing
      parenthesis, collected after `data`. Colons between elements are
      skipped. Every round moves the cursor forward, so the loop ends at
      `)` or with a panic at the end of the tokens. */
  function ArgLoop(input: ParserInput, s: ParseState, data: seq<ParameterDescriptor>)
    : (r: Outcome<(seq<ParameterDescriptor>, ParseState)>)
    ensures !r.Diverged?
    ensures r.Ok? ==> DatatypeParsing.CursorOnly(s, r.value.1, input.tokens) && r.value.1.cursor > s.cursor
    ensures r.Ok? ==> input.tokens[r.value.1.cursor - 1].ArithmeticParenthesisClose?
    ensures r.Ok? ==> |r.value.0| >= |data| && r.value.0[..|data|] == data
    decreases |input.tokens| - s.cursor
  {
    var token :- TokenAt(input.tokens, s.cursor);
    if token.Colon? then ArgLoop(input, s.(cursor := s.cursor + 1), data)
    else if token.ArithmeticParenthesisClose? then Ok((data, s.(cursor := s.cursor + 1)))
    else
      var (d, s') :- DatatypeParsing.ParseParameterDescriptor(input, s, true);
      var r := ArgLoop(input, s', data + [d]);
      assert r.Ok? ==> r.value.0[..|data|] == (data + [d])[..|data|];
      r
  }

  /** `parse_arg_array`: `(` is required at the cursor; the descriptors up
      to the matching `)` are returned in order, with the cursor just past
      it. Depth and blocks are untouched. */
  function ParseArgArray(input: ParserInput, s: ParseState): (r: Outcome<(seq<ParameterDescriptor>, ParseState)>)
    ensures !r.Diverged?
    ensures r.Ok? ==> s.cursor < |input.tokens| && input.tokens[s.cursor].ArithmeticParenthesisOpen?
    ensures r.Ok? ==> DatatypeParsing.CursorOnly(s, r.value.1, input.tokens) && r.value.1.cursor >= s.cursor + 2
    ensures r.Ok? ==> input.tokens[r.value.1.cursor - 1].ArithmeticParenthesisClose?
  {
    var token :- TokenAt(input.tokens, s.cursor);
    if !token.ArithmeticParenthesisOpen? then Panic(ExpectedOpening)
    else ArgLoop(input, s.(cursor := s.cursor + 1), [])
  }

  /** `()` is the empty list. */
  lemma EmptyArray(input: ParserInput, s: ParseState, p: TokenPosition, q: TokenPosition)
    requires s.cursor + 2 <= |input.tokens|
    requires input.tokens[s.cursor] == ArithmeticParenthesisOpen(p)
    requires input.tokens[s.cursor + 1] == ArithmeticParenthesisClose(q)
    ensures ParseArgArray(input, s) == Ok(([], s.(cursor := s.cursor + 2)))
  {
  }

  /** Each element is one parameter descriptor: reading the list is reading
      a descriptor, skipping any colons after it, and reading the rest. */
  lemma {:induction false} ElementThenRest(input: ParserInput, s: ParseState, data: seq<ParameterDescriptor>, k: nat)
    requires s.cursor < |input.tokens|
    requires !input.tokens[s.cursor].Colon? && !input.tokens[s.cursor].ArithmeticParenthesisClose?
    requires DatatypeParsing.ParseParameterDescriptor(input, s, true).Ok?
    requires var s' := DatatypeParsing.ParseParameterDescriptor(input, s, true).value.1;
      s'.cursor + k <= |input.tokens| && forall j :: s'.cursor <= j < s'.cursor + k ==> input.tokens[j].Colon?
    ensures var (d, s') := DatatypeParsing.ParseParameterDescriptor(input, s, true).value;
      ArgLoop(input, s, data) == ArgLoop(input, s'.(cursor := s'.cursor + k), data + [d])
  {
    var (d, s') := DatatypeParsing.ParseParameterDescriptor(input, s, true).value;
    SkipColons(input, s', data + [d], k);
  }

  /** Colons are skipped without changing the collected elements. */
  lemma {:induction false} SkipColons(input: ParserInput, s: ParseState, data: seq<ParameterDescriptor>, k: nat)
    requires s.cursor + k <= |input.tokens|
    requires forall j :: s.cursor <= j < s.cursor + k ==> input.tokens[j].Colon?
    ensures ArgLoop(input, s, data) == ArgLoop(input, s.(cursor := s.cursor + k), data)
    decreases k
  {
    if k > 0 {
      SkipColons(input, s.(cursor := s.cursor + 1), data, k - 1);
    }
  }

  /** `parse_arg_array` on the parser's own cursor: a loop that reads the
      tokens one element at a time. */
  method ReadArgArray(p: ParserMeta) returns (r: Outcome<seq<ParameterDescriptor>>)
    modifies p
    ensures Agrees(r, ParseArgArray(p.input, old(p.State())), p.State())
  {
    var tokens := p.input.tokens;
    if p.cursor >= |tokens| {
      return Panic(OutOfBounds);
    }
    if !tokens[p.cursor].ArithmeticParenthesisOpen? {
      return Panic(ExpectedOpening);
    }
    p.cursor := p.cursor + 1;
    var data: seq<ParameterDescriptor> := [];
    while true
      invariant ArgLoop(p.input, p.State(), data) == ArgLoop(p.input, old(p.State()).(cursor := old(p.cursor) + 1), [])
      invariant p.State() == old(p.State()).(cursor := p.cursor)
      decreases |tokens| - p.cursor
    {
      if p.cursor >= |tokens| {
        return Panic(OutOfBounds);
      }
      var token := tokens[p.cursor];
      if token.Colon? {
        p.cursor := p.cursor + 1;
      } else if token.ArithmeticParenthesisClose? {
        p.cursor := p.cursor + 1;
        return Ok(data);
      } else {
        var d := DatatypeParsing.ReadParameterDescriptor(p, true);
        if !d.Ok? {
          return Panic(d.reason);
        }
        data := data + [d.value];
      }
    }
  }
}
