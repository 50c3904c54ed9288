// Model of compiler/parser/parse_datatype.rs: reading a type name, reading a
// parameter descriptor (`name : Type` or `external internal : Type`), and
// turning a descriptor into a function argument.

module DatatypeParsing {
  import opened Wrappers
  import opened Tokens
  import opened Nodes
  import opened ParserState
  import Objects
  import FunctionMetas

  const ExpectedDatatype: string := "not yet implemented: Expected datatype"
  const ExpectedName: string := "not yet implemented: Expected parameter name"
  const ExpectedColon: string := "not yet implemented: Expected ':' in parameter descriptor"
  const NotExpected: string := "not yet implemented: Not expected in parameter descriptor"

  /** Only the cursor moved, and it stayed within the tokens. */
  predicate CursorOnly(s: ParseState, s': ParseState, tokens: seq<Token>) {
    s' == s.(cursor := s'.cursor) && s'.cursor <= |tokens|
  }

  /** `parse_datatype`: an identifier at the cursor names a type; the
      result is the id of the first type of that name and the cursor moves
      past the identifier. Any other token, or an unknown name, panics. */
  function ParseDatatype(input: ParserInput, s: ParseState): (r: Outcome<(Objects.Uuid, ParseState)>)
    ensures !r.Diverged?
    ensures r.Ok? <==> s.cursor < |input.tokens| && input.tokens[s.cursor].Identifier?
                        && FirstNamed(input.datatypes, input.tokens[s.cursor].text).Some?
    ensures r.Ok? ==> r.value.1 == s.(cursor := s.cursor + 1) && CursorOnly(s, r.value.1, input.tokens)
    ensures r.Ok? ==> exists t :: t in input.datatypes && t.name == input.tokens[s.cursor].text
                                  && r.value.0 == t.typeUuid
  {
    var token :- TokenAt(input.tokens, s.cursor);
    if !token.Identifier? then Panic(ExpectedDatatype)
    else
      match FirstNamed(input.datatypes, token.text)
      case None => Panic(Unwrapped)
      case Some(t) => Ok((t.typeUuid, s.(cursor := s.cursor + 1)))
  }

  /** `parse_parameter_descriptor`. The first token is the (external)
      name. After `:` the type follows; after a second identifier, which is
      the internal name, a `:` and then the type follow. The internal name
      of the short form is the name itself only when `parseInternal` is
      set. */
  function ParseParameterDescriptor(input: ParserInput, s: ParseState, parseInternal: bool)
    : (r: Outcome<(ParameterDescriptor, ParseState)>)
    ensures !r.Diverged?
    ensures r.Ok? ==> CursorOnly(s, r.value.1, input.tokens)
                      && (r.value.1.cursor == s.cursor + 3 || r.value.1.cursor == s.cursor + 4)
    ensures r.Ok? ==> r.value.0.name.Some?
  {
    var first :- TokenAt(input.tokens, s.cursor);
    if !first.Identifier? then Panic(ExpectedName)
    else
      var name := first.text;
      var internalName := if parseInternal then Some(name) else None;
      var second :- TokenAt(input.tokens, s.cursor + 1);
      var after := s.(cursor := s.cursor + 2);
      match second
      case Colon(_) =>
        var (typeId, s') :- ParseDatatype(input, after);
        Ok((ParameterDescriptor(Some(name), internalName, typeId), s'))
      case Identifier(internal, _) =>
        var third :- TokenAt(input.tokens, after.cursor);
        if !third.Colon? then Panic(ExpectedColon)
        else
          var (typeId, s') :- ParseDatatype(input, after.(cursor := after.cursor + 1));
          Ok((ParameterDescriptor(Some(name), Some(internal), typeId), s'))
      case _ => Panic(NotExpected)
  }

  /** `name : Type` with a known type gives a descriptor called `name`,
      internally `name` too exactly when `parseInternal` is set, and moves
      the cursor by three. */
  lemma ShortDescriptor(input: ParserInput, s: ParseState, parseInternal: bool, name: string, typeName: string,
                        p: TokenPosition, q: TokenPosition, u: TokenPosition)
    requires s.cursor + 3 <= |input.tokens|
    requires input.tokens[s.cursor..s.cursor + 3] == [Identifier(name, p), Colon(q), Identifier(typeName, u)]
    requires FirstNamed(input.datatypes, typeName).Some?
    ensures ParseParameterDescriptor(input, s, parseInternal)
            == Ok((ParameterDescriptor(Some(name), if parseInternal then Some(name) else None,
                                       FirstNamed(input.datatypes, typeName).value.typeUuid),
                   s.(cursor := s.cursor + 3)))
  {
    assert input.tokens[s.cursor] == input.tokens[s.cursor..s.cursor + 3][0];
    assert input.tokens[s.cursor + 1] == input.tokens[s.cursor..s.cursor + 3][1];
    assert input.tokens[s.cursor + 2] == input.tokens[s.cursor..s.cursor + 3][2];
  }

  /** `external internal : Type` with a known type gives a descriptor with
      both names, whatever `parseInternal` says, and moves the cursor by
      four. */
  lemma LongDescriptor(input: ParserInput, s: ParseState, parseInternal: bool, name: string, internal: string,
                       typeName: string, p: TokenPosition, q: TokenPosition, u: TokenPosition, v: TokenPosition)
    requires s.cursor + 4 <= |input.tokens|
    requires input.tokens[s.cursor..s.cursor + 4] == [Identifier(name, p), Identifier(internal, q), Colon(u), Identifier(typeName, v)]
    requires FirstNamed(input.datatypes, typeName).Some?
    ensures ParseParameterDescriptor(input, s, parseInternal)
            == Ok((ParameterDescriptor(Some(name), Some(internal), FirstNamed(input.datatypes, typeName).value.typeUuid),
                   s.(cursor := s.cursor + 4)))
  {
    assert input.tokens[s.cursor] == input.tokens[s.cursor..s.cursor + 4][0];
    assert input.tokens[s.cursor + 1] == input.tokens[s.cursor..s.cursor + 4][1];
    assert input.tokens[s.cursor + 2] == input.tokens[s.cursor..s.cursor + 4][2];
    assert input.tokens[s.cursor + 3] == input.tokens[s.cursor..s.cursor + 4][3];
  }

  /** A descriptor is read only when a name is followed by `:` or by a
      second name; the cursor then moves by three or four respectively. */
  lemma DescriptorForms(input: ParserInput, s: ParseState, parseInternal: bool)
    requires ParseParameterDescriptor(input, s, parseInternal).Ok?
    ensures var r := ParseParameterDescriptor(input, s, parseInternal).value;
      && input.tokens[s.cursor].Identifier?
      && (input.tokens[s.cursor + 1].Colon? || input.tokens[s.cursor + 1].Identifier?)
      && (r.1.cursor == s.cursor + 3 <==> input.tokens[s.cursor + 1].Colon?)
      && r.0.name == Some(input.tokens[s.cursor].text)
  {
  }

  /** `generate_function_argument` as written: the descriptor's type id is
      passed where `FunctionArgument::new` expects the argument's own id,
      and the fresh id where it expects the type id. */
  function GenerateFunctionArgumentAsWritten(d: ParameterDescriptor, freshId: Objects.Uuid): (r: FunctionMetas.FunctionArgument)
    ensures r.name == d.name && r.ownUuid == d.datatypeUuid && r.typeUuid == freshId
  {
    FunctionMetas.FunctionArgument(d.name, d.datatypeUuid, freshId)
  }

  /** As written, two parameters of the same type get the same object id,
      however different their fresh ids are. */
  lemma SameTypeSharesId(a: ParameterDescriptor, b: ParameterDescriptor, freshA: Objects.Uuid, freshB: Objects.Uuid)
    requires a.datatypeUuid == b.datatypeUuid && freshA != freshB
    ensures GenerateFunctionArgumentAsWritten(a, freshA).ownUuid == GenerateFunctionArgumentAsWritten(b, freshB).ownUuid
    ensures GenerateFunctionArgumentAsWritten(a, freshA).typeUuid != a.datatypeUuid
            || GenerateFunctionArgumentAsWritten(b, freshB).typeUuid != b.datatypeUuid
  {
  }

  /** The argument the descriptor describes: its own id is the fresh id and
      its type is the descriptor's type, as `to_function_argument` of
      function_meta.rs lays them out. */
  function GenerateFunctionArgument(d: ParameterDescriptor, freshId: Objects.Uuid): (r: FunctionMetas.FunctionArgument)
    ensures r.name == d.name && r.ownUuid == freshId && r.typeUuid == d.datatypeUuid
  {
    FunctionMetas.FunctionArgument(d.name, freshId, d.datatypeUuid)
  }

  /** Parameters built from distinct fresh ids are distinct objects, and
      each keeps the type it was declared with. */
  lemma DistinctArgumentIds(ds: seq<ParameterDescriptor>, next: Objects.Uuid)
    ensures var args := seq(|ds|, i requires 0 <= i < |ds| => GenerateFunctionArgument(ds[i], next + i));
      && (forall i, j :: 0 <= i < j < |args| ==> args[i].ownUuid != args[j].ownUuid)
      && (forall i :: 0 <= i < |args| ==> args[i].typeUuid == ds[i].datatypeUuid)
  {
  }

  /** `parse_datatype` on the parser's own cursor. */
  method ReadDatatype(p: ParserMeta) returns (r: Outcome<Objects.Uuid>)
    modifies p
    ensures Agrees(r, ParseDatatype(p.input, old(p.State())), p.State())
  {
    if p.cursor >= |p.input.tokens| {
      return Panic(OutOfBounds);
    }
    var token := p.input.tokens[p.cursor];
    if !token.Identifier? {
      return Panic(ExpectedDatatype);
    }
    p.cursor := p.cursor + 1;
    var found := FirstNamed(p.input.datatypes, token.text);
    if found.None? {
      return Panic(Unwrapped);
    }
    r := Ok(found.value.typeUuid);
  }

  /** `parse_parameter_descriptor` on the parser's own cursor. */
  method ReadParameterDescriptor(p: ParserMeta, parseInternal: bool) returns (r: Outcome<ParameterDescriptor>)
    modifies p
    ensures Agrees(r, ParseParameterDescriptor(p.input, old(p.State()), parseInternal), p.State())
  {
    var tokens := p.input.tokens;
    ghost var s0 := p.State();
    if p.cursor >= |tokens| {
      return Panic(OutOfBounds);
    }
    if !tokens[p.cursor].Identifier? {
      return Panic(ExpectedName);
    }
    var name := tokens[p.cursor].text;
    var internalName: Option<string> := None;
    p.cursor := p.cursor + 1;
    if parseInternal {
      internalName := Some(name);
    }
    var backup := p.cursor;
    p.cursor := p.cursor + 1;
    if backup >= |tokens| {
      return Panic(OutOfBounds);
    }
    assert p.State() == s0.(cursor := s0.cursor + 2);
    assert TokenAt(tokens, s0.cursor + 1) == Ok(tokens[backup]);
    match tokens[backup]
    case Colon(_) =>
      var typeId := ReadDatatype(p);
      if typeId.Ok? {
        r := Ok(ParameterDescriptor(Some(name), internalName, typeId.value));
      } else {
        r := Panic(typeId.reason);
      }
    case Identifier(internal, _) =>
      internalName := Some(internal);
      if p.cursor >= |tokens| {
        return Panic(OutOfBounds);
      }
      if !tokens[p.cursor].Colon? {
        return Panic(ExpectedColon);
      }
      p.cursor := p.cursor + 1;
      assert p.State() == s0.(cursor := s0.cursor + 3);
      var typeId := ReadDatatype(p);
      if typeId.Ok? {
        r := Ok(ParameterDescriptor(Some(name), internalName, typeId.value));
      } else {
        r := Panic(typeId.reason);
      }
    case _ =>
      r := Panic(NotExpected);
  }
}
