# smisc compiler core, modelled in Dafny

This project models the core of the smisc compiler, a small compiler written in Rust for the
smisc language that emits AArch64 assembly. The model follows the compiler from source text to
assembly text:

- **Lexical helpers.** Comment and whitespace stripping with a block-comment flag carried across
  lines (`trim` in trimmer.rs and splitter.rs). Integer-literal decoding in decimal, `0x`, `0b` and
  `0o` forms with underscores ignored (`convert_to_int`). Lexer prototypes turned into tokens.
- **Literal typing.** The table of integer types with their bounds, names and sizes. Typed and
  untyped integer literals built from suffixes. Object types as trait lists with prefix lookup.
  The rule that picks one object out of several builders' results.
- **Parser.** A cursor-based parser over a token list: line dispatch by statement keyword,
  assignment or expression; modifiers; expression kinds; parameter descriptors and argument
  arrays; precedence-climbing arithmetic with function calls. The parser state (cursor, block
  depth, the stack of blocks under construction) is a class whose methods update it in place.
  Each method is proved to agree with a parsing function, and the properties are proved about
  those functions.
- **Lowering.** Syntax nodes lowered to an intermediate code addressed by object ids, with a
  context of name bindings, object types, mutable objects, a label counter and an error log.
  Each `generate_instructions` is a method on a context object and an id supply, proved to agree
  with a lowering function.
- **Back end.** The pass that inserts a `Drop` after each object's last use. The register
  allocator that spills to a stack map. The AArch64 text renderer. Optimisation-flag resolution
  and exit-code composition.

Every `panic!`, `todo!()`, failed `unwrap()` and out-of-range index of the source is an explicit
`Panic` outcome of the model, except for the few preconditions listed under "## Left out", where a
member requires what the source would otherwise panic on. `Uuid::new_v4()` is a counter that hands out fresh ids.
`display_error` appends a notification to the context's error log.

The source files come from different snapshots of the project. Where they disagree, the model
follows the code that defines a thing rather than the code that calls it:
- `convert_to_int` returns a plain option, as math.rs defines it, although integer.rs reads its
  result as an option of a result.
- parse_line.rs calls `parse_arithmetic_expression` with an older parameter list. It is modelled
  as the defined function, with minimum precedence 0.
- parse_line.rs calls a `generate_entire_node` that statements.rs does not define. It is modelled
  by `generate_node` on the arguments read for the whole format.
- `Keyword` in config.rs lacks the `exit`, function and `extern` keywords the parser uses. They are
  added, spelled `exit`, `func` and `extern`.
- `Token` in token.rs lacks variants that token_prototype.rs produces, such as `Colon` and
  `SoftNewline`. The model's token type has all of them.

Two definitions follow their callers instead, because the defining code is older than every use
of it:
- `AssemblyInstruction` in assembly.rs has six variants over `u8` register numbers. The model's
  assembly instruction has the variants that aarch64.rs (lines 71-111) and arch/mod.rs (lines 48,
  92 and 95) build and match, over the `Register` type those files use, with `StackLoad` and
  `StackStore` taking a register and an offset.
- aarch64.rs imports a `ComparisonType` from flattener.rs, which defines only the eight-variant
  `JumpComparisonType`. The model's comparison type has the six variants the `cset` match of
  aarch64.rs (lines 99-106) names. The jump comparisons of flattener.rs, carry tests included,
  are a separate type.

## Model

| member | source | states |
|---|---|---|
| Config.KeywordName | src/config.rs:120-144 | every keyword is spelled with at least three lower-case letters and is neither `true` nor `false` |
| Config.FindKeyword | src/config.rs:127-144 | a keyword is found exactly when some keyword is spelled as the text, and the one found is spelled that way |
| Config.FindKeywordName | src/config.rs:127-144 | keyword spellings are distinct: looking up a keyword's own spelling yields that keyword |
| Operators.FromSymbol | src/util/operator.rs:13-50 | parsing operator text succeeds exactly when some operation has that symbol, and returns such an operation |
| Operators.FromSymbolOfSymbol | src/util/operator.rs:13-50 | symbols are distinct: parsing an operation's own symbol yields that operation |
| Operators.ShiftIsNotAnOperation | src/util/operator.rs:13-50 | text outside the symbol table such as `<<` is not an operation |
| Operators.Symbol | src/util/operator.rs:13-50 | every symbol is one character, or two characters ending in `=`, and starts with one of `+ - * / % = ! < >` |
| Operators.OrderLevels | src/util/operator.rs:62-76 | precedence is 2 exactly for `* / %`, 1 exactly for `+ -`, and 0 exactly for the operations whose every result is a truth value, which are those whose symbol starts with `=`, `!`, `<` or `>` |
| Operators.CommutativeMeansSwappable | src/util/operator.rs:93-99 | `is_commutative` holds exactly for the operations whose operands can be swapped without changing any result |
| Operators.GetIdentity | src/util/operator.rs:78-91 | whenever an identity is returned, the operation is commutative and the value is a two-sided identity of it |
| Operators.IsCommutative | src/util/operator.rs:93-99 | an operation called commutative gives the same result with its operands swapped, for all operands |
| Operators.OperationOrder | src/util/operator.rs:60-76 | the order is at most 2; the level of each operation is stated by Operators.OrderLevels |
| Operators.IsBoolean | src/util/operator.rs:54-58 | an operation with a boolean result is commutative and has order 0 |
| Operators.IdentityCases | src/util/operator.rs:78-91 | an identity exists exactly for `+` (0) and `*` (1); `==`/`!=` fail as unspecified; every non-commutative operation fails as non-commutative |
| Operators.BooleanOnlyEquals | src/util/operator.rs:54-58 | only `==` has a boolean result |
| Tokens.GetPosition | src/compiler/tokenization/token.rs:49-62 | every token variant reports the position it was built with |
| Tokens.RawTextCases | src/compiler/tokenization/token.rs:64-76 | raw text exists exactly for string, identifier, boolean, unspecified, operator and assignment tokens; textual tokens give their text back |
| Tokens.RawTextDeterminesContent | src/compiler/tokenization/token.rs:64-76 | a boolean's raw text is `true`/`false` according to its value, an operator's text parses back to the same operator, an assignment renders as `=` |
| Tokens.AssignmentIsNotAnOperator | src/compiler/tokenization/token.rs:71-72 | an assignment's raw text never equals an operator's |
| IntegerConversion.DigitValue | src/util/math.rs:19-35 | a digit is accepted only with a value below the radix |
| IntegerConversion.FromStrRadix | src/util/math.rs:15-35 | a parsed value always lies within `i128` and comes from non-empty text |
| IntegerConversion.Prefixed | src/util/math.rs:19-35 | a prefixed parse succeeds only on text carrying the prefix, with a value within `i128` |
| IntegerConversion.Decode | src/util/math.rs:14-38 | a decoded value lies within `i128` and comes from non-empty text |
| IntegerConversion.ConvertToInt | src/util/math.rs:5-39 | `convert_to_int` returns only values within `i128` |
| IntegerConversion.Numeral | src/util/math.rs:19-35 | the reference rendering of a number in a radix is non-empty, free of leading zeros and made of digits of that radix |
| IntegerConversion.DigitsOfNumeral | src/util/math.rs:19-35 | reading the digits of a rendered numeral gives the number back |
| IntegerConversion.DecimalNumeral | src/util/math.rs:15-17 | the radix-10 rendering is the decimal `to_string` |
| IntegerConversion.ConvertPlain | src/util/math.rs:6-11 | cleaning leaves text without surrounding whitespace and without `_` unchanged |
| IntegerConversion.DecimalRoundTrip | src/util/math.rs:15-17 | every `i128` printed in decimal converts back to itself |
| IntegerConversion.DecodePrefixed | src/util/math.rs:19-35 | text that is not decimal is decided by the prefix it starts with |
| IntegerConversion.PrefixedRoundTrip | src/util/math.rs:19-35 | every non-negative `i128` printed with `0x`, `0b` or `0o` in the matching radix converts back to itself |
| IntegerConversion.OverflowRejected | src/util/math.rs:15-38 | decimal numerals beyond `i128::MAX` are rejected, never wrapped |
| IntegerConversion.ConvertToIntExamples | src/util/math.rs:56-76 | the test cases: `0x1_0___` is 16, `___0b10` is 2, `24` is 24 |
| IntegerConversion.RejectsWord | src/util/math.rs:5-39 | a word whose first character is neither a sign nor a digit is rejected in every form |
| IntegerConversion.ConvertToIntRejectsWords | src/util/math.rs:78-91 | the test cases: `rumänien`, `was geht?` and `asdf` are not numbers |
| Text.Trim | src/compiler/trimmer.rs:50 | `str::trim` leaves no leading or trailing whitespace and never lengthens its input |
| Text.TrimIsSlice | src/compiler/trimmer.rs:50 | trimming keeps one contiguous slice and cuts off only whitespace on both sides |
| Text.TrimOfTrimmed | src/compiler/trimmer.rs:50 | trimming already trimmed text changes nothing |
| Text.Without | src/util/math.rs:7-9 | removing a character leaves no occurrence of it and never lengthens the text |
| Text.NatToStringInjective | src/util/math.rs:15-17 | distinct numbers render differently in decimal |
| Trimmer.Step | src/compiler/trimmer.rs:18-39 | one loop iteration that does not stop: the look-behind becomes the placeholder or the character just read, nothing is emitted inside a comment, and otherwise at most the old look-behind is emitted |
| Trimmer.ScanKeepsEmitted | src/compiler/trimmer.rs:17-40 | the character loop only appends to the emitted text, and keeps the look-behind the placeholder or a single character |
| Trimmer.Finish | src/compiler/trimmer.rs:42-50 | the finished line is trimmed, and a line that emitted nothing and ends inside a comment gives the empty line |
| Trimmer.TrimLine | src/compiler/trimmer.rs:7-51 | the character loop computes the scan's result and carries the block-comment flag; the result is always trimmed |
| Trimmer.PlainLine | src/compiler/trimmer.rs:7-51 | a line with no `/` read outside a comment comes back as exactly the trimmed line, and the flag stays clear |
| Trimmer.LineWithoutSlash | src/compiler/trimmer.rs:37-47 | a line with no `/` outside a comment comes back trimmed, with placeholder characters turned into spaces |
| Trimmer.OpenComment | src/compiler/trimmer.rs:23-25 | slash-star outside a comment emits the pending character and opens a comment |
| Trimmer.CloseComment | src/compiler/trimmer.rs:26-29 | star-slash inside a comment closes it, whatever came before |
| Trimmer.LineComment | src/compiler/trimmer.rs:18-21 | `//` outside a comment ends the line and discards everything after it |
| Trimmer.CodeThenLineComment | src/compiler/trimmer.rs:18-21 | code followed by a line comment yields the trimmed code |
| Trimmer.InsideComment | src/compiler/trimmer.rs:32-35 | a line with no `/` read inside a comment yields nothing and keeps the comment open |
| Trimmer.ClosingLine | src/compiler/trimmer.rs:26-44 | text ending in star-slash read inside a comment closes it and yields nothing |
| Trimmer.CommentBetween | src/compiler/trimmer.rs:17-40 | code, a block comment and more code on one line scan to the two code parts separated by a placeholder |
| Trimmer.TrimTest | src/compiler/trimmer.rs:59-92 | the test: the five lines give "", "", "", `let a = 10` and `let b = a   + 3`, with the flag carried from line to line |
| Splitter.Trim | src/compiler/splitter.rs:10-48 | the splitter's copy of the loop computes the same scan as the trimmer, so its result is trimmed and carries the same flag |
| IntegerTypes.BoundsMatchWidth | src/compiler/data_types/integer.rs:128-212 | the bounds of each kind are those of a two's-complement (signed) or plain binary (unsigned) number of its memory size in bytes |
| IntegerTypes.UpperBound | src/compiler/data_types/integer.rs:128-139 | the largest value is positive and fits in the type's memory size; for a signed type twice it plus one still fits |
| IntegerTypes.LowerBound | src/compiler/data_types/integer.rs:151-161 | the magnitude of the smallest value is one more than the largest value for a signed type, and 0 for an unsigned one |
| IntegerTypes.CodeName | src/compiler/data_types/integer.rs:178-189 | the name starts with `i` exactly for signed types and with `u` otherwise, and is two characters long for one-byte types and three otherwise |
| IntegerTypes.CodeNamesDistinct | src/compiler/data_types/integer.rs:178-189 | apart from the address type, no two integer types share a code name |
| IntegerTypes.MemorySize | src/compiler/data_types/integer.rs:203-212 | every integer type takes 1, 2 or 4 bytes |
| IntegerTypes.AddressIsU32 | src/compiler/data_types/integer.rs:128-212 | the address kind has the bounds, name and size of `u32` |
| IntegerBuild.Build | src/compiler/data_types/integer.rs:217-277 | only a single unclassified token can give an explicit result; a built object belongs to the parent type and holds a value within the type's bounds |
| IntegerBuild.BuildAmbiguity | src/compiler/data_types/integer.rs:217-240 | a build is explicit exactly when it gets one unclassified token that ends in, and is longer than, the type's code name |
| IntegerBuild.BuildSucceeds | src/compiler/data_types/integer.rs:217-277 | a build succeeds exactly when the suffix-free text converts to a value within the type's bounds, and the object then holds that value under the parent type's uuid |
| IntegerBuild.BuildHasValue | src/compiler/data_types/integer.rs:269-271 | a successful build always records its value |
| IntegerBuild.CheckedSucceeds | src/compiler/data_types/integer.rs:242-271 | the range check passes exactly for a converted value within both bounds and keeps that value |
| IntegerBuild.BuildSuffixed | src/compiler/data_types/integer.rs:347-382 | a value of the type written in decimal and followed by the code name builds explicitly to that value |
| IntegerBuild.BuildUnsuffixed | src/compiler/data_types/integer.rs:313-344 | the same value written without suffix builds to the same object, but ambiguously |
| IntegerBuild.NoSuffixOnNumber | src/compiler/data_types/integer.rs:237 | a decimal number never ends in a code name |
| IntegerBuild.BuildType | src/compiler/data_types/integer.rs:279-291 | a built type is named by the kind's code name, carries the fresh uuid and has four traits |
| IntegerBuild.BuildTypeTraitList | src/compiler/data_types/integer.rs:279-291 | a built type is named by the code name, carries the fresh uuid and the traits arithmetic, value, integer and `sized:<bytes>` in that order |
| IntegerBuild.BuildTypeTraits | src/compiler/data_types/integer.rs:279-291 | a built integer type answers yes to arithmetic, value and integer, no to boolean, and `sized:` reads back its memory size |
| IntegerBuild.BuildIntegerTypes | src/compiler/data_types/integer.rs:11-29 | the loop builds the table of the six kinds, using one fresh uuid per entry |
| IntegerBuild.IntegerTypeTableEntries | src/compiler/data_types/integer.rs:11-29 | the table has six entries in the source's order, each named after its kind with the next uuid, and the address kind is not among them |
| IntegerBuild.BuiltKindNamesDistinct | src/compiler/data_types/integer.rs:12-19 | the six kinds have pairwise distinct names |
| IntegerBuild.Attempts | src/compiler/data_types/integer.rs:42-43 | one build result per table entry |
| IntegerBuild.GenerateInteger | src/compiler/data_types/integer.rs:39-105 | the search loop computes the result and error log of the reference definition |
| IntegerBuild.Pick | src/compiler/data_types/integer.rs:42-73 | the search stops only with the error of an explicit failure, and runs out only when every result was ambiguous or carried no value |
| IntegerBuild.Search | src/compiler/data_types/integer.rs:41-73 | a typed value lies within the bounds of its type, which is one of the table's |
| IntegerBuild.IntegerOfToken | src/compiler/data_types/integer.rs:39-105 | a typed result lies within its type's bounds, and at most one error is logged |
| IntegerBuild.PickFound | src/compiler/data_types/integer.rs:42-73 | a found value comes from the first explicit result, which succeeded with that value, and every earlier result was passed over |
| IntegerBuild.SearchFound | src/compiler/data_types/integer.rs:42-73 | a typed result names the first type whose build was explicit; that build succeeded with exactly the returned value and every earlier type was ambiguous |
| IntegerBuild.IntegerOfTokenCases | src/compiler/data_types/integer.rs:39-105 | the log gains one entry exactly when the search stopped at an explicit failure; otherwise an untyped result is the plain conversion of the token's text |
| IntegerBuild.UnsuffixedIsUntyped | src/compiler/data_types/integer.rs:75-104 | a literal without type suffix is never typed: it is converted whole and nothing is logged |
| IntegerBuild.SuffixDeterminesKind | src/compiler/data_types/integer.rs:12-19 | two distinct kinds are never both suffixes of one text |
| IntegerBuild.SuffixedIsTyped | src/compiler/data_types/integer.rs:39-73 | a literal ending in a kind's code name whose rest converts within that kind's bounds is typed with that kind, and nothing is logged |
| BooleanType.GetName | src/compiler/data_types/boolean.rs:34-36 | the type's name is not spelled like any keyword |
| BooleanType.BuildType | src/compiler/data_types/boolean.rs:21-32 | the built type has the type's name, the fresh uuid and three traits |
| BooleanType.BuildTypeTraitList | src/compiler/data_types/boolean.rs:21-32 | the boolean type is named `bool`, carries the fresh uuid and the traits `sized:1`, value and boolean in that order |
| BooleanType.BuildTypeTraits | src/compiler/data_types/boolean.rs:21-32 | the boolean type is a boolean value of size one, neither arithmetic nor an integer |
| Objects.NewObjectType | src/compiler/data_types/object.rs:193-195 | a new type has the given name and uuid and no traits |
| Objects.AddTrait | src/compiler/data_types/object.rs:197-199 | exactly one trait is appended and everything else stays |
| Objects.GetTraitIn | src/compiler/data_types/object.rs:209-217 | the first trait whose name starts with the query answers, with its arguments split at `:`; `None` exactly when no trait starts with it |
| Objects.GetTraitAt | src/compiler/data_types/object.rs:209-217 | the first matching trait is the one that answers |
| Objects.GetTraitAppend | src/compiler/data_types/object.rs:197-217 | appending a trait never changes an answer that an earlier trait already gives |
| Objects.AddTraitLookup | src/compiler/data_types/object.rs:197-222 | after `add_trait`, queries answered before keep their answer, and an unanswered query is answered by the new trait exactly when its name starts with the query |
| Objects.ComplexTraitRoundTrip | src/compiler/data_types/object.rs:203-217 | the arguments stored by `add_complex_trait` are read back by `get_trait` under the same prefix, when no earlier trait answers and no argument holds `:` |
| Objects.HasTrait | src/compiler/data_types/object.rs:219-222 | `has_trait` holds exactly when some trait's name starts with the query |
| Objects.GetTrait | src/compiler/data_types/object.rs:205-215 | nothing is found exactly when no trait's name starts with the query; the arguments found, joined with `:` after the query, spell one of the traits |
| Objects.AddComplexTrait | src/compiler/data_types/object.rs:199-202 | one trait is appended and nothing else changes; the new trait starts with the prefix, and when at least one argument is given and none holds `:`, reading the trait under the prefix gives back exactly the arguments |
| ObjectGeneration.Attempts | src/compiler/data_types/object.rs:61-64 | every builder is asked once, in list order, with all tokens and its own parent type |
| ObjectGeneration.TypeName | src/compiler/data_types/object.rs:114-119 | the name reported for a uuid is that of the first listed type with it |
| ObjectGeneration.GenerateObject | src/compiler/data_types/object.rs:36-175 | the loop and the selection compute the reference selection's object and error log |
| ObjectGeneration.ReportNames | src/compiler/data_types/object.rs:114-119 | the ambiguity message is the fixed prefix followed by each type name and two spaces |
| ObjectGeneration.SuccessesMembers | src/compiler/data_types/object.rs:66-72 | an object is collected exactly when some builder produced it with that ambiguity |
| ObjectGeneration.FailuresEmpty | src/compiler/data_types/object.rs:70-93 | nothing is logged for failures exactly when no builder failed explicitly |
| ObjectGeneration.Select | src/compiler/data_types/object.rs:99-174 | the log starts with every explicit failure and adds at most two ambiguity reports; nothing is chosen exactly when there is neither a single explicit nor a single ambiguous success |
| ObjectGeneration.SelectedWasBuilt | src/compiler/data_types/object.rs:99-172 | any object returned was built by one of the builders |
| ObjectGeneration.SelectExplicit | src/compiler/data_types/object.rs:99-133 | a single explicit success is returned whatever the ambiguous builders did |
| ObjectGeneration.SelectAmbiguous | src/compiler/data_types/object.rs:137-172 | without explicit successes a single ambiguous success is returned |
| ObjectGeneration.SelectAfterConflict | src/compiler/data_types/object.rs:99-172 | several explicit successes are reported and then a single ambiguous success is still returned |
| ObjectGeneration.SelectNothing | src/compiler/data_types/object.rs:174 | without any success nothing is returned and only explicit failures are logged |
| ObjectGeneration.SelectUndecided | src/compiler/data_types/object.rs:137-174 | two ambiguous successes and no single explicit one give nothing, and the last log entry reports the ambiguity |
| Exit.GetCode | src/util/exit.rs:43-53 | every code is below 100 |
| Exit.EffectiveVariant | src/util/exit.rs:14-19 | the variant used is at most 2, and a variant in range is kept |
| Exit.ExitWithVariant | src/util/exit.rs:8-29 | the status is at most 299; its hundreds are the effective variant and its last two digits the code |
| Exit.ExitWith | src/util/exit.rs:4-6 | `exit` uses the first variant |
| Exit.OutOfRangeVariant | src/util/exit.rs:14-19 | a variant above 2 becomes 1 and the message gains the warning; in range the message is unchanged |
| Exit.StatusDeterminesParts | src/util/exit.rs:24-26 | the status determines the variant and the code |
| Exit.CodesDistinct | src/util/exit.rs:43-53 | distinct failure kinds have distinct codes |
| Exit.InternalExit | src/util/exit.rs:51 | an internal failure exits with 199 |
| TokenPrototypes.IntoToken | src/compiler/tokenization/token_prototype.rs:75-148 | conversion never diverges and panics when the span ends before it starts; at most one notification is written, only for an integer literal, and a typed integer lies within its type's bounds |
| TokenPrototypes.IntoTokenPosition | src/compiler/tokenization/token_prototype.rs:75-76 | every token made from a span sits at the span's start and is as long as the span; only integer literals write to the log |
| TokenPrototypes.FixedOneToOne | src/compiler/tokenization/token_prototype.rs:78-88 | fixed prototypes always convert, and distinct ones give distinct tokens |
| TokenPrototypes.StringLiteralUnquotes | src/compiler/tokenization/token_prototype.rs:107-115 | a quoted text comes back without its quotes |
| TokenPrototypes.StringLiteralText | src/compiler/tokenization/token_prototype.rs:107-115 | a string literal converts exactly when it has two characters to cut, and loses exactly its first and last character |
| TokenPrototypes.OperatorText | src/compiler/tokenization/token_prototype.rs:93-105 | operator text converts exactly when some operation has that symbol, and the token's raw text is the text again; other text panics |
| TokenPrototypes.OperatorRoundTrip | src/compiler/tokenization/token_prototype.rs:93-105 | each operation's symbol converts to that operation |
| TokenPrototypes.IdentifierText | src/compiler/tokenization/token_prototype.rs:134-145 | an identifier becomes a keyword exactly when it spells one, and otherwise keeps its text |
| TokenPrototypes.KeywordRoundTrip | src/compiler/tokenization/token_prototype.rs:134-145 | a keyword's own spelling converts to that keyword |
| TokenPrototypes.IntegerLiteralValue | src/compiler/tokenization/token_prototype.rs:117-131 | an integer literal takes value and type from `generate_integer`, keeps its log, and panics exactly when no integer comes out |
| TokenParsing.ParseToken | src/compiler/parser/parse_token.rs:6-35 | a node comes out exactly for integer, boolean and identifier tokens, and it is the leaf of that token on the given line |
| TokenParsing.ParseTokenLegacy | src/compiler/parser/parse.rs:17-35 | the older version accepts exactly the integer literals |
| TokenParsing.LegacyAgrees | src/compiler/parser/parse_token.rs:6-35 | the newer version agrees with the older one wherever the older accepts, and accepts booleans and identifiers in addition |
| TokenParsing.LegacyIntegerExample | src/compiler/parser/parse.rs:45-51 | the test: `IntegerLiteral(10, u32)` at the zero position becomes the matching integer literal node |
| TokenParsing.ParsedMutability | src/compiler/parser/parse_token.rs:10-22 | a parsed literal may be mutated in place and a parsed identifier may not |
| TokenParsing.ParsedIntegerLowers | src/compiler/parser/parse_token.rs:10-13 | a parsed integer literal lowers to one move of its value, wrapped to 64 bits, into a fresh id |
| Modifiers.KeywordIsModifier | src/compiler/parser/modifier.rs:19-24 | exactly `extern` is a modifier keyword |
| Modifiers.GetFormat | src/compiler/parser/modifier.rs:51-69 | a format exists exactly for modifier keywords: two required string literals; every other keyword panics |
| Modifiers.OneModifierKeyword | src/compiler/parser/modifier.rs:19-24 | exactly one keyword is a modifier |
| Statements.AffiliatedKeyword | src/compiler/parser/statements.rs:21-28 | every statement has a keyword, and it is not a modifier |
| Statements.AffiliatedKeywordInjective | src/compiler/parser/statements.rs:21-28 | different statements have different keywords |
| Statements.EntireFormat | src/compiler/parser/statements.rs:30-114 | header then body: let/var take identifier, `=` and value; exit takes a value; a function takes identifier, parameter list and block; every element is required |
| Statements.ExternIndex | src/compiler/parser/statements.rs:142 | the index found is that of the first `extern` modifier, and none is found exactly when there is none |
| Statements.GenerateNode | src/compiler/parser/statements.rs:116-181 | generation never loops; statements other than a function leave the modifiers unchanged |
| Statements.GenerateFunction | src/compiler/parser/statements.rs:126-166 | a function's generation yields a function declaration node |
| Statements.LetStatementNode | src/compiler/parser/statements.rs:170-180 | `let x = v` and `var x = v` give a let node binding `x` to `v`, mutable exactly for `var` |
| Statements.ExitStatementNode | src/compiler/parser/statements.rs:118-124 | `exit v` gives an exit node over `v` |
| Statements.FunctionStatementNode | src/compiler/parser/statements.rs:126-166 | without `extern` the block is kept; with `extern` last it is consumed and labels the block with its second argument; with `extern` elsewhere generation panics |
| Nodes.GetPosition | src/compiler/parser/tree/node.rs:20-24 | every node other than a shell reports the position it was built with; shells report their content's |
| Nodes.IsStatement | src/compiler/parser/tree/node.rs:57-61 | a node standing for a statement delivers no output |
| Nodes.OutputIsRandomlyMutable | src/compiler/parser/tree/node.rs:57-63 | identifiers must be preserved, literals may be computed into |
| Nodes.ArithmeticMutability | src/compiler/parser/tree/node.rs:464-466 | arithmetic output is mutable exactly when an operand's is, reading the left one first, and absent when the left one is, or when the left one is preserved and the right one absent |
| Nodes.Unpack | src/compiler/parser/tree/node.rs:42-51 | unpacking never yields a shell; it panics exactly for code blocks, exits and calls |
| Nodes.UnpacksTo | src/compiler/parser/tree/node.rs:42-51 | the node below all the shells is not a shell |
| Nodes.FirstWithTrait | src/compiler/parser/tree/node.rs:266-275 | the type found is listed and has the trait; none is found exactly when no listed type has it |
| Nodes.AllWithTrait | src/compiler/parser/tree/node.rs:328-338 | exactly the listed types having the trait are collected |
| Nodes.FirstNamed | src/compiler/parser/tree/node.rs:320-326 | the type found is listed and carries the name; none is found exactly when no listed type does |
| Nodes.LookupType | src/compiler/parser/tree/node.rs:179-180 | the type found is registered under the id; none is found exactly when the id is unregistered |
| Nodes.FindMeta | src/compiler/parser/tree/node.rs:799-807 | the meta found is listed and has the code name; none is found exactly when no meta does |
| Nodes.GetDatatypes | src/compiler/parser/tree/node.rs:36-39 | finding types never loops, and statements other than calls have no type |
| Nodes.IntegerLiteralTypes | src/compiler/parser/tree/node.rs:318-339 | an integer literal of a known kind whose type is listed has exactly that type; otherwise it has every listed integer type |
| Nodes.BooleanTypes | src/compiler/parser/tree/node.rs:266-402 | a comparison and a bool literal have the first boolean type when there is one |
| FunctionMetas.FindType | src/compiler/parser/function_meta.rs:39-44 | an id is found exactly when some datatype carries the name, and it is that datatype's id |
| FunctionMetas.StyleFrom | src/compiler/parser/function_meta.rs:28-32 | `C` and `SMISC` name the two styles and nothing else does |
| FunctionMetas.ToFunctionArgument | src/compiler/parser/function_meta.rs:69-75 | conversion succeeds exactly when the type name is known; the argument gets the fresh own id and that type's id, and is unnamed exactly for `_` |
| FunctionMetas.ToFunctionArguments | src/compiler/parser/function_meta.rs:34 | every argument converts in order, each with its own fresh id, or the first failure is the result |
| FunctionMetas.ToFunctionMeta | src/compiler/parser/function_meta.rs:27-52 | conversion succeeds exactly when the style is known, every argument type exists and the return type is absent or exists; otherwise it panics |
| FunctionMetas.ToFunctionMetaContents | src/compiler/parser/function_meta.rs:27-52 | a converted meta keeps both names, has the named style, one argument per described one in order, and a return type exactly when one is named |
| FunctionMetas.ArgumentIdsDistinct | src/compiler/parser/function_meta.rs:74 | the arguments of one meta get pairwise distinct own ids |
| Contexts.LabelName | src/compiler/context.rs:58-61 | every label name starts with `LB` |
| Contexts.LabelNamesDistinct | src/compiler/context.rs:58-61 | different counts give different label names |
| Contexts.CompilerContext.GenerateLabel | src/compiler/context.rs:58-61 | the label is named after the count before the call, the count goes up by one and nothing else changes |
| Contexts.CompilerContext.Clear | src/compiler/context.rs:54-56 | a cleared context is empty except for the given line map and flags |
| Contexts.BackendContext.Clear | src/compiler/backend/context.rs:45-47 | a cleared back-end context is empty except for the given line map |
| Contexts.BackendContext.GenerateLabel | src/compiler/backend/context.rs:49-52 | as for the compiler context |
| Contexts.SuccessiveLabels | src/compiler/backend/context.rs:45-52 | two successive labels of a cleared context are `LB0` and `LB1` and differ |
| Instructions.ConditionObjects | src/compiler/backend/flattener.rs:103-111 | the objects of a condition are those present, `a` before `b` |
| Instructions.GetObjects | src/compiler/backend/flattener.rs:133-152 | labels, function boundaries, received arguments and plain jumps mention no object |
| Instructions.GetOverridden | src/compiler/backend/flattener.rs:154-164 | at most one object is overridden |
| Instructions.OverriddenIsMentioned | src/compiler/backend/flattener.rs:133-164 | an overridden object is the first object the instruction mentions, and only moves override |
| Instructions.JumpObjects | src/compiler/backend/flattener.rs:103-149 | a conditional jump mentions exactly its condition's objects, and only the two carry tests need no arguments |
| Aarch64.FromAssembly | src/compiler/backend/arch/aarch64.rs:71-111 | a `cset` comes exactly from extracting a comparison, on the same register |
| Aarch64.ToString | src/compiler/backend/arch/aarch64.rs:40-64 | rendering never diverges and panics exactly for loads and stores |
| Aarch64.ConditionRoundTrip | src/compiler/backend/arch/aarch64.rs:96-109 | each comparison's condition code reads back as that comparison |
| Aarch64.FromAssemblyInjective | src/compiler/backend/arch/aarch64.rs:71-111 | the conversion loses nothing: distinct assembly instructions stay distinct |
| Aarch64.CSetOnlyFromComparison | src/compiler/backend/arch/aarch64.rs:96-109 | `cset` arises exactly from extracting a comparison, on the same register, with a condition reading back as that comparison |
| Aarch64.OneLineLayout | src/compiler/backend/arch/aarch64.rs:40-64 | every instruction except exits and labels renders as one tab-separated line with its operands |
| Aarch64.MoveImmediateLayout | src/compiler/backend/arch/aarch64.rs:44 | an immediate move renders as `mov` with the register and `#` value |
| Aarch64.StackLoadLayout | src/compiler/backend/arch/aarch64.rs:53 | a stack load renders as `ldr` from `[sp, #offset]` |
| Aarch64.StackStoreLayout | src/compiler/backend/arch/aarch64.rs:54 | a stack store renders as `str` to `[sp, #offset]` |
| Aarch64.RenderedShape | src/compiler/backend/arch/aarch64.rs:40-64 | rendering fails exactly for loads and stores; every rendering ends with a line break and starts with a tab unless it is a label, which stands alone after an empty line |
| Aarch64.ExitLines | src/compiler/backend/arch/aarch64.rs:55 | an exit is the macOS system call: 1 in `x16`, the status in `x0`, then `svc #0x80` |
| Aarch64.Optimize | src/compiler/backend/arch/aarch64.rs:66-68 | optimisation returns the instructions unchanged whatever the flags |
| Architectures.FirstEmpty | src/compiler/backend/arch/mod.rs:67-71 | the register chosen is the first empty one; none exactly when all are full |
| Architectures.FirstSpillable | src/compiler/backend/arch/mod.rs:75-105 | the register chosen is the first general-purpose one whose object is not ignored; none exactly when there is no such register |
| Architectures.Holder | src/compiler/backend/arch/mod.rs:27-33 | the register found is the first holding the object; none exactly when no register does |
| Architectures.PositionOf | src/compiler/backend/arch/mod.rs:51 | the index found is the first entry for the register; none exactly when there is no entry |
| Architectures.Provide | src/compiler/backend/arch/mod.rs:65-108 | the allocator never diverges; a register handed out costs at most one store, the register table keeps its size, and the stack keeps every slot and never shrinks |
| Architectures.Get | src/compiler/backend/arch/mod.rs:23-60 | the lookup never diverges; it costs at most a store and a load, the register table keeps its size, and the stack keeps every slot and never shrinks |
| Architectures.ProvidePanics | src/compiler/backend/arch/mod.rs:65-108 | the allocator panics exactly when every register is full and none may be spilled |
| Architectures.ProvideFrees | src/compiler/backend/arch/mod.rs:65-108 | the register handed out is empty afterwards and is the only entry that changed; only a spillable object leaves its register |
| Architectures.ProvideStack | src/compiler/backend/arch/mod.rs:85-97 | the stack only grows: slots keep their offsets, the next offset never decreases, every slot stays below it, and a spilled object has a slot |
| Architectures.GetOutcome | src/compiler/backend/arch/mod.rs:23-60 | an object already held is returned from its register with nothing to do; otherwise the lookup panics exactly when the allocator does |
| Architectures.GetPlacesObject | src/compiler/backend/arch/mod.rs:42-54 | an object on the stack is loaded from its slot into the returned register; otherwise the returned register is recorded as its holder |
| Architectures.ClaimedHolder | src/compiler/backend/arch/mod.rs:51-53 | recording an unheld object in an entry makes that entry its holder |
| Architectures.Architecture.ProvideEmptyRegister | src/compiler/backend/arch/mod.rs:65-108 | the two loops perform exactly the register-map transition of the allocator, and change nothing when it panics |
| Architectures.Architecture.GetObject | src/compiler/backend/arch/mod.rs:23-60 | the loop and the allocation perform exactly the register-map transition of the lookup |
| Optimization.FlagSetting | src/compiler/optimization.rs:39-43 | a flag disables a kind exactly when it is `!` followed by the kind's name, and enables it exactly when it is the name itself |
| Optimization.LaterFlagWins | src/compiler/optimization.rs:38-46 | among the flags read in order, the last one that names the kind decides its setting |
| Optimization.UnrelatedFlags | src/compiler/optimization.rs:38-43 | flags that name the kind in neither form leave its setting unchanged |
| Optimization.DefaultByLevel | src/compiler/optimization.rs:36 | with no flag naming it, a kind is enabled exactly when its standard level is at most the chosen level |
| Optimization.NewOpt | src/compiler/optimization.rs:26-53 | as written: the result exists exactly when no stale-index removal panics, and then records the level and, for every kind, the level default overridden by the last matching flag |
| Optimization.PanicPersists | src/compiler/optimization.rs:38-46 | once a removal has run past the end of the list, the rest of the loop cannot recover |
| Optimization.SecondMatchPanics | src/compiler/optimization.rs:45 | enabling and then disabling the same kind makes the second removal index past the end of the shortened list |
| Optimization.NewOptCorrected | src/compiler/optimization.rs:26-53 | as intended: every flag list resolves; the map holds every kind, each set to its level default overridden by the last matching flag, and the leftover flags are exactly unmatched ones |
| Optimization.NamesDistinct | src/compiler/optimization.rs:94-105 | no two optimization kinds share a name |
| Optimization.StandardOptimizationLevel | src/compiler/optimization.rs:79-84 | every kind's standard level fits the `u8` level and is at least 1, so level 0 enables nothing by default |
| Optimization.IdentityRemovalLevel | src/compiler/optimization.rs:67-84 | identity-operation removal is named `removeIdentityOperations` and is on by default from level 1 |
| Lowering.Lower | src/compiler/parser/tree/node.rs:55 | `generate_instructions` of every node kind: lowering ends in instructions or a panic and never diverges; what each kind emits is stated by the LoweringProperties lemmas below |
| Lowering.LowerUnpacked | src/compiler/parser/tree/node.rs:132-134 | a value shell lowers what `unpack` finds inside it, and never diverges |
| Lowering.LowerCode | src/compiler/parser/tree/node.rs:713-726 | the children lowered in order, each from the context the one before left; it never diverges and yields no value |
| Lowering.LowerArithmetic | src/compiler/parser/tree/node.rs:412-462 | `ArithmeticNode::generate_instructions`; it never diverges |
| Lowering.LowerAssignment | src/compiler/parser/tree/node.rs:498-534 | `AssignmentNode::generate_instructions`; it never diverges and yields no value |
| Lowering.LowerLet | src/compiler/parser/tree/node.rs:606-644 | `LetNode::generate_instructions`; it never diverges and yields no value |
| Lowering.LowerExit | src/compiler/parser/tree/node.rs:763-772 | `ExitNode::generate_instructions`; it never diverges and yields no value |
| Lowering.LowerFunctionCall | src/compiler/parser/tree/node.rs:813-881 | `FunctionCallNode::generate_instructions`; it never diverges |
| Lowering.LowerArguments | src/compiler/parser/tree/node.rs:854-866 | the argument loop: it never diverges, and on success passes one id per argument lowered |
| Lowering.BindParameters | src/compiler/parser/tree/node.rs:1000-1011 | binding the named parameters panics, with an index out of bounds, exactly when some named parameter has no generated argument at its index |
| Lowering.LowerFunctionDeclaration | src/compiler/parser/tree/node.rs:994-1025 | `FunctionDeclarationNode::generate_instructions`; it never diverges and yields no value |
| Lowering.WrapI64 | src/compiler/parser/tree/node.rs:350 | the stored value is a signed 64-bit number congruent to the literal modulo 2^64, and equal to it whenever it fits |
| Lowering.BoolValue | src/compiler/parser/tree/node.rs:286 | a boolean is stored as 1 exactly when it is true and as 0 otherwise |
| Lowering.OperationInstruction | src/compiler/parser/tree/node.rs:425-457 | exactly the five arithmetic operations have an in-place instruction, which reads both operands and names nothing as overridden |
| Lowering.AssignLabel | src/compiler/parser/tree/node.rs:669-675 | a block keeps the label it has; an unlabelled block takes the next generated name and the label count rises by one |
| Lowering.MoveInstructions | src/compiler/parser/tree/node.rs:868-870 | one move per deferred pair, in order, from the pair's source into its fresh argument id |
| Lowering.Receives | src/compiler/parser/tree/node.rs:995-997 | one `ReceiveArgument` per generated parameter, in order, with the parameter's index truncated to a byte |
| LoweringProperties.LowerExtends | src/compiler/parser/tree/node.rs:55 | every successful lowering only uses up fresh ids, only counts labels up, only appends errors and mutable objects, keeps the datatypes and function metas, and emits no `Drop` |
| LoweringProperties.LowerCodeExtends | src/compiler/parser/tree/node.rs:713-726 | lowering a list of nodes extends the context and keeps what was already emitted as a prefix |
| LoweringProperties.FunctionCallExtends | src/compiler/parser/tree/node.rs:813-881 | lowering a call extends the context and emits no `Drop` |
| LoweringProperties.BindParametersKeeps | src/compiler/parser/tree/node.rs:1000-1011 | binding the named parameters changes only the objects and the name map |
| LoweringProperties.LiteralLowering | src/compiler/parser/tree/node.rs:281-291 | an integer or boolean literal emits one `MoveData` into a fresh id that it returns, leaving the context alone; an integer keeps its value when it fits in 64 bits, a boolean is stored as 1 or 0 |
| LoweringProperties.IdentifierLowering | src/compiler/parser/tree/node.rs:190-194 | an identifier emits nothing, changes nothing and returns the id its name is bound to exactly when it is bound |
| LoweringProperties.ArithmeticInPlace | src/compiler/parser/tree/node.rs:412-462 | with a mutable left operand the operation is computed on the left operand's id, with no move, and that id is returned |
| LoweringProperties.ArithmeticIntoFresh | src/compiler/parser/tree/node.rs:412-462 | otherwise, outside the commutative case, the operation is computed into a fresh id that is returned, after a move of the left operand into it; the move is left out only when the fresh id is the left operand's own, and from a context whose ids are all below the counter it is always emitted |
| LoweringProperties.ArithmeticCommuted | src/compiler/parser/tree/node.rs:412-462 | with only the right operand mutable and a commutative operation, the result is computed into the right operand's id, with no move |
| LoweringProperties.AssignmentLowering | src/compiler/parser/tree/node.rs:498-534 | assigning to an immutable object reports one error and emits no move; assigning to a mutable one ends with the move of the right side into it |
| LoweringProperties.LetLowering | src/compiler/parser/tree/node.rs:606-644 | a successful let found a non-empty type list for its value; it records the first of those types for the id holding the value, binds its name to that id, and marks it mutable exactly when the binding is mutable, changing nothing else in the context; a value that is not mutable is moved into a fresh id |
| LoweringProperties.LetTypeFailure | src/compiler/parser/tree/node.rs:631-635 | once the value is lowered, a panic of the type query is passed on, no type list is a failed `unwrap()`, and an empty type list is an index out of bounds |
| LoweringProperties.UntypedLiteralWithoutIntegerType | src/compiler/parser/tree/node.rs:318-338 | `let x = 5` with no integer type registered panics out of bounds: the literal's type list exists but is empty |
| LoweringProperties.CodeBlockLowering | src/compiler/parser/tree/node.rs:713-726 | a block starts with its label, an unlabelled block counting one more label, and then lowers its children in order |
| Lowering.WrongArgumentCount | src/compiler/parser/tree/node.rs:841-848 | the wrong-count error is told apart from the immutable-assignment one by its title, and its message names the function first and ends with a full stop |
| LoweringProperties.ExitLowering | src/compiler/parser/tree/node.rs:763-772 | an exit whose value has no id panics; a successful exit emits the value's instructions and then an `Exit` of its id, returns nothing and leaves the value's context and counter |
| LoweringProperties.CallLowering | src/compiler/parser/tree/node.rs:813-881 | a call to an unknown function panics; a successful call ends with the call to the function's assembly name with one input per argument, returns the id reserved for the value exactly when the function returns one, and logs the wrong-count error before anything its arguments log |
| LoweringProperties.DeclarationLowering | src/compiler/parser/tree/node.rs:994-1025 | a named parameter with no generated argument panics; a successful declaration starts with one receive per generated parameter, ends with `FunctionEnd` and returns nothing |
| LoweringProperties.LowerUnpackedExtends | src/compiler/parser/tree/node.rs:132-134 | lowering what a value shell unpacks extends the context and emits no `Drop` |
| LoweringProperties.ArithmeticExtends | src/compiler/parser/tree/node.rs:412-462 | lowering an arithmetic node extends the context and emits no `Drop` |
| LoweringProperties.AssignmentExtends | src/compiler/parser/tree/node.rs:498-534 | lowering an assignment extends the context and emits no `Drop` |
| LoweringProperties.LetExtends | src/compiler/parser/tree/node.rs:606-644 | lowering a let extends the context and emits no `Drop` |
| LoweringProperties.LowerArgumentsExtends | src/compiler/parser/tree/node.rs:853-866 | lowering the arguments extends the context, keeps what was emitted and deferred as prefixes, and adds exactly one argument id per argument |
| LoweringProperties.FunctionDeclarationExtends | src/compiler/parser/tree/node.rs:994-1025 | lowering a function declaration extends the context and emits no `Drop` |
| LoweringFreshness.LowerFresh | src/compiler/parser/tree/node.rs:55 | from a context whose ids are all below the counter, with parameter ids below it too, a successful lowering leaves such a context, never moves the counter back, and returns an id below the new counter |
| LoweringFreshness.LowerUnpackedFresh | src/compiler/parser/tree/node.rs:132-134 | lowering what a value shell unpacks keeps the context fresh and never moves the counter back |
| LoweringFreshness.LowerCodeFresh | src/compiler/parser/tree/node.rs:713-726 | lowering a list of nodes keeps the context fresh and never moves the counter back |
| LoweringFreshness.ArithmeticFresh | src/compiler/parser/tree/node.rs:412-462 | lowering an arithmetic node keeps the context fresh and returns an id below the new counter |
| LoweringFreshness.AssignmentFresh | src/compiler/parser/tree/node.rs:498-534 | lowering an assignment keeps the context fresh |
| LoweringFreshness.LetFresh | src/compiler/parser/tree/node.rs:606-644 | lowering a let keeps the context fresh, the id it binds included |
| LoweringFreshness.LowerArgumentsFresh | src/compiler/parser/tree/node.rs:853-866 | lowering the arguments keeps the context fresh and never moves the counter back |
| LoweringFreshness.FunctionCallFresh | src/compiler/parser/tree/node.rs:813-881 | lowering a call keeps the context fresh and returns an id below the new counter |
| LoweringFreshness.BindParametersFresh | src/compiler/parser/tree/node.rs:1000-1011 | binding parameters whose ids are below the counter keeps the context fresh |
| LoweringFreshness.FunctionDeclarationFresh | src/compiler/parser/tree/node.rs:994-1025 | lowering a function declaration keeps the context fresh and returns nothing |
| Generation.IdSupply.Fresh | src/compiler/parser/tree/node.rs:823 | each call hands out an id never handed out before and moves the supply on by one |
| Generation.Generate | src/compiler/parser/tree/node.rs:55 | generating any node succeeds exactly when its lowering does, with the same instructions, value id, context and id counter |
| Generation.GenerateUnpacked | src/compiler/parser/tree/node.rs:132-134 | a value shell generates exactly what lowering its unpacked content gives |
| Generation.GenerateArithmetic | src/compiler/parser/tree/node.rs:412-462 | the arithmetic node's generation agrees with its lowering, so the in-place, fresh-id and commuted cases proved there hold of it |
| Generation.GenerateAssignment | src/compiler/parser/tree/node.rs:498-534 | the assignment's generation agrees with its lowering: an error and no move for an immutable target, a final move otherwise |
| Generation.GenerateLet | src/compiler/parser/tree/node.rs:606-644 | the let's generation agrees with its lowering on every outcome, including the `unwrap()` panic for no type list and the out-of-bounds panic for an empty one |
| Generation.AssignBlockLabel | src/compiler/parser/tree/node.rs:669-675 | the block keeps its label or takes and counts the next generated one, comes back labelled with it, and nothing else in the context changes |
| Generation.GenerateCodeBlock | src/compiler/parser/tree/node.rs:713-726 | the block's label and then its children's instructions in order, agreeing with its lowering |
| Generation.GenerateCodeBlockArray | src/compiler/parser/tree/node.rs:921-932 | the blocks' instructions in order, agreeing with the lowering of the array |
| Generation.GenerateExit | src/compiler/parser/tree/node.rs:763-772 | the returned value's instructions followed by an `Exit` of its id, agreeing with its lowering |
| Generation.GenerateFunctionCall | src/compiler/parser/tree/node.rs:813-881 | the call's generation agrees with its lowering: a return id when the function returns a value, an error on a wrong argument count, the arguments, the deferred moves, then the call |
| Generation.AppendMoves | src/compiler/parser/tree/node.rs:868-870 | the loop appends exactly one move per deferred pair, in order, after what was already emitted |
| Generation.GenerateArguments | src/compiler/parser/tree/node.rs:854-866 | the argument loop succeeds exactly when the argument lowering does, with the same instructions, argument ids, deferred moves, context and id counter |
| Generation.GenerateFunctionDeclaration | src/compiler/parser/tree/node.rs:994-1025 | one receive per parameter, the named parameters bound, the body, then `FunctionEnd`, agreeing with its lowering |
| Generation.BindInPlace | src/compiler/parser/tree/node.rs:1000-1011 | the parameter loop binds in place exactly what binding the parameters gives, and fails only where that panics on an index past the generated arguments |
| Flattener.Scan | src/compiler/backend/flattener.rs:27-35 | defines the objects the inner loop pushes for one instruction: those not yet known, each once, in the order met; the facts are stated by Flattener.ScanFacts |
| Flattener.FlattenAsWritten | src/compiler/backend/flattener.rs:23-44 | the drop pass as written; a list of at most one instruction comes back unchanged, with no drop, because the loop `1..len` does not run |
| Flattener.DropPass | src/compiler/backend/flattener.rs:18-35 | defines the intended pass: every instruction scanned from the last to the first, with the inner loop's drops after it; its properties are stated by Flattener.DropPassOnlyInsertsDrops, DropPassDropsOnce and DropPassNoUseAfterDrop |
| Flattener.ScanFacts | src/compiler/backend/flattener.rs:27-35 | the objects the inner loop over `get_objects()` pushes onto `objects` are exactly the instruction's objects that `objects.contains` rejects, and each is pushed once |
| Flattener.DropsReversed | src/compiler/backend/flattener.rs:32 | each drop is inserted at `i + 1`, in front of the drops inserted before it, so the drops follow the instruction in the reverse of the order the loop met their objects, one per object |
| Flattener.DropAfter | src/compiler/backend/flattener.rs:27-35 | one run of the inner loop on instruction `i` keeps the instructions up to and including `i` as they were and never shortens the list |
| Flattener.DropAfterSingle | src/compiler/backend/flattener.rs:27-35 | the inner loop on an instruction that mentions one object inserts one drop of it right after the instruction and records it when it is not in `objects`, and changes nothing when it is |
| Flattener.InsertDrops | src/compiler/backend/flattener.rs:27-35 | the inner loop on instruction `i`, step by step: its result equals the one-step function, that is a drop of every not-yet-known object inserted right after instruction `i`, and those objects appended to `objects` |
| Flattener.DropPassAsWritten | src/compiler/backend/flattener.rs:23-44 | the outer loop as written: it runs `len - 1` times, a bound fixed before it starts, and each time scans the index `instructions.len() - i` computed from the current, already grown list; the method's result equals the function stating this |
| Flattener.AsWrittenMissesDrops | src/compiler/backend/flattener.rs:23-24 | on three literal moves into objects 0, 1 and 2, the loop as written adds only the drop of object 2, so objects 0 and 1 are never dropped |
| Flattener.IntendedDropsAll | src/compiler/backend/flattener.rs:18-19 | on the same three moves, whatever values they move, the pass the comment describes drops each object right after its own move |
| Flattener.DropPassOnlyInsertsDrops | src/compiler/backend/flattener.rs:18-35 | the intended pass only inserts drops: removing every drop from its output gives back its input, in the same order |
| Flattener.DropPassDropsOnce | src/compiler/backend/flattener.rs:18-35 | on a list without drops, the intended pass drops each object mentioned and not already known exactly once, and drops nothing else |
| Flattener.DropPassNoUseAfterDrop | src/compiler/backend/flattener.rs:18-35 | on a list without drops, no instruction after an object's drop mentions that object, so each drop follows the object's last use as the comment at lines 18-19 says |
| Flattener.DropUnusedObjects | src/compiler/backend/flattener.rs:18-44 | the corrected outer loop: it scans every index from the last to 0, runs the same inner loop on each, and its result equals the intended pass |
| Flattener.FlattenLine | src/compiler/backend/flattener.rs:8-47 | `flatten` with the corrected drop pass: generating the line's instructions and then dropping; it succeeds exactly when lowering the line does |
| Flattener.FlattenLineDrops | src/compiler/backend/flattener.rs:8-47 | `flatten` with the corrected drop pass: removing the drops gives back the lowered line, every object it mentions is dropped exactly once and nothing else is, and no object is mentioned after its drop |
| Flattener.Flatten | src/compiler/backend/flattener.rs:8-47 | `flatten` with the corrected drop pass: it calls `generate_instructions` on the context and id supply, then runs the corrected loop; it succeeds exactly when the line's lowering does, and the instructions, context and id counter are those of that lowering followed by the intended pass |
| ParserState.BlockNode | src/compiler/parser/tree/node.rs:653-658 | a finished block becomes a code-block node with the same position, label and code |
| ParserState.TokenAt | src/compiler/parser/parser_meta.rs:18-25 | indexing the tokens succeeds exactly inside the list, with the token there, and panics out of bounds otherwise |
| ParserState.PushCode | src/compiler/parser/tree/node.rs:661-663 | appends the node to the chosen block's code and changes nothing else; an index past the blocks panics |
| ParserState.ParserMeta.constructor | src/compiler/parser/parser_meta.rs:15-49 | a parser starts at the first token, at depth zero, with no blocks |
| ParserState.ParserMeta.Push | src/compiler/parser/tree/node.rs:661-663 | the in-place push succeeds exactly for an existing block and then leaves the state the push function gives |
| ArithmeticParsing.AdvancedTransitive | src/compiler/parser/parse_arithmetic_expression.rs:37-190 | two parsing steps in a row still only move the cursor forward and spend budget |
| ArithmeticParsing.Span | src/compiler/parser/parse_arithmetic_expression.rs:149-151 | the combined span starts where the first operand starts and ends where the second ends; the subtraction underflows, and so panics, when the second ends before the first starts |
| ArithmeticParsing.Combine | src/compiler/parser/parse_arithmetic_expression.rs:149-153 | folding takes the first two operands, in order, under the pending operation |
| ArithmeticParsing.CombineLast | src/compiler/parser/parse_arithmetic_expression.rs:159-165 | the last operand is replaced by the operation applied to it and the right operand, the others kept; the span length uses the second operand's length |
| ArithmeticParsing.Finish | src/compiler/parser/parse_arithmetic_expression.rs:192-204 | with no pending operation the value is the first operand, if any; with one, it is that operation applied to the first two operands |
| ArithmeticParsing.Conclude | src/compiler/parser/parse_arithmetic_expression.rs:192-204 | the result is the value after the loop, and the token shown on the way out must exist whenever there is a value |
| ArithmeticParsing.ParseArithmetic | src/compiler/parser/parse_arithmetic_expression.rs:10-204 | a successful parse only moves the cursor forward, not past the end, and keeps depth and blocks |
| ArithmeticParsing.ArithmeticLoop | src/compiler/parser/parse_arithmetic_expression.rs:37-190 | every successful run of the loop only moves the cursor forward |
| ArithmeticParsing.OnToken | src/compiler/parser/parse_arithmetic_expression.rs:39-189 | a round at a token only moves the cursor forward |
| ArithmeticParsing.OnOpen | src/compiler/parser/parse_arithmetic_expression.rs:58-122 | the round after `(` only moves the cursor forward |
| ArithmeticParsing.OnOperator | src/compiler/parser/parse_arithmetic_expression.rs:139-177 | the round at an operator only moves the cursor forward |
| ArithmeticParsing.OnStronger | src/compiler/parser/parse_arithmetic_expression.rs:159-168 | the round after a tighter operator only moves the cursor forward |
| ArithmeticParsing.CallArguments | src/compiler/parser/parse_arithmetic_expression.rs:70-91 | the argument loop only moves the cursor forward and keeps the arguments already read as a prefix |
| ArithmeticParsing.AfterArgument | src/compiler/parser/parse_arithmetic_expression.rs:78-90 | after an argument the cursor only moves forward and the arguments read so far are kept |
| ArithmeticParsing.ReadArithmetic | src/compiler/parser/parse_arithmetic_expression.rs:10-204 | the in-place parser ends with the same result and cursor as the parsing function, or panics or diverges with it |
| ArithmeticParsing.ArithmeticRound | src/compiler/parser/parse_arithmetic_expression.rs:37-190 | one round either ends with the loop's result or hands on operands and pending operation from which the loop gives the same result |
| ArithmeticParsing.TokenRound | src/compiler/parser/parse_arithmetic_expression.rs:39-189 | the round at the token under the cursor agrees with the function for that round |
| ArithmeticParsing.OpenRound | src/compiler/parser/parse_arithmetic_expression.rs:58-122 | the round after `(` agrees with the function for that round |
| ArithmeticParsing.OperatorRound | src/compiler/parser/parse_arithmetic_expression.rs:139-177 | the round at an operator agrees with the function for that round |
| ArithmeticParsing.StrongerRound | src/compiler/parser/parse_arithmetic_expression.rs:159-168 | the round after a tighter operator agrees with the function for that round |
| ArithmeticParsing.ReadCallArguments | src/compiler/parser/parse_arithmetic_expression.rs:68-91 | the in-place argument loop agrees with the argument-list function |
| ArithmeticParsing.ArgumentRound | src/compiler/parser/parse_arithmetic_expression.rs:70-91 | one argument either ends the call as the function says or leaves a state from which the function gives the same result |
| ArithmeticParsing.ArgumentEnd | src/compiler/parser/parse_arithmetic_expression.rs:78-90 | the token before the cursor ends the call, asks for another argument, or panics, as the function says |
| ArithmeticExamples.Leaf | src/compiler/parser/parse_arithmetic_expression.rs:185 | an operand token becomes the value node that parsing the token gives, at the token's own position |
| ArithmeticExamples.Later | src/compiler/parser/parse_arithmetic_expression.rs:44 | the state a given number of tokens further on, with steps of the budget spent, depth and blocks unchanged |
| ArithmeticExamples.SingleToken | src/compiler/parser/parse_arithmetic_expression.rs:12-16 | with the cursor on the last token, an operand is the whole expression and is returned at once with the cursor left on it; any other last token goes to the loop |
| ArithmeticExamples.ParenthesisedOperand | src/compiler/parser/parse_arithmetic_expression.rs:110-126 | `( a )`, where `(` does not start a call and `a` is a single operand: the nested parse returns `a`, which joins the operands, and the loop goes on past the `)` |
| ArithmeticExamples.LoopStart | src/compiler/parser/parse_arithmetic_expression.rs:11-37 | unless only one token is left, the expression is read by the loop, from no operands and no pending operation |
| ArithmeticExamples.OperandStep | src/compiler/parser/parse_arithmetic_expression.rs:180-188 | an operand that is not the last token joins the operands |
| ArithmeticExamples.FirstOperatorStep | src/compiler/parser/parse_arithmetic_expression.rs:171 | the first strong-enough operator becomes the pending one |
| ArithmeticExamples.WeakerOperatorStep | src/compiler/parser/parse_arithmetic_expression.rs:146-156 | an operator binding no tighter than the pending one folds the first two operands under the pending one and becomes pending itself |
| ArithmeticExamples.StrongerOperatorStep | src/compiler/parser/parse_arithmetic_expression.rs:159-168 | an operator binding tighter than the pending one hands over to the parse of its right operand |
| ArithmeticExamples.CallStep | src/compiler/parser/parse_arithmetic_expression.rs:58-63 | `(` with no operation pending goes to the call-or-parenthesis round |
| ArithmeticExamples.LineEndStep | src/compiler/parser/parse_arithmetic_expression.rs:48-51 | a line end stops the loop with the cursor left on it |
| ArithmeticExamples.WeakOperatorStops | src/compiler/parser/parse_arithmetic_expression.rs:141-144 | an operator weaker than the minimum ends the expression with the cursor left on it |
| ArithmeticExamples.UnexpectedTokenStops | src/compiler/parser/parse_arithmetic_expression.rs:46 | when asked to stop at unexpected tokens, a token that cannot be in an arithmetic expression ends it with the cursor left on it |
| ArithmeticExamples.LastTokenPanics | src/compiler/parser/parse_arithmetic_expression.rs:53 | a last token that does not end the loop panics, because the token after it is shown |
| ArithmeticExamples.OperandThenOperator | src/compiler/parser/parse_arithmetic_expression.rs:37-177 | an operand then an operator leaves, after three steps, that operand and that operator pending |
| ArithmeticExamples.BinaryExpression | src/compiler/parser/parse_arithmetic_expression.rs:10-204 | `a o b` then a line end parses to `o` applied to `a` and `b`, spanning both, with the cursor on the line end |
| ArithmeticExamples.LeftAssociative | src/compiler/parser/parse_arithmetic_expression.rs:145-157 | `a o1 b o2 c` with `o2` no tighter than `o1` groups as `(a o1 b) o2 c` |
| ArithmeticExamples.WeakerStep | src/compiler/parser/parse_arithmetic_expression.rs:145-157 | the looser second operator folds the first two operands and then takes the last operand |
| ArithmeticExamples.LoneOperand | src/compiler/parser/parse_arithmetic_expression.rs:180-204 | an operand followed by a line end parses to that operand, with the cursor on the line end |
| ArithmeticExamples.HigherPrecedence | src/compiler/parser/parse_arithmetic_expression.rs:159-168 | `a o1 b o2 c` with `o2` tighter than `o1` groups as `a o1 (b o2 c)` |
| ArithmeticExamples.StrongerStep | src/compiler/parser/parse_arithmetic_expression.rs:159-168 | the tighter second operator takes `b o2 c` as one operand under a higher minimum |
| ArithmeticExamples.CallWithOneArgument | src/compiler/parser/parse_arithmetic_expression.rs:58-102 | `f(a)` then a line end parses to a call of `f` with the one argument `a`, at the zero position, with the cursor on the line end |
| ArithmeticExamples.OneArgument | src/compiler/parser/parse_arithmetic_expression.rs:70-91 | the argument list `a)` gives the one argument `a` with the cursor past the `)` |
| DatatypeParsing.ParseDatatype | src/compiler/parser/parse_datatype.rs:10-18 | succeeds exactly on an identifier at the cursor that names a known type, returning the id of a type of that name and moving past it; anything else panics |
| DatatypeParsing.ParseParameterDescriptor | src/compiler/parser/parse_datatype.rs:21-62 | a successful read moves only the cursor, by three or four tokens, and always yields an external name |
| DatatypeParsing.ShortDescriptor | src/compiler/parser/parse_datatype.rs:26-42 | `name : Type` gives the descriptor called `name`, internally `name` exactly when the internal name is asked for, and moves by three |
| DatatypeParsing.LongDescriptor | src/compiler/parser/parse_datatype.rs:44-55 | `external internal : Type` gives both names whatever is asked for, and moves by four |
| DatatypeParsing.DescriptorForms | src/compiler/parser/parse_datatype.rs:26-58 | a descriptor is read only from a name followed by `:` or by a second name, moving by three or by four respectively |
| DatatypeParsing.GenerateFunctionArgumentAsWritten | src/compiler/parser/parse_datatype.rs:78-80 | as written: the type id lands in the argument's own-id slot and the fresh id in its type slot |
| DatatypeParsing.SameTypeSharesId | src/compiler/parser/parse_datatype.rs:78-80 | as written, two parameters of the same type share one object id, and at least one of them is recorded with a type that is not its own |
| DatatypeParsing.GenerateFunctionArgument | src/compiler/parser/parse_datatype.rs:78-80 | as intended: the fresh id is the argument's own id and the declared type is its type |
| DatatypeParsing.DistinctArgumentIds | src/compiler/parser/parse_datatype.rs:78-80 | parameters built from distinct fresh ids are distinct objects, each keeping its declared type |
| DatatypeParsing.ReadDatatype | src/compiler/parser/parse_datatype.rs:10-18 | the in-place read agrees with the datatype parsing function |
| DatatypeParsing.ReadParameterDescriptor | src/compiler/parser/parse_datatype.rs:21-62 | the in-place read agrees with the descriptor parsing function |
| ArgArrays.ArgLoop | src/compiler/parser/parse_arg_array.rs:20-42 | the loop moves only the cursor, ends just past a `)`, and keeps what was collected before as a prefix |
| ArgArrays.ParseArgArray | src/compiler/parser/parse_arg_array.rs:10-46 | a read needs `(` at the cursor and ends just past a `)`, having moved only the cursor |
| ArgArrays.EmptyArray | src/compiler/parser/parse_arg_array.rs:10-46 | `()` is the empty list, with the cursor moved by two |
| ArgArrays.ElementThenRest | src/compiler/parser/parse_arg_array.rs:35-40 | each element is one parameter descriptor, read after the previous ones, with the colons after it skipped |
| ArgArrays.SkipColons | src/compiler/parser/parse_arg_array.rs:25-28 | colons are skipped without changing what was collected |
| ArgArrays.ReadArgArray | src/compiler/parser/parse_arg_array.rs:10-46 | the in-place loop agrees with the argument-array parsing function |
| LineParsing.CloseBlock | src/compiler/parser/parse_line.rs:113-119 | a closing brace lowers the depth by one when it is positive and panics on the unsigned underflow otherwise |
| LineParsing.SkipNewlines | src/compiler/parser/parse_line.rs:124-139 | skipping only moves the cursor forward and lowers the depth by at most one below the start; it stops on a token that is neither a line end nor `}`, or at the end, unless the depth fell below where the line began |
| LineParsing.SkipAfter | src/compiler/parser/parse_line.rs:124-139 | after one skipped token the loop stops once the depth is below where the line began, and otherwise goes on skipping |
| LineParsing.ModifierFrom | src/compiler/parser/modifier.rs:26-49 | a modifier keyword yields a well-formed modifier with its arguments; any other token yields none and leaves the cursor where it was |
| LineParsing.ModifierLoop | src/compiler/parser/parse_line.rs:33-49 | modifiers are read until none follows, kept in order after those already read, each well-formed |
| LineProperties.ExternModifier | src/compiler/parser/modifier.rs:26-49 | `extern "a" "b"` yields the `extern` modifier whose arguments are the two string-literal nodes with those texts and positions, and leaves the cursor after the three tokens |
| LineProperties.ExternModifierLoop | src/compiler/parser/parse_line.rs:33-49 | a line starting `extern "a" "b"` followed by a token that is not a modifier keyword yields exactly that one modifier, with the cursor after it |
| LineParsing.ParseMultiple | src/compiler/parser/parse_expression_kind.rs:104-123 | the kinds are read in order, keeping earlier nodes as a prefix; when every kind yields a node, there is one node per kind, each of its kind |
| LineParsing.ParseExpressionKind | src/compiler/parser/parse_expression_kind.rs:14-102 | an element yields at most one node, of the kind asked for, and exactly one when it is required and not a keyword; a keyword is skipped without a node; an assignment, identifier or string literal is the token at the cursor turned into its node with the cursor past it, and any other token there panics |
| LineParsing.ParseCodeBlock | src/compiler/parser/parse_expression_kind.rs:56-76 | a code block element is an unlabelled block node at the zero position, and the depth and blocks are back as they were |
| LineParsing.CodeBlockLoop | src/compiler/parser/parse_expression_kind.rs:68-70 | lines are parsed while the depth is above where the block began, ending at that depth and only appending to the innermost block |
| LineParsing.ParseLine | src/compiler/parser/parse_line.rs:26-140 | a line spends budget, only appends to its own block, and leaves the depth as it was or one lower |
| LineParsing.LineBody | src/compiler/parser/parse_line.rs:53-140 | the rest of a line only appends to its own block and leaves the depth as it was or one lower |
| LineParsing.IdentifierLine | src/compiler/parser/parse_line.rs:90-111 | a line starting with an identifier only appends to its own block and leaves the depth as it was or one lower |
| LineParsing.StatementLoop | src/compiler/parser/parse_line.rs:58-88 | the statement loop only appends to its own block and leaves the depth unchanged |
| LineParsing.OnlyAppendsTransitive | src/compiler/parser/parse_line.rs:26-140 | two lines in a row still only append to the same block |
| LineParsing.Skip | src/compiler/parser/parse_line.rs:124-139 | the in-place skipping loop reaches the state the skipping function gives, or panics or diverges with it |
| LineParsing.ReadModifier | src/compiler/parser/modifier.rs:26-49 | the in-place modifier read agrees with the modifier function |
| LineParsing.ReadModifiers | src/compiler/parser/parse_line.rs:33-49 | the in-place modifier loop agrees with the modifier-loop function |
| LineParsing.ReadMultiple | src/compiler/parser/parse_expression_kind.rs:104-123 | the in-place read of several kinds agrees with its function |
| LineParsing.ReadExpressionKind | src/compiler/parser/parse_expression_kind.rs:14-102 | the in-place read of one kind agrees with its function |
| LineParsing.ReadCodeBlock | src/compiler/parser/parse_expression_kind.rs:56-76 | pushing a block, parsing lines into it and popping it agrees with the code-block function |
| LineParsing.ReadBlockLines | src/compiler/parser/parse_expression_kind.rs:68-70 | the in-place line loop of a block agrees with its function |
| LineParsing.ReadLine | src/compiler/parser/parse_line.rs:26-140 | the in-place `parse_line` reaches the state the line function gives |
| LineParsing.ReadLineBody | src/compiler/parser/parse_line.rs:53-140 | the rest of the line in place agrees with its function |
| LineParsing.ReadIdentifierLine | src/compiler/parser/parse_line.rs:90-111 | an identifier line in place agrees with its function |
| LineParsing.ReadStatements | src/compiler/parser/parse_line.rs:58-88 | the in-place statement loop agrees with its function |
| LineParsing.StatementRound | src/compiler/parser/parse_line.rs:59-87 | one statement either ends the loop as the function says or leaves a state from which the function gives the same result |
| LineProperties.StatementGenerated | src/compiler/parser/parse_line.rs:72-84 | the arguments read for a statement are those its format asks for, so generating its node fails only for a function with an `extern` modifier that is not in the last place |
| LineProperties.NoModifiers | src/compiler/parser/parse_line.rs:33-49 | a line that does not start with a modifier keyword has no modifiers, and its cursor stays |
| LineProperties.LineStart | src/compiler/parser/parse_line.rs:26-56 | without modifiers, the rest of the line is decided by its first token |
| LineProperties.ClosingLine | src/compiler/parser/parse_line.rs:113-119 | a line that is only `}` lowers the depth by one and ends at once |
| LineProperties.EmptyBlock | src/compiler/parser/parse_expression_kind.rs:56-76 | `{ }` is an empty unlabelled block, with depth and blocks as before |
| LineProperties.OtherStatements | src/compiler/parser/parse_line.rs:59-64 | statements of another keyword are passed over and leave the line as it was |
| LineProperties.LetArguments | src/compiler/parser/parse_expression_kind.rs:14-123 | the arguments of `let x = v` are the identifier, the `=` and the operand, with the cursor on the line end |
| LineProperties.OneLineEnd | src/compiler/parser/parse_line.rs:124-139 | one line end before an ordinary token is skipped and nothing else changes |
| LineProperties.LetStatement | src/compiler/parser/parse_line.rs:58-88 | on `let x = v` the `let` statement appends its node and the other statements are passed over |
| LineProperties.LetLineBody | src/compiler/parser/parse_line.rs:58-88 | the rest of the line after `let` appends the let node and skips the line end |
| LineProperties.LetLine | src/compiler/parser/parse_line.rs:26-140 | the line `let x = v` appends an immutable let node binding `x` to `v` to its block, skips the line end, and changes nothing else |
| LineProperties.Assigned | src/compiler/parser/parse_line.rs:90-111 | the rest of the line `x = v` after `x` appends the assignment node and skips the line end |
| LineProperties.AssignmentLine | src/compiler/parser/parse_line.rs:90-111 | the line `x = v` appends an assignment of the untyped identifier `x` from `v`, at the identifier's position, and skips the line end |
| LineProperties.ExpressionLine | src/compiler/parser/parse_line.rs:93-102 | a lone identifier line appends the identifier's value node and returns without skipping the line end, leaving the cursor on it |

## Left out

- Debug output: every `println!`/`print!` line. The exception is a print that indexes the tokens, whose out-of-range panic is modelled (parse_arithmetic_expression.rs lines 53 and 202, parse_line.rs lines 44 and 51, modifier.rs line 45).
- The lexer: the `logos` regular expressions of token_prototype.rs and the tokenizer. A token prototype with its span is the model's input.
- The pipeline: file reading, the command line, the calls to the assembler and linker, and writing the output file.
- Signposts and instruments: foreign calls and an atomic counter.
- `parse` and `parse_line` in parse.rs, and `split` in splitter.rs, have empty bodies and nothing to model.
- `Boolean::build` is `todo!()`. Only `build_type` and `get_name` are modelled.
- `AssemblyInstruction::into_asm` is `todo!()` and is not modelled.
- Aarch64.Optimize: in the source `optimize_internal` (src/compiler/backend/arch/aarch64/aarch64_opt.rs:5-7) returns its instructions unchanged, and the model's identity is that function; no peephole rewriting exists to model.
- `get_future`, `get_sub_nodes` and `perform_early_context_changes` of node.rs are not modelled. A function declaration node carries its generated parameter arguments as a field instead.
- The `)` branch's code after `break` in parse_arithmetic_expression.rs (lines 127-136) is dead and not modelled.
- `parse_arg_array` is generic over its element parser. The model fixes the element parser to `parse_parameter_descriptor` with internal names, the only use in the core.
- LineParsing.ParseLine: the parsing functions carry a step budget, and running out of it is a third outcome, `Diverged`, that the source does not have. A contract about a successful parse says nothing about an input on which the source loops forever.
- ArithmeticParsing.ParseArithmetic: the same step budget applies. Its properties hold only of a parse that ends.
- Block depth is an unbounded natural number. Lowering it below zero is the source's unsigned underflow and panics; a depth above the `u32` range is not modelled.
- Object ids are natural numbers drawn from a counter. Their randomness, and the collisions it rules out with high probability, are not modelled.
- Hash maps are Dafny maps or sequences. Where the source iterates a `HashMap`, the model fixes one order.
- `display_error` only records the notification. The printed source excerpt and its line and column numbers are not modelled.
- `ASSIGNMENT_OPERATION` is `=`. The basic string type is named `basic_string`.
- Lowering.WrapI64: an `i128` literal outside the `i64` range is stored wrapped to 64 bits. The model does not check that the lexer can produce such a literal.
- ObjectGeneration.GenerateObject: requires a non-empty token list, where the source panics on `tokens[0]` and `tokens.last().unwrap()` (src/compiler/data_types/object.rs:51-52); the unsigned subtraction for the unused result position (object.rs:53-54), which underflows when the last token ends before the first starts, is not modelled either. It also requires `Reportable`: every type named in an ambiguity message can be found among the types, where the source panics on the `nth(0).unwrap()` lookup (object.rs:116 and object.rs:154). Those panics are not modelled.
- IntegerBuild.IntegerOfToken: requires the token to have raw text, where the source panics on `get_raw_text().unwrap()` (src/compiler/data_types/integer.rs:76). That panic is not modelled; every caller in the model passes a token that has raw text.
- IntegerBuild.GenerateInteger: the same raw-text requirement as IntegerBuild.IntegerOfToken, for the same unwrap (integer.rs:76).
- ArithmeticParsing.IsExpectedInArithmetic: `is_expected_in_arithmetic` is not part of this model. The model assumes it holds exactly for integer and boolean literals, identifiers, operators, `(` and `)`. As a consequence, a call with two arguments such as `f(a, b)` panics with "Unexpected token in function call": the argument parse stops before the `,`, the cursor is stepped back once, and the token it then inspects is `a`.
- ArithmeticParsing.IsLineDelimiting: `is_line_delimiting` is not part of this model either. The model assumes it holds exactly for the soft and the hard newline.
- Exit messages: `exit_with_variant` colours its message red and the variant warning yellow (src/util/exit.rs:9 and exit.rs:16). The colour escape codes are output formatting and are not modelled; only the exit code and the text of the warning are.

## Findings

| source | as written | input that shows it | evidently intended | confidence | as-written member | corrected member |
|---|---|---|---|---|---|---|
| src/compiler/backend/flattener.rs:23-24 | The loop runs `len - 1` times, a bound fixed before it starts, but the scanned index is taken from the current length, which grows with every inserted drop. Earlier instructions are skipped and later ones scanned twice; index 0 is never scanned. | Three literal moves into objects 0, 1 and 2: only object 2 gets a drop. | Every instruction is scanned from the last to the first, and each object is dropped once, right after its last use. | high, not executed | Flattener.AsWrittenMissesDrops | Flattener.DropUnusedObjects |
| src/compiler/optimization.rs:45 | A matching flag is removed by its index in a snapshot taken before the loop, so after one removal the indices are stale. | The flags `removeIdentityOperations` then `!removeIdentityOperations`: the second removal indexes past the end of the shortened list and panics. | The later matching flag decides and every flag list resolves. | high, not executed | Optimization.SecondMatchPanics | Optimization.NewOptCorrected |
| src/compiler/parser/parse_datatype.rs:79 | `FunctionArgument::new(name, datatype, new_v4())` puts the type id in the `own_uuid` slot and the fresh id in the `type_uuid` slot. | Two parameters of the same type, such as `a: i32` and `b: i32`: both get the same object id. | The fresh id is the argument's own id and the declared type is its type. | high, not executed | DatatypeParsing.SameTypeSharesId | DatatypeParsing.GenerateFunctionArgument |
