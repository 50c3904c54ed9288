/** The line trimmer of the compiler front end: it strips `//` line comments
    and block comments (slash-star to star-slash) from one line and trims the result. The
    block-comment flag is carried from one line to the next by the caller. */
module Trimmer {
  import Text

  /** The placeholder the trimmer keeps in its one-character look-behind when
      there is nothing to emit: the regional-indicator pair of the Romanian
      flag. Every occurrence left in the output becomes one space. */
  const Flag: string := "\U{1F1F7}\U{1F1F4}"

  /** The loop variables of the scan: the text emitted so far, the pending
      look-behind text, and whether the scan is inside a block comment. */
  datatype ScanState = ScanState(output: string, last: string, inBlockComment: bool)

  /** The state before the first character of a line. */
  function Start(inBlockComment: bool): ScanState {
    ScanState("", Flag, inBlockComment)
  }

  /** `//` ends the scan; the flag is checked before anything else, so this
      holds even inside a block comment. */
  predicate StopsAt(st: ScanState, c: char) {
    st.last == "/" && c == '/'
  }

  /** One iteration of the character loop that does not stop it. */
  function Step(st: ScanState, c: char): (r: ScanState)
    requires !StopsAt(st, c)
    ensures r.last == Flag || r.last == [c]
    ensures r.inBlockComment ==> r.output == st.output
    ensures r.output == st.output || r.output == st.output + st.last
  {
    if st.last == "*" && c == '/' then
      // star-slash closes the comment; both characters are dropped
      st.(inBlockComment := false, last := Flag)
    else
      var opens := st.last == "/" && c == '*';
      var inBlock := st.inBlockComment || opens;
      if inBlock then ScanState(st.output, [c], true)
      else ScanState(st.output + st.last, [c], false)
  }

  /** The whole character loop: the state when it ends or stops at `//`. */
  function Scan(s: string, st: ScanState): ScanState
    decreases |s|
  {
    if |s| == 0 then st
    else if StopsAt(st, s[0]) then st.(last := Flag)
    else Scan(s[1..], Step(st, s[0]))
  }

  /** Text once emitted stays emitted, and the look-behind stays the
      placeholder or a single character. */
  lemma {:induction false} ScanKeepsEmitted(s: string, st: ScanState)
    ensures st.output <= Scan(s, st).output
    ensures (st.last == Flag || |st.last| == 1) ==> (Scan(s, st).last == Flag || |Scan(s, st).last| == 1)
    decreases |s|
  {
    if |s| > 0 && !StopsAt(st, s[0]) {
      ScanKeepsEmitted(s[1..], Step(st, s[0]));
    }
  }

  /** What is done after the loop: the pending text is emitted unless the
      line ends inside a comment, placeholders become spaces, and the text
      is trimmed. */
  function Finish(st: ScanState): (r: string)
    ensures Text.IsTrimmed(r)
    ensures st.inBlockComment && st.output == "" ==> r == ""
  {
    var emitted := if st.inBlockComment then st.output else st.output + st.last;
    Text.Trim(Text.Replace(emitted, Flag, " "))
  }

  /** The trimmer, line by line: `line` with its comments removed and the
      block-comment flag after it. */
  method TrimLine(line: string, inBlockComment: bool) returns (result: string, inBlockCommentAfter: bool)
    ensures result == Finish(Scan(line, Start(inBlockComment)))
    ensures inBlockCommentAfter == Scan(line, Start(inBlockComment)).inBlockComment
    ensures Text.IsTrimmed(result)
  {
    var output := "";
    var last := Flag;
    var inBlock := inBlockComment;
    var i := 0;
    while i < |line|
      invariant 0 <= i <= |line|
      invariant Scan(line[i..], ScanState(output, last, inBlock)) == Scan(line, Start(inBlockComment))
    {
      var c := line[i];
      assert line[i..][1..] == line[i + 1..];
      if last == "/" && c == '/' {
        last := Flag;
        break;
      }
      if last == "/" && c == '*' {
        last := Flag;
        inBlock := true;
      } else if last == "*" && c == '/' {
        inBlock := false;
        last := Flag;
        i := i + 1;
        continue;
      }
      if inBlock {
        last := [c];
        i := i + 1;
        continue;
      }
      output := output + last;
      last := [c];
      i := i + 1;
    }
    assert ScanState(output, last, inBlock) == Scan(line, Start(inBlockComment));
    if !inBlock {
      output := output + last;
    }
    output := Text.Replace(output, Flag, " ");
    result := Text.Trim(output);
    inBlockCommentAfter := inBlock;
  }

  /** Outside a comment, text without `/` is emitted as it is, one character
      behind. */
  lemma {:induction false} PlainPrefix(s: string, rest: string, o: string, l: string)
    requires |s| > 0 && '/' !in s && l != "/"
    ensures Scan(s + rest, ScanState(o, l, false))
         == Scan(rest, ScanState(o + l + s[..|s| - 1], [s[|s| - 1]], false))
  {
    var st := ScanState(o, l, false);
    assert (s + rest)[0] == s[0];
    assert (s + rest)[1..] == s[1..] + rest;
    var next := Step(st, s[0]);
    assert next == ScanState(o + l, [s[0]], false);
    if |s| == 1 {
      assert (s + rest)[1..] == rest;
      assert o + l + s[..0] == o + l;
    } else {
      PlainPrefix(s[1..], rest, o + l, [s[0]]);
      assert s[1..][..|s| - 2] == s[1..|s| - 1];
      assert o + l + [s[0]] + s[1..|s| - 1] == o + l + s[..|s| - 1];
    }
  }

  /** Inside a comment, text without `/` emits nothing and keeps the comment
      open. */
  lemma {:induction false} CommentPrefix(s: string, rest: string, o: string, l: string)
    requires '/' !in s
    ensures Scan(s + rest, ScanState(o, l, true))
         == Scan(rest, ScanState(o, if |s| == 0 then l else [s[|s| - 1]], true))
  {
    if |s| == 0 {
      assert s + rest == rest;
    } else {
      assert (s + rest)[0] == s[0];
      assert (s + rest)[1..] == s[1..] + rest;
      CommentPrefix(s[1..], rest, o, [s[0]]);
    }
  }

  /** Slash-star outside a comment emits the pending character, opens the comment
      and leaves `*` as the look-behind. */
  lemma OpenComment(rest: string, o: string, l: string)
    requires l != "/" && l != "*"
    ensures Scan("/*" + rest, ScanState(o, l, false)) == Scan(rest, ScanState(o + l, "*", true))
  {
    assert ("/*" + rest)[1..] == "*" + rest;
    assert ("*" + rest)[1..] == rest;
  }

  /** Star-slash inside a comment closes it, whatever the look-behind is. */
  lemma CloseComment(rest: string, o: string, l: string)
    ensures Scan("*/" + rest, ScanState(o, l, true)) == Scan(rest, ScanState(o, Flag, false))
  {
    assert ("*/" + rest)[1..] == "/" + rest;
    assert ("/" + rest)[1..] == rest;
  }

  /** `//` outside a comment ends the line: the pending character is emitted
      and everything after the slashes is discarded. */
  lemma LineComment(rest: string, o: string, l: string)
    requires l != "/" && l != "*"
    ensures Scan("//" + rest, ScanState(o, l, false)) == ScanState(o + l, Flag, false)
  {
    assert ("//" + rest)[1..] == "/" + rest;
  }

  /** A leading placeholder only adds whitespace that trimming removes. */
  lemma LeadingPlaceholder(x: string)
    ensures Text.Trim(Text.Replace(Flag + x, Flag, " ")) == Text.Trim(Text.Replace(x, Flag, " "))
  {
    Text.ReplaceFront(Flag, x, " ");
    Text.TrimSkipsLeadingWhitespace(" ", Text.Replace(x, Flag, " "));
  }

  /** Text that is only a placeholder trims to nothing. */
  lemma PlaceholderOnly()
    ensures Text.Trim(Text.Replace(Flag, Flag, " ")) == ""
  {
    assert Flag + "" == Flag;
    LeadingPlaceholder("");
  }

  /** A non-empty line without `/`, read outside a comment, ends with all
      but its last character emitted after the initial placeholder. */
  lemma ScanWithoutSlash(line: string)
    requires |line| > 0 && '/' !in line
    ensures Scan(line, Start(false))
         == ScanState(Flag + line[..|line| - 1], [line[|line| - 1]], false)
  {
    PlainPrefix(line, "", "", Flag);
    assert line + "" == line;
    assert "" + Flag + line[..|line| - 1] == Flag + line[..|line| - 1];
  }

  /** A line without `/`, read outside a comment, comes back trimmed (with any
      placeholder pairs it contains turned into spaces), and the flag stays
      false. */
  lemma LineWithoutSlash(line: string)
    requires '/' !in line
    ensures Scan(line, Start(false)).inBlockComment == false
    ensures Finish(Scan(line, Start(false))) == Text.Trim(Text.Replace(line, Flag, " "))
  {
    if |line| == 0 {
      assert "" + Flag == Flag;
      PlaceholderOnly();
      assert Text.Replace(line, Flag, " ") == "";
    } else {
      ScanWithoutSlash(line);
      var n := |line| - 1;
      var st := Scan(line, Start(false));
      assert st.output + st.last == Flag + line;
      LeadingPlaceholder(line);
    }
  }

  /** The same, for a line that has no placeholder characters: the result is
      exactly the trimmed line. */
  lemma PlainLine(line: string)
    requires '/' !in line && Flag[0] !in line
    ensures Scan(line, Start(false)).inBlockComment == false
    ensures Finish(Scan(line, Start(false))) == Text.Trim(line)
  {
    LineWithoutSlash(line);
    Text.ReplaceAbsent(line, Flag, " ");
  }

  /** Code followed by `//` loses the comment: the result is the trimmed code. */
  lemma {:induction false} CodeThenLineComment(code: string, comment: string)
    requires |code| > 0 && '/' !in code && code[|code| - 1] != '*' && Flag[0] !in code
    ensures Scan(code + "//" + comment, Start(false)) == ScanState(Flag + code, Flag, false)
    ensures Finish(Scan(code + "//" + comment, Start(false))) == Text.Trim(code)
  {
    var n := |code| - 1;
    assert code + "//" + comment == code + ("//" + comment);
    PlainPrefix(code, "//" + comment, "", Flag);
    LineComment(comment, "" + Flag + code[..n], [code[n]]);
    assert "" + Flag + code[..n] + [code[n]] == Flag + code;
    PlaceholdersAround(code);
  }

  /** A line read inside a comment that has no `/` yields nothing and keeps
      the comment open. */
  lemma InsideComment(line: string)
    requires '/' !in line
    ensures Scan(line, Start(true)).inBlockComment
    ensures Finish(Scan(line, Start(true))) == ""
  {
    assert line + "" == line;
    CommentPrefix(line, "", "", Flag);
  }

  /** The block comment example: a line holding only slash-star opens a
      comment and gives "". */
  lemma OpeningLine()
    ensures Scan("/*", Start(false)) == ScanState(Flag, "*", true)
    ensures Finish(Scan("/*", Start(false))) == ""
  {
    assert "/*" == "/*" + "";
    OpenComment("", "", Flag);
    assert "" + Flag == Flag;
    PlaceholderOnly();
  }

  /** Text ending in star-slash, read inside a comment, closes it and gives "". */
  lemma ClosingLine(s: string)
    requires '/' !in s
    ensures !Scan(s + "*/", Start(true)).inBlockComment
    ensures Finish(Scan(s + "*/", Start(true))) == ""
  {
    assert s + "*/" == s + ("*/" + "");
    CommentPrefix(s, "*/" + "", "", Flag);
    CloseComment("", "", if |s| == 0 then Flag else [s[|s| - 1]]);
    assert "" + Flag == Flag;
    PlaceholderOnly();
  }

  /** The line comment example of the trimmer's test. */
  lemma LineCommentExample()
    ensures Scan("let a = 10 // This sets a to 10", Start(false)).inBlockComment == false
    ensures Finish(Scan("let a = 10 // This sets a to 10", Start(false))) == "let a = 10"
  {
    LineCommentScan();
    LetPlaceholders();
    LetTrimmed();
  }

  lemma LineCommentScan()
    ensures Scan("let a = 10 // This sets a to 10", Start(false)) == ScanState(Flag + "let a = 10 ", Flag, false)
  {
    LetLineParts();
    LetCodeIsPlain();
    CodeThenLineComment("let a = 10 ", " This sets a to 10");
  }

  lemma LetLineParts()
    ensures "let a = 10 // This sets a to 10" == "let a = 10 " + "//" + " This sets a to 10"
  {
  }

  lemma LetCodeIsPlain()
    ensures '/' !in "let a = 10 " && "let a = 10 "[|"let a = 10 "| - 1] != '*' && Flag[0] !in "let a = 10 "
  {
  }

  lemma LetPlaceholders()
    ensures Finish(ScanState(Flag + "let a = 10 ", Flag, false)) == Text.Trim("let a = 10 ")
  {
    LetCodeIsPlain();
    PlaceholdersAround("let a = 10 ");
  }

  lemma LetTrimmed()
    ensures Text.Trim("let a = 10 ") == "let a = 10"
  {
    LetTrailingSpace();
    LetAlreadyTrimmed();
  }

  lemma LetAlreadyTrimmed()
    ensures Text.Trim("let a = 10") == "let a = 10"
  {
    Text.TrimOfTrimmed("let a = 10");
  }

  lemma LetTrailingSpace()
    ensures Text.Trim("let a = 10 ") == Text.Trim("let a = 10")
  {
    assert "let a = 10 " == "let a = 10" + " ";
    Text.TrimSkipsTrailingWhitespace("let a = 10", " ");
  }

  /** Placeholders at both ends of plain code become spaces that trimming
      removes. */
  lemma PlaceholdersAround(code: string)
    requires Flag[0] !in code
    ensures Finish(ScanState(Flag + code, Flag, false)) == Text.Trim(code)
  {
    var emitted := Flag + code + Flag;
    assert emitted == Flag + (code + Flag);
    Text.ReplaceFront(Flag, code + Flag, " ");
    Text.ReplaceAbsentPrefix(code, Flag, Flag, " ");
    Text.ReplaceFront(Flag, "", " ");
    assert Text.Replace(emitted, Flag, " ") == " " + (code + " ");
    Text.TrimSkipsLeadingWhitespace(" ", code + " ");
    Text.TrimSkipsTrailingWhitespace(code, " ");
  }

  /** The inline block comment example: the comment and its delimiters leave
      one space between the surrounding spaces. */
  lemma InlineCommentExample()
    ensures Scan("let b = a /* 10 */ + 3", Start(false)).inBlockComment == false
    ensures Finish(Scan("let b = a /* 10 */ + 3", Start(false))) == "let b = a   + 3"
  {
    InlineCommentScan();
    InlineCommentFinish();
  }

  /** Plain code, a block comment and plain code again, all on one line. */
  lemma {:induction false} CommentBetween(a: string, comment: string, b: string)
    requires |a| > 0 && '/' !in a && a[|a| - 1] != '*'
    requires '/' !in comment && |b| > 0 && '/' !in b
    ensures Scan(a + "/*" + comment + "*/" + b, Start(false))
         == ScanState(Flag + a + Flag + b[..|b| - 1], [b[|b| - 1]], false)
  {
    var n := |a| - 1;
    var rest := comment + ("*/" + b);
    assert a + "/*" + comment + "*/" + b == a + ("/*" + rest);
    PlainPrefix(a, "/*" + rest, "", Flag);
    var o := "" + Flag + a[..n];
    OpenComment(rest, o, [a[n]]);
    CommentPrefix(comment, "*/" + b, o + [a[n]], "*");
    CloseComment(b, o + [a[n]], if |comment| == 0 then "*" else [comment[|comment| - 1]]);
    assert b + "" == b;
    PlainPrefix(b, "", o + [a[n]], Flag);
    assert o + [a[n]] == Flag + a;
  }

  lemma InlineCommentScan()
    ensures Scan("let b = a /* 10 */ + 3", Start(false))
         == ScanState(Flag + "let b = a " + Flag + " + ", "3", false)
  {
    InlineLineParts();
    InlinePartsArePlain();
    CommentBetween("let b = a ", " 10 ", " + 3");
  }

  lemma InlineLineParts()
    ensures "let b = a /* 10 */ + 3" == "let b = a " + "/*" + " 10 " + "*/" + " + 3"
    ensures " + 3"[..3] == " + " && [" + 3"[3]] == "3"
  {
  }

  lemma InlinePartsArePlain()
    ensures '/' !in "let b = a " && "let b = a "[9] != '*' && '/' !in " 10 " && '/' !in " + 3"
  {
  }

  lemma InlineCommentFinish()
    ensures Finish(ScanState(Flag + "let b = a " + Flag + " + ", "3", false)) == "let b = a   + 3"
  {
    InlinePlaceholders();
    InlineTrimmed();
  }

  /** Code with placeholders at its start and in its middle. */
  lemma PlaceholdersInside(a: string, b: string)
    requires Flag[0] !in a && Flag[0] !in b
    ensures Text.Replace(Flag + a + Flag + b, Flag, " ") == " " + a + " " + b
  {
    assert Flag + a + Flag + b == Flag + (a + (Flag + b));
    Text.ReplaceFront(Flag, a + (Flag + b), " ");
    Text.ReplaceAbsentPrefix(a, Flag + b, Flag, " ");
    Text.ReplaceFront(Flag, b, " ");
    Text.ReplaceAbsent(b, Flag, " ");
  }

  lemma InlinePlaceholders()
    ensures Finish(ScanState(Flag + "let b = a " + Flag + " + ", "3", false))
         == Text.Trim(" " + "let b = a " + " " + " + 3")
  {
    InlineNoPlaceholder();
    assert Flag + "let b = a " + Flag + " + " + "3" == Flag + "let b = a " + Flag + " + 3";
    PlaceholdersInside("let b = a ", " + 3");
  }

  lemma InlineNoPlaceholder()
    ensures Flag[0] !in "let b = a " && Flag[0] !in " + 3"
  {
  }

  lemma InlineTrimmed()
    ensures Text.Trim(" " + "let b = a " + " " + " + 3") == "let b = a   + 3"
  {
    InlineLeadingSpace();
    InlineAlreadyTrimmed();
  }

  lemma InlineAlreadyTrimmed()
    ensures Text.Trim("let b = a   + 3") == "let b = a   + 3"
  {
    Text.TrimOfTrimmed("let b = a   + 3");
  }

  lemma InlineLeadingSpace()
    ensures Text.Trim(" " + "let b = a " + " " + " + 3") == Text.Trim("let b = a   + 3")
  {
    assert " " + "let b = a " + " " + " + 3" == " " + "let b = a   + 3";
    Text.TrimSkipsLeadingWhitespace(" ", "let b = a   + 3");
  }

  /** The trimmer's test: five lines read in order with the flag carried
      from one to the next. */
  lemma TrimTest()
    ensures Scan("/*", Start(false)).inBlockComment
    ensures Finish(Scan("/*", Start(false))) == ""
    ensures Scan("This is in a block comment", Start(true)).inBlockComment
    ensures Finish(Scan("This is in a block comment", Start(true))) == ""
    ensures !Scan("And so is this!*/", Start(true)).inBlockComment
    ensures Finish(Scan("And so is this!*/", Start(true))) == ""
    ensures !Scan("let a = 10 // This sets a to 10", Start(false)).inBlockComment
    ensures Finish(Scan("let a = 10 // This sets a to 10", Start(false))) == "let a = 10"
    ensures !Scan("let b = a /* 10 */ + 3", Start(false)).inBlockComment
    ensures Finish(Scan("let b = a /* 10 */ + 3", Start(false))) == "let b = a   + 3"
  {
    OpeningLine();
    CommentLineExample();
    ClosingLineExample();
    LineCommentExample();
    InlineCommentExample();
  }

  lemma CommentLineExample()
    ensures Scan("This is in a block comment", Start(true)).inBlockComment
    ensures Finish(Scan("This is in a block comment", Start(true))) == ""
  {
    InsideComment("This is in a block comment");
  }

  lemma ClosingLineExample()
    ensures !Scan("And so is this!*/", Start(true)).inBlockComment
    ensures Finish(Scan("And so is this!*/", Start(true))) == ""
  {
    assert "And so is this!*/" == "And so is this!" + "*/";
    ClosingLine("And so is this!");
  }
}
