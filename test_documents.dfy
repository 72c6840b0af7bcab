/** The documents of the implementations' own test suites, run through the
    whole frontend of every implementation: each of the failing documents
    fails with the failure the tests expect, and a one-line document yields
    its one key. */
module TestDocuments {
  import opened Errors
  import opened Text
  import opened Tokens
  import opened Lexical
  import opened LexicalProps
  import opened LineProps
  import opened Document
  import opened Structure
  import opened Frontend

  // ---------------------------------------------------------------------
  // Lexing short documents

  /** A header line followed by one body line whose tokens are `toks`. */
  lemma LexTwoLines(d: Dialect, lines: seq<string>, toks: seq<Token>)
    requires |lines| == 2 && FirstLine(d, lines[0]) == HeaderLine
    requires LineTokens(d, lines[1], 2) == Ok(toks)
    ensures Lex(d, lines) == Ok([Token(Header, HeaderLine, 1, 0)] + toks + [Marker(Eof, 2)])
  {
    assert BodyTokens(d, lines, 2) == Ok([] + toks);
    assert [] + toks == toks;
  }

  /** One more body line that lexes appends its tokens. */
  lemma BodyStep(d: Dialect, lines: seq<string>, k: nat, prev: seq<Token>, cur: seq<Token>)
    requires 1 < k <= |lines|
    requires BodyTokens(d, lines, k - 1) == Ok(prev) && LineTokens(d, lines[k - 1], k) == Ok(cur)
    ensures BodyTokens(d, lines, k) == Ok(prev + cur)
  {
  }

  /** A header line followed by three body lines that lex. */
  lemma LexFourLines(d: Dialect, lines: seq<string>, a: seq<Token>, b: seq<Token>, c: seq<Token>)
    requires |lines| == 4 && FirstLine(d, lines[0]) == HeaderLine
    requires LineTokens(d, lines[1], 2) == Ok(a)
    requires LineTokens(d, lines[2], 3) == Ok(b)
    requires LineTokens(d, lines[3], 4) == Ok(c)
    ensures Lex(d, lines) == Ok([Token(Header, HeaderLine, 1, 0)] + (a + b + c) + [Marker(Eof, 4)])
  {
    BodyStep(d, lines, 2, [], a);
    assert [] + a == a;
    BodyStep(d, lines, 3, a, b);
    BodyStep(d, lines, 4, a + b, c);
  }

  /** A document whose first line is not the header. */
  lemma HeaderDocument(d: Dialect, lines: seq<string>)
    requires lines != [] && FirstLine(d, lines[0]) != HeaderLine
    ensures Parse(d, lines) == Err(HeaderError)
  {
  }

  /** A header line followed by one body line that fails to lex. */
  lemma SecondLineFails(d: Dialect, lines: seq<string>, e: Error)
    requires |lines| == 2 && FirstLine(d, lines[0]) == HeaderLine
    requires LineTokens(d, lines[1], 2) == Err(e)
    ensures Parse(d, lines) == Err(e)
  {
    assert BodyTokens(d, lines, 2) == Err(e);
  }

  lemma TwoLineTokens(h: Token, a: seq<Token>, e: Token)
    requires |a| == 4
    ensures var ts := [h] + a + [e];
      |ts| == 6 && ts[0] == h && ts[1] == a[0] && ts[2] == a[1] && ts[3] == a[2] && ts[4] == a[3] && ts[5] == e
  {
  }

  lemma FourLineTokens(h: Token, a: seq<Token>, b: seq<Token>, c: seq<Token>, e: Token)
    requires |a| == 4 && |b| >= 2
    ensures var ts := [h] + (a + b + c) + [e];
      |ts| >= 7 && ts[0] == h && ts[1] == a[0] && ts[2] == a[1] && ts[3] == a[2] && ts[4] == a[3] &&
      ts[5] == b[0] && ts[6] == b[1]
  {
  }

  // ---------------------------------------------------------------------
  // Parsing short documents

  /** A document whose first statement assigns the reserved key. */
  lemma ReservedFirst(d: Dialect, ts: seq<Token>)
    requires |ts| >= 3 && ts[0].kind == Header && ts[1].kind == Indent && ts[1].level == 0
    requires ts[2].kind == Identifier && ts[2].literal == ReservedKey
    ensures ParseTokens(d, ts) == Err(ReservedKeyError)
  {
    assert Run(d, ts, 0, Init()) == Run(d, ts, 1, Init());
    assert Statement(d, ts, 2, 0, Init()) == Err(ReservedKeyError);
  }

  /** A first section at stage 1, then a section at stage 3 indented under
      it: the stage-2 badge is missing. */
  lemma SkippedStage(d: Dialect, ts: seq<Token>)
    requires |ts| >= 7 && ts[0].kind == Header
    requires ts[1].kind == Indent && ts[1].level == 0
    requires ts[2].kind == SectionOpen && ts[2].level == 1
    requires ts[3].kind == Identifier && ts[3].literal != ReservedKey
    requires ts[4].kind == SectionClose
    requires ts[5].kind == Indent && ts[5].level == 2
    requires ts[6].kind == SectionOpen && ts[6].level == 3
    ensures ParseTokens(d, ts) == Err(BadgesError)
  {
    assert Run(d, ts, 0, Init()) == Run(d, ts, 1, Init());
    var st := OpenSection(Init(), 1, ts[3].literal);
    assert Statement(d, ts, 2, 0, Init()) == Ok(Step(st, 5));
    assert |st.stack| == 2;
    assert Statement(d, ts, 6, 2, st) == Err(BadgesError);
    assert Run(d, ts, 5, st) == Err(BadgesError);
    assert Run(d, ts, 1, Init()) == Run(d, ts, 5, st);
  }

  /** One top-level string assignment, then the end. */
  lemma AssignmentTree(d: Dialect, ts: seq<Token>)
    requires |ts| == 6 && ts[0].kind == Header && ts[1].kind == Indent && ts[1].level == 0
    requires ts[2].kind == Identifier && ts[2].literal != ReservedKey && ts[3].kind == VineWhip
    requires ts[4].kind == StringLit && ts[5].kind == Eof
    ensures ParseTokens(d, ts) == Ok(map[ts[2].literal := Str(ts[4].literal)])
  {
    var st := Assign(Init(), ts[2].literal, Str(ts[4].literal));
    assert Statement(d, ts, 2, 0, Init()) == Ok(Step(st, 5));
    assert Run(d, ts, 5, st) == Ok(st.root);
    assert Run(d, ts, 0, Init()) == Run(d, ts, 1, Init());
  }

  /** A two-line document whose body line starts by assigning the reserved
      key fails with the reserved-key error. */
  lemma ReservedDocument(d: Dialect, lines: seq<string>, toks: seq<Token>)
    requires |lines| == 2 && FirstLine(d, lines[0]) == HeaderLine
    requires LineTokens(d, lines[1], 2) == Ok(toks)
    requires |toks| >= 2 && toks[0].kind == Indent && toks[0].level == 0
    requires toks[1].kind == Identifier && toks[1].literal == ReservedKey
    ensures Parse(d, lines) == Err(ReservedKeyError)
  {
    LexTwoLines(d, lines, toks);
    var ts := [Token(Header, HeaderLine, 1, 0)] + toks + [Marker(Eof, 2)];
    assert ts[1] == toks[0] && ts[2] == toks[1];
    ReservedFirst(d, ts);
  }

  lemma BadgesDocument(d: Dialect, lines: seq<string>, a: seq<Token>, b: seq<Token>, c: seq<Token>)
    requires |lines| == 4 && FirstLine(d, lines[0]) == HeaderLine
    requires LineTokens(d, lines[1], 2) == Ok(a)
    requires LineTokens(d, lines[2], 3) == Ok(b)
    requires LineTokens(d, lines[3], 4) == Ok(c)
    requires |a| == 4 && a[0].kind == Indent && a[0].level == 0 && a[1].kind == SectionOpen && a[1].level == 1
    requires a[2].kind == Identifier && a[2].literal != ReservedKey && a[3].kind == SectionClose
    requires |b| >= 2 && b[0].kind == Indent && b[0].level == 2 && b[1].kind == SectionOpen && b[1].level == 3
    ensures Parse(d, lines) == Err(BadgesError)
  {
    LexFourLines(d, lines, a, b, c);
    FourLineTokens(Token(Header, HeaderLine, 1, 0), a, b, c, Marker(Eof, 4));
    SkippedStage(d, [Token(Header, HeaderLine, 1, 0)] + (a + b + c) + [Marker(Eof, 4)]);
  }

  lemma AssignmentDocument(d: Dialect, lines: seq<string>, a: seq<Token>)
    requires |lines| == 2 && FirstLine(d, lines[0]) == HeaderLine
    requires LineTokens(d, lines[1], 2) == Ok(a)
    requires |a| == 4 && a[0].kind == Indent && a[0].level == 0
    requires a[1].kind == Identifier && a[1].literal != ReservedKey && a[2].kind == VineWhip && a[3].kind == StringLit
    ensures Parse(d, lines) == Ok(map[a[1].literal := Str(a[3].literal)])
  {
    LexTwoLines(d, lines, a);
    TwoLineTokens(Token(Header, HeaderLine, 1, 0), a, Marker(Eof, 2));
    AssignmentTree(d, [Token(Header, HeaderLine, 1, 0)] + a + [Marker(Eof, 2)]);
  }

  // ---------------------------------------------------------------------
  // The test documents

  lemma InvalidHeader(d: Dialect, text: string)
    ensures Parse(d, ["NOT_BULBA!", "key ~> \"" + text + "\""]) == Err(HeaderError)
  {
    var lines := ["NOT_BULBA!", "key ~> \"" + text + "\""];
    assert |FirstLine(d, lines[0])| > |HeaderLine|;
    HeaderDocument(d, lines);
  }

  /** A line that starts with a tab. */
  lemma TabLine(d: Dialect, text: string, line: string)
    requires PlainText(d, text) && line == "\tkey ~> \"" + text + "\""
    ensures LineTokens(d, line, 2) == Err(TabError)
  {
    NoCommentAround("\tkey ~> \"", text, "\"");
    assert line[|line| - 1] == '"';
    assert Code(d, line) == line;
    TabRule(d, line, 2);
    if d == Cpp {
      assert TrailingCount(line, CSpace) == 0;
      assert LeadingCount(line, Space) == 0;
    } else {
      assert line[0] == '\t';
    }
  }

  lemma TabCharacter(d: Dialect, text: string)
    requires PlainText(d, text)
    ensures Parse(d, ["BULBA!", "\tkey ~> \"" + text + "\""]) == Err(TabError)
  {
    var lines := ["BULBA!", "\tkey ~> \"" + text + "\""];
    TabLine(d, text, lines[1]);
    HeaderFirst(d);
    SecondLineFails(d, lines, TabError);
  }

  /** A line indented by one space. */
  lemma BadIndentLine(d: Dialect, text: string, line: string)
    requires PlainText(d, text) && line == " key ~> \"" + text + "\""
    ensures LineTokens(d, line, 2) == Err(IndentationError)
  {
    assert line == IndentedLine(1, AssignmentLine("key", 1, "\"" + text + "\""));
    assert IsKey(d, "key");
    NoCapitalZ("key");
    IndentedString(d, 1, "key", text, 2);
  }

  lemma BadIndentation(d: Dialect, text: string)
    requires PlainText(d, text)
    ensures Parse(d, ["BULBA!", " key ~> \"" + text + "\""]) == Err(IndentationError)
  {
    var lines := ["BULBA!", " key ~> \"" + text + "\""];
    BadIndentLine(d, text, lines[1]);
    HeaderFirst(d);
    SecondLineFails(d, lines, IndentationError);
  }

  /** The reserved key is a well-formed key. */
  lemma ReservedKeyIsKey(d: Dialect)
    ensures IsKey(d, ReservedKey) && NoComment(ReservedKey) && PlainText(d, "Fire")
  {
    forall i | 0 <= i < |ReservedKey|
      ensures IsWordChar(ReservedKey[i])
    {
      assert IsAsciiLetter(ReservedKey[i]);
    }
    NoCapitalZ(ReservedKey);
    NoCapitalZ("Fire");
  }

  lemma CharizardLine(d: Dialect, line: string)
    requires line == "Charizard ~> \"Fire\""
    ensures LineTokens(d, line, 2) ==
      Ok([Token(Indent, "", 2, 0)] + ([Token(Identifier, ReservedKey, 2, 0), Marker(VineWhip, 2)] + [Token(StringLit, "Fire", 2, 0)]))
  {
    CharizardParts(line);
    ReservedKeyIsKey(d);
    KeyLine(d, ReservedKey, "Fire", line);
  }

  lemma CharizardParts(line: string)
    requires line == "Charizard ~> \"Fire\""
    ensures line == ReservedKey + " ~> \"" + "Fire" + "\""
  {
  }

  lemma CharizardKey(d: Dialect)
    ensures Parse(d, ["BULBA!", "Charizard ~> \"Fire\""]) == Err(ReservedKeyError)
  {
    var lines := ["BULBA!", "Charizard ~> \"Fire\""];
    CharizardLine(d, lines[1]);
    HeaderFirst(d);
    ReservedDocument(d, lines,
      [Token(Indent, "", 2, 0)] + ([Token(Identifier, ReservedKey, 2, 0), Marker(VineWhip, 2)] + [Token(StringLit, "Fire", 2, 0)]));
  }


  lemma OuterText(outer: string)
    ensures "(o) " + outer + " (o)" == IndentedLine(0, SectionLine(1, outer))
  {
    assert seq(0, _ => ' ') == "";
  }

  lemma OuterLine(d: Dialect, outer: string, line: string)
    requires NoComment(outer) && (d != Cpp ==> '\t' !in outer) && line == "(o) " + outer + " (o)"
    ensures LineTokens(d, line, 2) == Ok([Token(Indent, "", 2, 0)] + [Token(SectionOpen, "", 2, 1),
      Token(Identifier, outer, 2, if d == Rust then 1 else 0), Token(SectionClose, "", 2, 1)])
  {
    OuterText(outer);
    IndentedSection(d, 0, 1, outer, 2);
  }

  lemma InnerText(inner: string)
    ensures "        (@) " + inner + " (@)" == IndentedLine(8, SectionLine(3, inner))
  {
    assert seq(8, _ => ' ') == "        ";
  }

  lemma InnerLine(d: Dialect, inner: string, line: string)
    requires NoComment(inner) && (d != Cpp ==> '\t' !in inner) && line == "        (@) " + inner + " (@)"
    ensures LineTokens(d, line, 3) == Ok([Token(Indent, "", 3, 2)] + [Token(SectionOpen, "", 3, 3),
      Token(Identifier, inner, 3, if d == Rust then 3 else 0), Token(SectionClose, "", 3, 3)])
  {
    InnerText(inner);
    IndentedSection(d, 8, 3, inner, 3);
  }

  lemma NestedKeyLine(d: Dialect, text: string, line: string)
    requires PlainText(d, text) && line == "            key ~> \"" + text + "\""
    ensures LineTokens(d, line, 4) == Ok([Token(Indent, "", 4, 3)] +
      ([Token(Identifier, "key", 4, 0), Marker(VineWhip, 4)] + [Token(StringLit, text, 4, 0)]))
  {
    assert line == IndentedLine(12, AssignmentLine("key", 1, "\"" + text + "\""));
    assert IsKey(d, "key");
    NoCapitalZ("key");
    IndentedString(d, 12, "key", text, 4);
  }

  /** The header line is the header in every dialect. */
  lemma HeaderFirst(d: Dialect)
    ensures FirstLine(d, HeaderLine) == HeaderLine
  {
    if d == Cpp {
      assert HeaderLine[|HeaderLine| - 1] != '\r';
    }
  }

  lemma DeepNesting(d: Dialect, outer: string, inner: string, text: string)
    requires NoComment(outer) && NoComment(inner) && outer != ReservedKey
    requires d != Cpp ==> '\t' !in outer && '\t' !in inner
    requires PlainText(d, text)
    ensures Parse(d, ["BULBA!", "(o) " + outer + " (o)", "        (@) " + inner + " (@)",
                      "            key ~> \"" + text + "\""]) == Err(BadgesError)
  {
    var lines := ["BULBA!", "(o) " + outer + " (o)", "        (@) " + inner + " (@)",
                  "            key ~> \"" + text + "\""];
    OuterLine(d, outer, lines[1]);
    InnerLine(d, inner, lines[2]);
    NestedKeyLine(d, text, lines[3]);
    HeaderFirst(d);
    BadgesDocument(d, lines,
      [Token(Indent, "", 2, 0)] + [Token(SectionOpen, "", 2, 1),
        Token(Identifier, outer, 2, if d == Rust then 1 else 0), Token(SectionClose, "", 2, 1)],
      [Token(Indent, "", 3, 2)] + [Token(SectionOpen, "", 3, 3),
        Token(Identifier, inner, 3, if d == Rust then 3 else 0), Token(SectionClose, "", 3, 3)],
      [Token(Indent, "", 4, 3)] + ([Token(Identifier, "key", 4, 0), Marker(VineWhip, 4)] + [Token(StringLit, text, 4, 0)]));
  }

  lemma UnknownTypeBody(d: Dialect, line: string)
    requires line == "key ~> UnknownType"
    ensures LineBodyTokens(d, line, 2) == Err(TypeError)
  {
    var value := "UnknownType";
    assert line == AssignmentLine("key", 1, value);
    assert IsKey(d, "key") && Word(value);
    WordAssignment(d, "key", value, 2);
  }

  lemma UnknownTypePlain(d: Dialect, line: string)
    requires line == "key ~> UnknownType"
    ensures PlainBody(d, line)
  {
    assert line[0] == 'k' && line[|line| - 1] == 'e' && 'Z' !in line && '\t' !in line;
    NoCapitalZ(line);
  }

  lemma InvalidType(d: Dialect)
    ensures Parse(d, ["BULBA!", "key ~> UnknownType"]) == Err(TypeError)
  {
    var lines := ["BULBA!", "key ~> UnknownType"];
    UnknownTypeBody(d, lines[1]);
    UnknownTypePlain(d, lines[1]);
    UnindentedFails(d, lines[1], TypeError, 2);
    HeaderFirst(d);
    SecondLineFails(d, lines, TypeError);
  }

  lemma KeyLine(d: Dialect, key: string, text: string, line: string)
    requires IsKey(d, key) && NoComment(key) && PlainText(d, text) && line == key + " ~> \"" + text + "\""
    ensures LineTokens(d, line, 2) ==
      Ok([Token(Indent, "", 2, 0)] + ([Token(Identifier, key, 2, 0), Marker(VineWhip, 2)] + [Token(StringLit, text, 2, 0)]))
  {
    assert line == IndentedLine(0, AssignmentLine(key, 1, "\"" + text + "\""));
    IndentedString(d, 0, key, text, 2);
  }

  /** A document of one string assignment is the map of that one key. */
  lemma OneAssignment(d: Dialect, key: string, text: string)
    requires IsKey(d, key) && NoComment(key) && key != ReservedKey && PlainText(d, text)
    ensures Parse(d, ["BULBA!", key + " ~> \"" + text + "\""]) == Ok(map[key := Str(text)])
  {
    var lines := ["BULBA!", key + " ~> \"" + text + "\""];
    KeyLine(d, key, text, lines[1]);
    HeaderFirst(d);
    AssignmentDocument(d, lines,
      [Token(Indent, "", 2, 0)] + ([Token(Identifier, key, 2, 0), Marker(VineWhip, 2)] + [Token(StringLit, text, 2, 0)]));
  }
}
