/** Facts about particular kinds of value texts and body lines, stated over
    their parts: quoted strings, bare words, array literals, string
    assignments and section headers at any indentation. */
module LineProps {
  import opened Errors
  import opened Text
  import opened Numbers
  import opened Tokens
  import opened Lexical
  import opened LexicalProps
  import Tokenizer

  // ---------------------------------------------------------------------
  // Values

  /** No implementation reads a text that opens with a quote as a number. */
  lemma QuoteIsNoNumber(d: Dialect, s: string)
    requires s != [] && s[0] == '"'
    ensures !IsNumberText(d, s)
  {
    assert LeadingCount(s, CSpace) == 0;
    assert RunFrom(s, Digit, 0) == 0;
    assert SignLen(s, 0) == 0;
    if d == Go {
      NoScanStart(s);
    }
  }

  /** A word of letters that starts with none of the letters a value may
      start with is no number. */
  lemma WordIsNoNumber(d: Dialect, s: string)
    requires s != [] && 'A' <= s[0] <= 'Z' && s[0] != 'E'
    ensures !IsNumberText(d, s)
  {
    assert LeadingCount(s, CSpace) == 0;
    assert RunFrom(s, Digit, 0) == 0;
    assert SignLen(s, 0) == 0;
    if d == Go {
      NoScanStart(s);
    }
  }

  lemma UnclosedQuoteTrimmed(d: Dialect, s: string, n: nat, bound: nat)
    requires 2 <= |s| <= bound && s[0] == '"' && s[|s| - 1] != '"'
    ensures TrimmedValueTokens(d, s, n, bound) == Err(TypeError)
  {
    QuoteIsNoNumber(d, s);
    assert !EndsWith(s, "\"") by { assert s[|s| - 1 + 0] != "\""[0]; }
    assert !StartsWith(s, "<|") by { assert s[0] != "<|"[0]; }
    assert s[0] != "SuperEffective"[0] && s[0] != "NotVeryEffective"[0] && s[0] != "MissingNo"[0];
  }

  lemma UnclosedQuote(d: Dialect, s: string, n: nat)
    requires 2 <= |s| && s[0] == '"' && s[|s| - 1] != '"'
    requires !In(TrimSpace(d), s[|s| - 1])
    ensures ValueTokens(d, s, n) == Err(TypeError)
  {
    TrimTextKeeps(d, s);
    UnclosedQuoteTrimmed(d, s, n, |s|);
  }

  /** A text that a quoted value can hold as the source reads it: no
      comment marker (the line would be cut there), no line feed (no line
      holds one), no carriage return in C++ (its regex `.` refuses it) and
      no tab in Go and Rust (their tab rule). */
  predicate PlainText(d: Dialect, text: string)
  {
    NoComment(text) && '\n' !in text && (d == Cpp ==> '\r' !in text) && (d != Cpp ==> '\t' !in text)
  }

  lemma QuotedValue(d: Dialect, text: string, n: nat)
    requires PlainText(d, text)
    ensures var value := "\"" + text + "\"";
      AllIn(value, RegexDot(d)) && !In(RegexSpace(d), value[0]) &&
      ValueTokens(d, value, n) == Ok([Token(StringLit, text, n, 0)])
  {
    QuotedDots(d, text);
    StringRoundTrip(d, text, n);
  }

  /** A quoted plain text is all characters the value pattern matches. */
  lemma QuotedDots(d: Dialect, text: string)
    requires PlainText(d, text)
    ensures AllIn("\"" + text + "\"", RegexDot(d)) && !In(RegexSpace(d), ("\"" + text + "\"")[0])
  {
    var value := "\"" + text + "\"";
    assert value[0] == '"';
    forall i | 0 <= i < |value|
      ensures In(RegexDot(d), value[i])
    {
      if 0 < i < |value| - 1 {
        assert value[i] == text[i - 1];
      }
    }
  }

  predicate IsLetter(c: char)
  {
    'A' <= c <= 'Z' || 'a' <= c <= 'z'
  }

  /** A capitalised word of letters that no implementation takes for a
      keyword or a number: it opens with no keyword's letter (`S`, `N`,
      `M`), with no `I` of `Inf` or `Infinity` (nor `N` of `NaN`), and
      with no exponent letter `E`. */
  predicate Word(s: string)
  {
    s != [] && (forall i :: 0 <= i < |s| ==> IsLetter(s[i])) &&
    'A' <= s[0] <= 'Z' && s[0] != 'E' && s[0] != 'I' && s[0] != 'S' && s[0] != 'N' && s[0] != 'M'
  }

  lemma UnknownWordTrimmed(d: Dialect, s: string, n: nat, bound: nat)
    requires Word(s) && |s| <= bound
    ensures TrimmedValueTokens(d, s, n, bound) == Err(TypeError)
  {
    WordIsNoNumber(d, s);
    assert s[0] != "SuperEffective"[0] && s[0] != "NotVeryEffective"[0] && s[0] != "MissingNo"[0];
    assert !StartsWith(s, "\"") by { assert s[0] != "\""[0]; }
    assert !StartsWith(s, "<|") by { assert s[0] != "<|"[0]; }
  }

  /** A bare word that is no keyword is no value. */
  lemma UnknownWord(d: Dialect, s: string, n: nat)
    requires Word(s)
    ensures ValueTokens(d, s, n) == Err(TypeError)
  {
    assert IsLetter(s[|s| - 1]);
    TrimTextKeeps(d, s);
    UnknownWordTrimmed(d, s, n, |s|);
  }

  lemma WordChars(d: Dialect, s: string)
    requires Word(s)
    ensures AllIn(s, RegexDot(d)) && !In(RegexSpace(d), s[0])
  {
    forall i | 0 <= i < |s|
      ensures In(RegexDot(d), s[i])
    {
      assert IsLetter(s[i]);
    }
  }

  lemma ArrayText(d: Dialect, s: string, n: nat)
    requires 4 <= |s| && StartsWith(s, "<|") && EndsWith(s, "|>")
    ensures ValueTokens(d, s, n) == ArrayTokens(d, s, n, |s|)
  {
    assert s[0] == '<' by { assert s[..2][0] == "<|"[0]; }
    assert s[|s| - 1] == '>' by { assert s[|s| - 2 + 1] == "|>"[1]; }
    TrimTextKeeps(d, s);
    assert !StartsWith(s, "\"") by { assert s[..1][0] != "\""[0]; }
    assert s != "SuperEffective" && s != "NotVeryEffective" && s != "MissingNo" by {
      assert s[0] != "SuperEffective"[0] && s[0] != "NotVeryEffective"[0] && s[0] != "MissingNo"[0];
    }
    assert TrimmedValueTokens(d, s, n, |s|) == ArrayTokens(d, s, n, |s|);
  }

  lemma SegmentsFirstFails(d: Dialect, segs: seq<string>, n: nat, bound: nat)
    requires segs != [] && ShorterThan(segs, bound) && ValueTokens(d, segs[0], n).Err?
    ensures SegmentsTokens(d, segs, n, bound) == ValueTokens(d, segs[0], n)
  {
    FirstSegment(d, segs, n, bound);
    Tokenizer.SegmentsTokensFailFirst(d, segs, 1, n, bound);
  }

  /** The first segment alone yields its own tokens. */
  lemma FirstSegment(d: Dialect, segs: seq<string>, n: nat, bound: nat)
    requires segs != [] && ShorterThan(segs, bound)
    ensures ShorterThan(segs[..1], bound)
    ensures ValueTokens(d, segs[0], n).Err? ==> SegmentsTokens(d, segs[..1], n, bound) == ValueTokens(d, segs[0], n)
  {
    var one := segs[..1];
    assert one[..0] == [] && one[0] == segs[0] && |one| == 1;
  }

  /** An array literal whose first element is no value fails as that
      element does. */
  lemma FirstElementDecides(d: Dialect, s: string, n: nat)
    requires 4 <= |s| && StartsWith(s, "<|") && EndsWith(s, "|>")
    requires ArraySegments(d, s) != [] && ValueTokens(d, ArraySegments(d, s)[0], n).Err?
    ensures ValueTokens(d, s, n) == ValueTokens(d, ArraySegments(d, s)[0], n)
  {
    ArrayText(d, s, n);
    SegmentsFirstFails(d, ArraySegments(d, s), n, |s|);
    Tokenizer.ArrayTokensUnfold(d, s, n, |s|);
  }

  // ---------------------------------------------------------------------
  // Lines

  lemma StringAssignmentBody(d: Dialect, key: string, text: string, n: nat)
    requires IsKey(d, key) && PlainText(d, text)
    ensures LineBodyTokens(d, AssignmentLine(key, 1, "\"" + text + "\""), n) ==
      Ok([Token(Identifier, key, n, 0), Marker(VineWhip, n)] + [Token(StringLit, text, n, 0)])
  {
    QuotedValue(d, text, n);
    OneBlank(d);
    AssignmentRoundTrip(d, key, " ", 1, " ", "\"" + text + "\"", n);
  }

  /** A string assignment holds a comment marker only where its key or
      its text does. */
  lemma QuotedAssignmentNoComment(key: string, text: string)
    requires NoComment(key) && NoComment(text)
    ensures NoComment(AssignmentLine(key, 1, "\"" + text + "\""))
  {
    var rest := " ~> \"" + text + "\"";
    assert AssignmentLine(key, 1, "\"" + text + "\"") == key + rest;
    NoCommentAround(" ~> \"", text, "\"");
    NoCommentConcat(key, rest);
  }

  lemma StringAssignmentPlain(d: Dialect, key: string, text: string)
    requires IsKey(d, key) && PlainText(d, text) && NoComment(key)
    ensures PlainBody(d, AssignmentLine(key, 1, "\"" + text + "\""))
  {
    var line := AssignmentLine(key, 1, "\"" + text + "\"");
    assert line == key + " ~> \"" + text + "\"";
    assert line[0] == key[0] && line[|line| - 1] == '"';
    assert d != Cpp ==> '\t' !in line;
    QuotedAssignmentNoComment(key, text);
  }

  lemma StringAssignmentFacts(d: Dialect, key: string, text: string, n: nat)
    requires IsKey(d, key) && PlainText(d, text) && NoComment(key)
    ensures var line := AssignmentLine(key, 1, "\"" + text + "\"");
      PlainBody(d, line) &&
      LineBodyTokens(d, line, n) == Ok([Token(Identifier, key, n, 0), Marker(VineWhip, n)] + [Token(StringLit, text, n, 0)])
  {
    StringAssignmentBody(d, key, text, n);
    StringAssignmentPlain(d, key, text);
  }

  /** An assignment of a bare word that is no keyword fails to lex. */
  lemma WordAssignment(d: Dialect, key: string, value: string, n: nat)
    requires IsKey(d, key) && Word(value)
    ensures LineBodyTokens(d, AssignmentLine(key, 1, value), n) == Err(TypeError)
  {
    UnknownWord(d, value, n);
    WordChars(d, value);
    OneBlank(d);
    AssignmentRoundTrip(d, key, " ", 1, " ", value, n);
  }

  /** A line indented by `w` spaces whose text lexes to `b`. */
  lemma IndentedOk(d: Dialect, w: nat, body: string, b: seq<Token>, n: nat)
    requires PlainBody(d, body) && LineBodyTokens(d, body, n) == Ok(b)
    ensures w % 4 != 0 ==> LineTokens(d, IndentedLine(w, body), n) == Err(IndentationError)
    ensures w % 4 == 0 ==> LineTokens(d, IndentedLine(w, body), n) == Ok([Token(Indent, "", n, w / 4)] + b)
  {
    IndentRoundTrip(d, w, body, n);
  }

  /** An unindented line whose text fails to lex. */
  lemma UnindentedFails(d: Dialect, body: string, e: Error, n: nat)
    requires PlainBody(d, body) && LineBodyTokens(d, body, n) == Err(e)
    ensures LineTokens(d, body, n) == Err(e)
  {
    assert IndentedLine(0, body) == body;
    IndentRoundTrip(d, 0, body, n);
  }

  /** An assignment of a string, indented by `w` spaces: refused unless
      `w` is a multiple of four, otherwise an indent token of level `w / 4`
      and the assignment's tokens. */
  lemma IndentedString(d: Dialect, w: nat, key: string, text: string, n: nat)
    requires IsKey(d, key) && PlainText(d, text) && NoComment(key)
    ensures w % 4 != 0 ==>
      LineTokens(d, IndentedLine(w, AssignmentLine(key, 1, "\"" + text + "\"")), n) == Err(IndentationError)
    ensures w % 4 == 0 ==>
      LineTokens(d, IndentedLine(w, AssignmentLine(key, 1, "\"" + text + "\"")), n) ==
        Ok([Token(Indent, "", n, w / 4)] + ([Token(Identifier, key, n, 0), Marker(VineWhip, n)] + [Token(StringLit, text, n, 0)]))
  {
    var b := [Token(Identifier, key, n, 0), Marker(VineWhip, n)] + [Token(StringLit, text, n, 0)];
    StringAssignmentFacts(d, key, text, n);
    IndentedOk(d, w, AssignmentLine(key, 1, "\"" + text + "\""), b, n);
  }

  lemma SectionPlain(d: Dialect, stage: nat, name: string)
    requires 1 <= stage <= 3
    requires NoComment(name) && (d != Cpp ==> '\t' !in name)
    ensures PlainBody(d, SectionLine(stage, name))
  {
    var body := SectionLine(stage, name);
    var marker := StageMarker(stage);
    assert body == (marker + " ") + name + (" " + marker);
    assert body[0] == '(' && body[|body| - 1] == ')';
    assert d != Cpp ==> '\t' !in body;
    NoCommentAround(marker + " ", name, " " + marker);
  }

  lemma SectionFacts(d: Dialect, stage: nat, name: string, n: nat)
    requires 1 <= stage <= 3
    requires NoComment(name) && (d != Cpp ==> '\t' !in name)
    ensures PlainBody(d, SectionLine(stage, name))
    ensures LineBodyTokens(d, SectionLine(stage, name), n) ==
      Ok([Token(SectionOpen, "", n, stage),
          Token(Identifier, name, n, if d == Rust then stage else 0),
          Token(SectionClose, "", n, stage)])
  {
    SectionRoundTrip(d, stage, name, n);
    SectionPlain(d, stage, name);
  }

  /** A section header indented by `w` spaces, `w` a multiple of four. */
  lemma IndentedSection(d: Dialect, w: nat, stage: nat, name: string, n: nat)
    requires 1 <= stage <= 3 && w % 4 == 0
    requires NoComment(name) && (d != Cpp ==> '\t' !in name)
    ensures LineTokens(d, IndentedLine(w, SectionLine(stage, name)), n) ==
      Ok([Token(Indent, "", n, w / 4)] + [Token(SectionOpen, "", n, stage),
          Token(Identifier, name, n, if d == Rust then stage else 0), Token(SectionClose, "", n, stage)])
  {
    SectionFacts(d, stage, name, n);
    IndentedOk(d, w, SectionLine(stage, name),
      [Token(SectionOpen, "", n, stage), Token(Identifier, name, n, if d == Rust then stage else 0),
       Token(SectionClose, "", n, stage)], n);
  }
}
