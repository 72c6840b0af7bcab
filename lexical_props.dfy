/** Properties of the lexer specification: what each rule of the format
    makes of a line, which failures a line can raise, the shape of the whole
    token sequence, and round trips from the textual forms to their tokens. */
module LexicalProps {
  import opened Errors
  import opened Text
  import opened Numbers
  import opened Tokens
  import opened Lexical

  // ---------------------------------------------------------------------
  // Helpers on the string functions

  /** Trimming leaves a text alone whose end characters are not trimmed. */
  lemma TrimTextKeeps(d: Dialect, s: string)
    requires s != []
    requires !In(TrimSpace(d), s[0]) && !In(TrimSpace(d), s[|s| - 1])
    ensures TrimText(d, s) == s
  {
    var k := TrimSpace(d);
    assert LeadingCount(s, k) == 0;
    assert TrimLeftBy(s, k) == s;
    assert TrailingCount(s, k) == 0;
  }

  /** Appending text after a first occurrence does not move it. */
  lemma FindExtend(x: string, y: string, pat: string)
    requires Find(x, pat).Some?
    ensures Find(x + y, pat) == Find(x, pat)
  {
    var p := Find(x, pat).value;
    assert (x + y)[p..p + |pat|] == x[p..p + |pat|];
    assert OccursAt(x + y, pat, p);
    forall j | 0 <= j < p
      ensures !OccursAt(x + y, pat, j)
    {
      assert !OccursAt(x, pat, j);
      assert (x + y)[j..j + |pat|] == x[j..j + |pat|];
    }
  }

  // ---------------------------------------------------------------------
  // The whole document

  /** The header check: a non-empty document fails with the header failure
      exactly when its first line is not the header line; an empty document
      is a lone end-of-file token. */
  lemma HeaderRule(d: Dialect, lines: seq<string>)
    ensures lines == [] ==> Lex(d, lines) == Ok([Marker(Eof, 0)])
    ensures lines != [] ==> (Lex(d, lines) == Err(HeaderError) <==> FirstLine(d, lines[0]) != HeaderLine)
  {
  }

  /** A lexed document begins with the one header token (unless it is
      empty) and ends with the one end-of-file token, which carries the
      number of lines. */
  lemma LexShape(d: Dialect, lines: seq<string>)
    requires Lex(d, lines).Ok?
    ensures var ts := Lex(d, lines).value;
      |ts| >= 1 && ts[|ts| - 1] == Marker(Eof, |lines|) && CountKind(ts, Eof) == 1 &&
      (lines == [] ==> |ts| == 1) &&
      (lines != [] ==> ts[0] == Token(Header, HeaderLine, 1, 0) && CountKind(ts, Header) == 1)
  {
    if lines != [] {
      var body := BodyTokens(d, lines, |lines|).value;
      var h := [Token(Header, HeaderLine, 1, 0)];
      var e := [Marker(Eof, |lines|)];
      assert Lex(d, lines).value == h + body + e;
      CountKindAppend(h + body, e, Eof);
      CountKindAppend(h, body, Eof);
      CountKindAppend(h + body, e, Header);
      CountKindAppend(h, body, Header);
      CountKindNone(body, Eof);
      CountKindNone(body, Header);
      assert CountKind(e, Eof) == 1 by { assert e[1..] == []; }
      assert CountKind(h, Header) == 1 by { assert h[1..] == []; }
      assert CountKind(h, Eof) == 0 by { assert h[1..] == []; }
      assert CountKind(e, Header) == 0 by { assert e[1..] == []; }
    }
  }

  // ---------------------------------------------------------------------
  // Line rules

  /** Once a line holds a comment marker, what follows does not change the
      code part. */
  lemma StripCommentExtend(x: string, y: string)
    requires Find(x, CommentMarker).Some?
    ensures StripComment(x + y) == StripComment(x)
  {
    FindExtend(x, y, CommentMarker);
    var p := Find(x, CommentMarker).value;
    assert (x + y)[..p] == x[..p];
  }

  /** Sleep Powder: everything after a comment marker is ignored. */
  lemma CommentRule(d: Dialect, code: string, junk: string, n: nat)
    ensures LineTokens(d, code + CommentMarker + junk, n) == LineTokens(d, code + CommentMarker, n)
  {
    var x := code + CommentMarker;
    assert OccursAt(x, CommentMarker, |code|) by {
      assert x[|code|..|code| + 3] == CommentMarker;
    }
    var raw := x + junk;
    if d == Cpp {
      assert DropTrailingCR(x) == x by { assert x[|x| - 1] == 'z'; }
      var y := DropTrailingCR(raw);
      if junk != [] && junk[|junk| - 1] == '\r' {
        assert y == x + junk[..|junk| - 1];
        StripCommentExtend(x, junk[..|junk| - 1]);
      } else if junk != [] {
        StripCommentExtend(x, junk);
      } else {
        assert raw == x;
      }
    } else {
      StripCommentExtend(x, junk);
    }
    assert Code(d, raw) == Code(d, x);
  }

  /** A line that is white space once its comment is gone produces no
      tokens, and only such a line does. */
  lemma BlankLine(d: Dialect, raw: string, n: nat)
    ensures var code := Code(d, raw);
      LineTokens(d, raw, n) == Ok([]) <==>
      (d != Cpp ==> '\t' !in code) && forall i :: 0 <= i < |code| ==> In(LineEndSpace(d), code[i])
  {
    TrimRightBySpec(Code(d, raw), LineEndSpace(d));
  }

  /** Poison Type. Go and Rust refuse a tab anywhere before the comment;
      C++ only a tab among the leading spaces of a non-blank line, so a tab
      inside a value passes there. */
  lemma TabRule(d: Dialect, raw: string, n: nat)
    ensures d != Cpp ==> (LineTokens(d, raw, n) == Err(TabError) <==> '\t' in Code(d, raw))
    ensures d == Cpp ==>
      var l := TrimRightBy(Code(d, raw), CSpace);
      (LineTokens(d, raw, n) == Err(TabError) <==> l != [] && LeadingTab(l))
  {
  }

  /** The tokens after a line's indent hold no further indent. */
  lemma LineBodyNoIndent(ts: seq<Token>)
    requires IsLineBody(ts)
    ensures CountKind(ts, Indent) == 0
  {
    forall i | 0 <= i < |ts|
      ensures ts[i].kind != Indent
    {
      if ts[0].kind == Identifier && i >= 2 {
        assert ts[i] == ts[2..][i - 2];
      }
    }
    CountKindNone(ts, Indent);
  }

  /** Solar Beam: a non-blank line's indentation must be a multiple of four;
      it then yields exactly one indent token, first, whose level is the
      indentation divided by four. */
  lemma IndentRule(d: Dialect, raw: string, n: nat)
    ensures var code := Code(d, raw);
      var l := TrimRightBy(code, LineEndSpace(d));
      var r := LineTokens(d, raw, n);
      (r == Err(IndentationError) <==>
         l != [] && (d != Cpp ==> '\t' !in code) && !(d == Cpp && LeadingTab(l)) &&
         IndentWidth(d, l) % 4 != 0) &&
      (r.Ok? && r.value != [] ==>
         IndentWidth(d, l) % 4 == 0 &&
         r.value[0] == Token(Indent, "", n, IndentWidth(d, l) / 4) &&
         CountKind(r.value, Indent) == 1)
  {
    var code := Code(d, raw);
    var l := TrimRightBy(code, LineEndSpace(d));
    if !(d != Cpp && '\t' in code) && l != [] {
      var r := IndentedTokens(d, l, n);
      if r.Ok? {
        OneIndent(r.value);
      }
    }
  }

  /** A line's tokens, an indent then a line body, hold one indent. */
  lemma OneIndent(ts: seq<Token>)
    requires ts != [] && ts[0].kind == Indent && IsLineBody(ts[1..])
    ensures CountKind(ts, Indent) == 1
  {
    LineBodyNoIndent(ts[1..]);
    assert ts == [ts[0]] + ts[1..];
    CountKindAppend([ts[0]], ts[1..], Indent);
    assert CountKind([ts[0]], Indent) == 1 by { assert [ts[0]][1..] == []; }
  }

  // ---------------------------------------------------------------------
  // Round trips from the textual forms

  /** The text of a section header of the given stage. */
  function SectionLine(stage: nat, name: string): (line: string)
    requires 1 <= stage <= 3
    ensures |line| == |name| + 8
  {
    StageMarker(stage) + " " + name + " " + StageMarker(stage)
  }

  /** Evolution: a section header yields the opening marker with its stage,
      the name, and the closing marker. */
  lemma SectionRoundTrip(d: Dialect, stage: nat, name: string, n: nat)
    requires 1 <= stage <= 3
    ensures LineBodyTokens(d, SectionLine(stage, name), n) ==
      Ok([Token(SectionOpen, "", n, stage),
          Token(Identifier, name, n, if d == Rust then stage else 0),
          Token(SectionClose, "", n, stage)])
  {
    var line := SectionLine(stage, name);
    assert line[..4] == StageMarker(stage) + " ";
    assert line[|line| - 4..] == " " + StageMarker(stage);
    assert line[4..|line| - 4] == name;
    assert IsSectionLine(line, stage);
    forall s | 1 <= s < stage
      ensures !IsSectionLine(line, s)
    {
      assert line[1] != (StageMarker(s) + " ")[1];
    }
    assert SectionStage(line) == stage;
  }

  /** The text of an assignment `key ~~~> value`: the key, a run `ws1` of
      white space, `tildes` tildes and '>', a run `ws2`, the value. */
  function ArrowLine(key: string, ws1: string, tildes: nat, ws2: string, value: string): string
  {
    key + ws1 + seq(tildes, _ => '~') + ">" + ws2 + value
  }

  /** The usual layout, one blank on each side of the arrow. */
  function AssignmentLine(key: string, tildes: nat, value: string): string
  {
    ArrowLine(key, " ", tildes, " ", value)
  }

  /** A key the key/value regex accepts in full. */
  predicate IsKey(d: Dialect, key: string)
  {
    key != [] && (forall i :: 0 <= i < |key| ==> IsWordChar(key[i])) &&
    (d == Rust ==> !IsDigit(key[0]))
  }

  /** The arrow read by positions: `t` tildes from `p`, '>', then `w2`
      characters of white space before the value. */
  lemma ArrowEndAt(d: Dialect, line: string, p: nat, t: nat, w2: nat)
    requires 1 <= t && p + t + 1 + w2 <= |line|
    requires RunFrom(line, Tilde, p) == t
    requires line[p + t] == '>'
    requires RunFrom(line, RegexSpace(d), p + t + 1) == w2
    ensures ArrowEnd(d, line, p) == Some(p + t + 1 + w2)
  {
  }

  /** The key/value regex on a line read by positions: a key of length `k`,
      `w1` characters of white space, then an arrow whose value starts at
      `p3`. */
  lemma ScanKeyValueAt(d: Dialect, line: string, k: nat, w1: nat, p3: nat)
    requires 0 < k && k + w1 <= |line|
    requires KeyLength(d, line) == k
    requires RunFrom(line, RegexSpace(d), k) == w1
    requires ArrowEnd(d, line, k + w1) == Some(p3)
    requires AllIn(line[p3..], RegexDot(d))
    ensures ScanKeyValue(d, line) == Some(KeyValue(line[..k], line[p3..]))
  {
  }

  /** The same, from the characters of the line. */
  lemma ScanKeyValueChars(d: Dialect, line: string, k: nat, w1: nat, t: nat, w2: nat)
    requires 0 < k && 1 <= t && k + w1 + t + 1 + w2 <= |line|
    requires forall i :: 0 <= i < k ==> IsWordChar(line[i])
    requires d == Rust ==> !IsDigit(line[0])
    requires forall i :: k <= i < k + w1 ==> In(RegexSpace(d), line[i])
    requires forall i :: k + w1 <= i < k + w1 + t ==> line[i] == '~'
    requires line[k + w1 + t] == '>'
    requires forall i :: k + w1 + t + 1 <= i < k + w1 + t + 1 + w2 ==> In(RegexSpace(d), line[i])
    requires k + w1 + t + 1 + w2 == |line| || !In(RegexSpace(d), line[k + w1 + t + 1 + w2])
    requires AllIn(line[k + w1 + t + 1 + w2..], RegexDot(d))
    ensures ScanKeyValue(d, line) == Some(KeyValue(line[..k], line[k + w1 + t + 1 + w2..]))
  {
    KeyChars(d, line, k, w1);
    ArrowChars(d, line, k + w1, t, w2);
    ScanKeyValueAt(d, line, k, w1, k + w1 + t + 1 + w2);
  }

  /** A key of `k` word characters followed by `w1` characters of white
      space and a tilde. */
  lemma KeyChars(d: Dialect, line: string, k: nat, w1: nat)
    requires 0 < k && k + w1 < |line|
    requires forall i :: 0 <= i < k ==> IsWordChar(line[i])
    requires d == Rust ==> !IsDigit(line[0])
    requires forall i :: k <= i < k + w1 ==> In(RegexSpace(d), line[i])
    requires line[k + w1] == '~'
    ensures KeyLength(d, line) == k
    ensures RunFrom(line, RegexSpace(d), k) == w1
  {
    assert !IsWordChar(line[k]) by {
      if w1 > 0 {
        SpaceIsNoWordChar(d, line[k]);
      }
    }
    LeadingCountExact(line, WordChar, k);
    assert !In(RegexSpace(d), line[k + w1]);
    RunFromExact(line, RegexSpace(d), k, w1);
  }

  /** An arrow of `t` tildes and '>' at index `p`, followed by `w2`
      characters of white space and a character that is none. */
  lemma ArrowChars(d: Dialect, line: string, p: nat, t: nat, w2: nat)
    requires 1 <= t && p + t + 1 + w2 <= |line|
    requires forall i :: p <= i < p + t ==> line[i] == '~'
    requires line[p + t] == '>'
    requires forall i :: p + t + 1 <= i < p + t + 1 + w2 ==> In(RegexSpace(d), line[i])
    requires p + t + 1 + w2 == |line| || !In(RegexSpace(d), line[p + t + 1 + w2])
    ensures ArrowEnd(d, line, p) == Some(p + t + 1 + w2)
  {
    RunFromExact(line, Tilde, p, t);
    RunFromExact(line, RegexSpace(d), p + t + 1, w2);
    ArrowEndAt(d, line, p, t, w2);
  }

  /** A single blank is white space of the regex. */
  lemma OneBlank(d: Dialect)
    ensures AllIn(" ", RegexSpace(d))
  {
    assert " "[0] == ' ';
  }

  /** White space of the regex is no character of a key. */
  lemma SpaceIsNoWordChar(d: Dialect, c: char)
    requires In(RegexSpace(d), c)
    ensures !IsWordChar(c) && c != '~'
  {
  }

  /** Vine Whip read by the regex: the key and the value of an assignment,
      whatever white space stands around the arrow. */
  lemma ScanAssignment(d: Dialect, key: string, ws1: string, tildes: nat, ws2: string, value: string)
    requires IsKey(d, key) && tildes >= 1
    requires AllIn(ws1, RegexSpace(d)) && AllIn(ws2, RegexSpace(d))
    requires AllIn(value, RegexDot(d))
    requires value == [] || !In(RegexSpace(d), value[0])
    ensures ScanKeyValue(d, ArrowLine(key, ws1, tildes, ws2, value)) == Some(KeyValue(key, value))
  {
    var arrow := seq(tildes, _ => '~');
    var line := ArrowLine(key, ws1, tildes, ws2, value);
    var K, w1, w2 := |key|, |ws1|, |ws2|;
    var p := K + w1 + tildes;
    var p3 := p + 1 + w2;
    assert line == key + ws1 + arrow + ['>'] + ws2 + value;
    assert line[..K] == key;
    assert line[p3..] == value;
    assert forall i :: 0 <= i < K ==> line[i] == key[i];
    assert forall i :: K <= i < K + w1 ==> line[i] == ws1[i - K];
    assert forall i :: K + w1 <= i < p ==> line[i] == arrow[i - K - w1];
    assert line[p] == '>';
    assert forall i :: p + 1 <= i < p3 ==> line[i] == ws2[i - p - 1];
    assert p3 < |line| ==> line[p3] == value[0];
    ScanKeyValueChars(d, line, K, w1, tildes, w2);
  }

  /** A line that does not open with '(' is no section header. */
  lemma NotSectionLine(line: string)
    requires line != [] && line[0] != '('
    ensures SectionStage(line) == 0
  {
    forall st | 1 <= st <= 3
      ensures !IsSectionLine(line, st)
    {
      assert (StageMarker(st) + " ")[0] == '(';
    }
  }

  /** A line that is no section header is read by the key/value regex. */
  lemma KeyValueBody(d: Dialect, line: string, kv: KeyValue, n: nat)
    requires SectionStage(line) == 0 && ScanKeyValue(d, line) == Some(kv)
    ensures LineBodyTokens(d, line, n) ==
      match ValueTokens(d, kv.value, n)
      case Ok(v) => Ok([Token(Identifier, kv.key, n, 0), Marker(VineWhip, n)] + v)
      case Err(e) => Err(e)
  {
  }

  /** Vine Whip: an assignment line yields the key, the arrow and the tokens
      of the value, for any white space around the arrow and any value text
      the regex captures whole. */
  lemma AssignmentRoundTrip(d: Dialect, key: string, ws1: string, tildes: nat, ws2: string, value: string, n: nat)
    requires IsKey(d, key) && tildes >= 1
    requires AllIn(ws1, RegexSpace(d)) && AllIn(ws2, RegexSpace(d))
    requires AllIn(value, RegexDot(d))
    requires value == [] || !In(RegexSpace(d), value[0])
    ensures LineBodyTokens(d, ArrowLine(key, ws1, tildes, ws2, value), n) ==
      match ValueTokens(d, value, n)
      case Ok(v) => Ok([Token(Identifier, key, n, 0), Marker(VineWhip, n)] + v)
      case Err(e) => Err(e)
  {
    var line := ArrowLine(key, ws1, tildes, ws2, value);
    ScanAssignment(d, key, ws1, tildes, ws2, value);
    assert line[0] == key[0];
    NotSectionLine(line);
    KeyValueBody(d, line, KeyValue(key, value), n);
  }

  /** A quoted text is a string token holding the text between the quotes,
      whatever it contains. */
  lemma StringRoundTrip(d: Dialect, t: string, n: nat)
    ensures ValueTokens(d, "\"" + t + "\"", n) == Ok([Token(StringLit, t, n, 0)])
  {
    var s := "\"" + t + "\"";
    TrimTextKeeps(d, s);
    assert s[1..|s| - 1] == t;
    assert StartsWith(s, "\"") && EndsWith(s, "\"") by {
      assert s[..1] == "\"";
      assert s[|s| - 1 + 0] == "\""[0];
    }
    assert ValueTokens(d, s, n) == TrimmedValueTokens(d, s, n, |s|);
    assert TrimmedValueTokens(d, s, n, |s|) == Ok([Token(StringLit, s[1..|s| - 1], n, 0)]);
  }

  /** A run of decimal digits passes the number test of every implementation. */
  lemma DigitsAreNumberText(d: Dialect, ds: string)
    requires ds != [] && AllDigits(ds)
    ensures IsNumberText(d, ds)
  {
    assert !In(CSpace, ds[0]);
    assert LeadingCount(ds, CSpace) == 0;
    RunFromExact(ds, Digit, 0, |ds|);
    SignedDecimalIsFloat(ds, 0);
    if d == Go {
      DecimalIsGoFloat(ds);
      ParsedFloatScans(ds);
    }
  }

  /** A trimmed text that is neither quoted, nor a keyword, nor an array is
      a number token when the implementation's number test accepts it, and
      a type failure otherwise. */
  lemma PlainValue(d: Dialect, s: string, n: nat, bound: nat)
    requires s != [] && |s| <= bound
    requires s[0] != '"' && s[0] != '<'
    requires s != "SuperEffective" && s != "NotVeryEffective" && s != "MissingNo"
    ensures TrimmedValueTokens(d, s, n, bound) ==
      if IsNumberText(d, s) then Ok([Token(NumberLit, s, n, 0)]) else Err(TypeError)
  {
    assert !StartsWith(s, "\"") && !StartsWith(s, "<|");
  }

  /** A run of decimal digits is a number token in every implementation. */
  lemma DigitsAreNumbers(d: Dialect, ds: string, n: nat)
    requires ds != [] && AllDigits(ds)
    ensures ValueTokens(d, ds, n) == Ok([Token(NumberLit, ds, n, 0)])
  {
    TrimTextKeeps(d, ds);
    DigitsAreNumberText(d, ds);
    assert ds != "SuperEffective" && ds != "NotVeryEffective" && ds != "MissingNo" by {
      assert ds[0] != 'S' && ds[0] != 'N' && ds[0] != 'M';
    }
    PlainValue(d, ds, n, |ds|);
  }

  // ---------------------------------------------------------------------
  // Indentation round trip

  /** A body line: `w` spaces, then the text `body`. */
  function IndentedLine(w: nat, body: string): (line: string)
    ensures |line| == w + |body|
  {
    seq(w, _ => ' ') + body
  }

  /** Spaces before a text bring no comment marker into it. */
  lemma IndentNoComment(w: nat, body: string)
    requires Find(body, CommentMarker).None?
    ensures Find(IndentedLine(w, body), CommentMarker).None?
  {
    var raw := IndentedLine(w, body);
    forall j | 0 <= j <= |raw|
      ensures !OccursAt(raw, CommentMarker, j)
    {
      if j + 3 <= |raw| {
        if j < w {
          assert raw[j..j + 3][0] == ' ';
        } else {
          assert raw[j..j + 3] == body[j - w..j - w + 3];
          assert !OccursAt(body, CommentMarker, j - w);
        }
      }
    }
  }

  /** The white space a line's end is trimmed of is Unicode white space. */
  lemma LineEndIsSpace(d: Dialect, c: char)
    requires In(LineEndSpace(d), c) || In(TrimSpace(d), c)
    ensures In(UnicodeSpace, c)
  {
  }

  /** The requirements on a body placed after an indentation. */
  predicate PlainBody(d: Dialect, body: string)
  {
    body != [] && !In(UnicodeSpace, body[0]) && !In(UnicodeSpace, body[|body| - 1]) &&
    (d != Cpp ==> '\t' !in body) && Find(body, CommentMarker).None?
  }

  lemma IndentedLineAt(w: nat, body: string)
    ensures var raw := IndentedLine(w, body);
      (forall i :: 0 <= i < w ==> raw[i] == ' ') &&
      (forall i :: w <= i < |raw| ==> raw[i] == body[i - w]) &&
      raw[w..] == body
  {
  }

  lemma IndentedCode(d: Dialect, w: nat, body: string)
    requires PlainBody(d, body)
    ensures var raw := IndentedLine(w, body);
      Code(d, raw) == raw && (d != Cpp ==> '\t' !in raw) && TrimRightBy(raw, LineEndSpace(d)) == raw
  {
    var raw := IndentedLine(w, body);
    var m := w;
    IndentedLineAt(w, body);
    IndentNoComment(w, body);
    assert raw[|raw| - 1] == body[|body| - 1];
    assert DropTrailingCR(raw) == raw;
    if d != Cpp {
      assert '\t' !in raw by {
        forall i | 0 <= i < |raw|
          ensures raw[i] != '\t'
        {
          if i >= m {
            assert body[i - m] in body;
          }
        }
      }
    }
    if In(LineEndSpace(d), raw[|raw| - 1]) {
      LineEndIsSpace(d, raw[|raw| - 1]);
    }
    assert TrailingCount(raw, LineEndSpace(d)) == 0;
  }

  lemma IndentedWidth(d: Dialect, w: nat, body: string)
    requires PlainBody(d, body)
    ensures var raw := IndentedLine(w, body);
      IndentWidth(d, raw) == w && !(d == Cpp && LeadingTab(raw))
  {
    var raw := IndentedLine(w, body);
    var m := w;
    IndentedLineAt(w, body);
    LeadingCountExact(raw, Space, m);
    if d == Rust {
      LeadingCountExact(raw, RustIndent, m);
      assert raw[..m] == seq(m, _ => ' ');
    }
  }

  lemma IndentedTrim(d: Dialect, w: nat, body: string)
    requires PlainBody(d, body)
    ensures TrimText(d, IndentedLine(w, body)) == body
  {
    var raw := IndentedLine(w, body);
    var m := w;
    var k := TrimSpace(d);
    IndentedLineAt(w, body);
    if In(k, body[0]) {
      LineEndIsSpace(d, body[0]);
    }
    if In(k, body[|body| - 1]) {
      LineEndIsSpace(d, body[|body| - 1]);
    }
    LeadingCountExact(raw, k, m);
    assert TrimLeftBy(raw, k) == body;
    assert TrailingCount(body, k) == 0;
  }

  lemma IndentedTokensOf(d: Dialect, l: string, w: nat, body: string, n: nat)
    requires IndentWidth(d, l) == w && !(d == Cpp && LeadingTab(l)) && TrimText(d, l) == body
    ensures w % 4 != 0 ==> IndentedTokens(d, l, n) == Err(IndentationError)
    ensures w % 4 == 0 ==>
      IndentedTokens(d, l, n) == (var b :- LineBodyTokens(d, body, n); Ok([Token(Indent, "", n, w / 4)] + b))
  {
  }

  lemma IndentRoundTrip(d: Dialect, w: nat, body: string, n: nat)
    requires PlainBody(d, body)
    ensures w % 4 != 0 ==> LineTokens(d, IndentedLine(w, body), n) == Err(IndentationError)
    ensures w % 4 == 0 ==>
      LineTokens(d, IndentedLine(w, body), n) == (var b :- LineBodyTokens(d, body, n); Ok([Token(Indent, "", n, w / 4)] + b))
  {
    var raw := IndentedLine(w, body);
    IndentedCode(d, w, body);
    IndentedWidth(d, w, body);
    IndentedTrim(d, w, body);
    IndentedTokensOf(d, raw, w, body, n);
  }

  /** The text holds no comment marker `zZz`. */
  predicate NoComment(s: string)
  {
    Find(s, CommentMarker).None?
  }

  /** Two texts without a comment marker, joined at a seam no marker can
      straddle (the first does not end in 'z' or 'Z', or the second does
      not start with one), hold no marker either. */
  lemma NoCommentConcat(a: string, b: string)
    requires NoComment(a) && NoComment(b)
    requires a == [] || b == [] || (a[|a| - 1] != 'z' && a[|a| - 1] != 'Z') || (b[0] != 'z' && b[0] != 'Z')
    ensures NoComment(a + b)
  {
    var s := a + b;
    forall j | 0 <= j <= |s|
      ensures !OccursAt(s, CommentMarker, j)
    {
      if j + 3 <= |s| {
        var w := s[j..j + 3];
        assert w[0] == s[j] && w[1] == s[j + 1] && w[2] == s[j + 2];
        if j + 3 <= |a| {
          assert w == a[j..j + 3];
          assert !OccursAt(a, CommentMarker, j);
        } else if j >= |a| {
          assert w == b[j - |a|..j - |a| + 3];
          assert !OccursAt(b, CommentMarker, j - |a|);
        } else if j + 1 == |a| {
          assert s[j] == a[|a| - 1] && s[j + 1] == b[0];
        } else {
          assert s[j + 1] == a[|a| - 1] && s[j + 2] == b[0];
        }
      }
    }
  }

  /** A text without a comment marker between two fixed texts without a
      capital Z that do not touch it with a 'z'. */
  lemma NoCommentAround(pre: string, t: string, post: string)
    requires NoComment(t) && 'Z' !in pre && 'Z' !in post
    requires pre != [] && pre[|pre| - 1] != 'z' && post != [] && post[0] != 'z'
    ensures NoComment(pre + t + post)
  {
    NoCapitalZ(pre);
    NoCapitalZ(post);
    NoCommentConcat(pre, t);
    NoCommentConcat(pre + t, post);
  }

  /** A text without a capital Z holds no comment marker. */
  lemma NoCapitalZ(s: string)
    requires 'Z' !in s
    ensures Find(s, CommentMarker).None?
  {
    forall j | 0 <= j <= |s|
      ensures !OccursAt(s, CommentMarker, j)
    {
      if j + 3 <= |s| {
        assert s[j..j + 3][1] == s[j + 1];
      }
    }
  }
}
