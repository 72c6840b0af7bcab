/** The valid document of the three test suites (the configuration with a
    database section, a pool inside it, kernel flags inside the pool and a
    whitelist), run through the whole frontend of every implementation: it
    yields the tree the tests expect. */
module ReferenceDocument {
  import opened Errors
  import opened Text
  import opened Numbers
  import opened Tokens
  import opened Lexical
  import opened LexicalProps
  import opened LineProps
  import opened Document
  import opened Structure
  import opened Frontend
  import TestDocuments
  import Tokenizer

  // The lines of the document, each written as its indentation and the
  // parts the lexer tells apart.

  const BasicComment := "zZz" + " Basic Configuration"
  const AppNameLine := "app_name" + " " + "~~~~~~" + ">" + " " + "\"Pokedex_API\""
  const VersionLine := "version" + "  " + "~~~~~~" + ">" + " " + "1.5"
  const ProductionLine := "is_production" + " " + "~" + ">" + " " + "NotVeryEffective"
  const MissingLine := "missing_data" + " " + "~" + ">" + " " + "MissingNo"
  const DatabaseComment := "zZz" + " Database Connection (Level 1)"
  const DatabaseLine := "(o)" + " " + "database" + " " + "(o)"
  const HostLine := "    " + ("host" + " " + "~~~~" + ">" + " " + "\"127.0.0.1\"")
  const PoolComment := "    " + "zZz" + " Connection Pool Settings (Level 2)"
  const PoolLine := "    " + ("(O)" + " " + "pool" + " " + "(O)")
  const MaxConnectionsLine := "        " + ("max_connections" + " " + "~~~~" + ">" + " " + "100")
  const KernelComment := "        " + "zZz" + " Critical Kernel flags (Level 3)"
  const KernelLine := "        " + ("(@)" + " " + "KERNEL_FLAGS" + " " + "(@)")
  const PanicLine := "            " + ("panic_on_fail" + " " + "~~~~" + ">" + " " + "SuperEffective")
  const UsersComment := "zZz" + " Allowed Users List"
  const WhitelistLine := "whitelist" + " " + "~~~~" + ">" + " " + "<| \"Prof_Oak\", \"Mom\" |>"

  /** The document, one string per line. */
  function Lines(): seq<string>
  {
    [HeaderLine,
     BasicComment, AppNameLine, VersionLine, ProductionLine, MissingLine, "",
     DatabaseComment, DatabaseLine, HostLine, "    ",
     PoolComment, PoolLine, MaxConnectionsLine, "        ",
     KernelComment, KernelLine, PanicLine, "",
     UsersComment, WhitelistLine]
  }

  /** The number the pool setting holds: an integer in C++ and Go, a double
      in Rust. */
  function Hundred(d: Dialect): Value
  {
    if d == Rust then Float("100") else Int(100)
  }

  /** The tree the tests expect. */
  function Expected(d: Dialect): map<string, Value>
  {
    map[
      "app_name" := Str("Pokedex_API"),
      "version" := Float("1.5"),
      "is_production" := Bool(false),
      "missing_data" := Null,
      "database" := Object(map[
        "host" := Str("127.0.0.1"),
        "pool" := Object(map[
          "max_connections" := Hundred(d),
          "KERNEL_FLAGS" := Object(map["panic_on_fail" := Bool(true)])])]),
      "whitelist" := Array([Str("Prof_Oak"), Str("Mom")])]
  }

  // ---------------------------------------------------------------------
  // Lines that yield no tokens

  /** `w` blanks. */
  function Blanks(w: nat): string
  {
    seq(w, _ => ' ')
  }

  /** A line of blanks yields nothing. */
  lemma BlankTokens(d: Dialect, w: nat, n: nat)
    ensures LineTokens(d, Blanks(w), n) == Ok([])
  {
    var raw := Blanks(w);
    NoCapitalZ(raw);
    if w > 0 {
      assert DropTrailingCR(raw) == raw;
    }
    assert Code(d, raw) == raw;
    BlankCode(d, raw);
  }

  /** A line whose code part is blanks yields nothing. */
  lemma BlankCode(d: Dialect, raw: string)
    requires forall i :: 0 <= i < |Code(d, raw)| ==> Code(d, raw)[i] == ' '
    ensures forall n :: LineTokens(d, raw, n) == Ok([])
  {
    var code := Code(d, raw);
    assert '\t' !in code;
    assert forall i :: 0 <= i < |code| ==> In(LineEndSpace(d), code[i]);
    TrimRightBySpec(code, LineEndSpace(d));
  }

  /** A comment after `w` blanks yields nothing. */
  lemma CommentTokens(d: Dialect, w: nat, junk: string, n: nat)
    ensures LineTokens(d, Blanks(w) + CommentMarker + junk, n) == Ok([])
  {
    var x := Blanks(w) + CommentMarker;
    CommentRule(d, Blanks(w), junk, n);
    CommentCode(d, w);
    BlankCode(d, x);
  }

  /** The code part of blanks and a comment marker is the blanks. */
  lemma CommentCode(d: Dialect, w: nat)
    ensures Code(d, Blanks(w) + CommentMarker) == Blanks(w)
  {
    var x := Blanks(w) + CommentMarker;
    assert x[|x| - 1] == 'z';
    assert DropTrailingCR(x) == x;
    assert OccursAt(x, CommentMarker, w) by {
      assert x[w..w + 3] == CommentMarker;
    }
    forall j | 0 <= j < w
      ensures !OccursAt(x, CommentMarker, j)
    {
      assert x[j..j + 3][0] == ' ';
    }
    assert Find(x, CommentMarker) == Some(w);
  }

  // ---------------------------------------------------------------------
  // Assignment lines

  /** Printable ASCII text, without a capital Z, that does not start or end
      with a blank: a value that sits in a line as it is. */
  predicate SimpleValue(s: string)
  {
    s != [] && (forall i :: 0 <= i < |s| ==> ' ' <= s[i] <= '~' && s[i] != 'Z') &&
    s[0] != ' ' && s[|s| - 1] != ' '
  }

  lemma SimpleValueChars(d: Dialect, s: string)
    requires SimpleValue(s)
    ensures AllIn(s, RegexDot(d)) && !In(RegexSpace(d), s[0]) && !In(UnicodeSpace, s[|s| - 1])
    ensures 'Z' !in s && '\t' !in s
  {
  }

  lemma BlanksAreSpace(d: Dialect, w: nat)
    ensures AllIn(Blanks(w), RegexSpace(d)) && 'Z' !in Blanks(w) && '\t' !in Blanks(w)
  {
  }

  lemma TildesPlain(t: nat)
    ensures 'Z' !in seq(t, _ => '~') && '\t' !in seq(t, _ => '~')
  {
  }

  /** The text of an assignment is plain: no blank at either end, no tab,
      no comment marker. */
  lemma ArrowLinePlain(d: Dialect, key: string, gap: nat, tildes: nat, value: string)
    requires IsKey(d, key) && 'Z' !in key && SimpleValue(value)
    ensures PlainBody(d, ArrowLine(key, Blanks(gap), tildes, " ", value))
  {
    var body := ArrowLine(key, Blanks(gap), tildes, " ", value);
    SimpleValueChars(d, value);
    BlanksAreSpace(d, gap);
    TildesPlain(tildes);
    assert body == key + Blanks(gap) + seq(tildes, _ => '~') + ">" + " " + value;
    assert body[0] == key[0] && body[|body| - 1] == value[|value| - 1];
    assert 'Z' !in body && '\t' !in body;
    NoCapitalZ(body);
  }

  /** An assignment line: `w` blanks, a key, `gap` blanks, `tildes` tildes,
      '>', a blank and a value that lexes to `v`. */
  lemma AssignmentTokens(d: Dialect, w: nat, key: string, gap: nat, tildes: nat, value: string, v: seq<Token>, n: nat)
    requires w % 4 == 0 && IsKey(d, key) && 'Z' !in key && tildes >= 1
    requires SimpleValue(value) && ValueTokens(d, value, n) == Ok(v)
    ensures LineTokens(d, Blanks(w) + ArrowLine(key, Blanks(gap), tildes, " ", value), n) ==
      Ok([Token(Indent, "", n, w / 4)] + ([Token(Identifier, key, n, 0), Marker(VineWhip, n)] + v))
  {
    var body := ArrowLine(key, Blanks(gap), tildes, " ", value);
    SimpleValueChars(d, value);
    BlanksAreSpace(d, gap);
    OneBlank(d);
    AssignmentRoundTrip(d, key, Blanks(gap), tildes, " ", value, n);
    ArrowLinePlain(d, key, gap, tildes, value);
    IndentedOk(d, w, body, [Token(Identifier, key, n, 0), Marker(VineWhip, n)] + v, n);
    assert IndentedLine(w, body) == Blanks(w) + body;
  }

  // ---------------------------------------------------------------------
  // The values

  /** A word's text, such as a keyword's, trimmed, is the word. */
  lemma KeywordText(d: Dialect, s: string, n: nat)
    requires s != [] && 'A' <= s[0] <= 'Z' && 'a' <= s[|s| - 1] <= 'z'
    ensures ValueTokens(d, s, n) == TrimmedValueTokens(d, s, n, |s|)
    ensures !StartsWith(s, "\"")
  {
    TrimTextKeeps(d, s);
    assert s[0] != "\""[0];
  }

  /** The three keywords. */
  lemma KeywordTokens(d: Dialect, n: nat)
    ensures ValueTokens(d, "SuperEffective", n) == Ok([Token(BoolLit, "true", n, 0)])
    ensures ValueTokens(d, "NotVeryEffective", n) == Ok([Token(BoolLit, "false", n, 0)])
    ensures ValueTokens(d, "MissingNo", n) == Ok([Marker(NullLit, n)])
  {
    KeywordText(d, "SuperEffective", n);
    KeywordText(d, "NotVeryEffective", n);
    KeywordText(d, "MissingNo", n);
  }

  /** A text like the version, a decimal fraction, passes every number
      test. */
  lemma FractionIsNumber(d: Dialect, s: string)
    requires |s| == 3 && IsDigit(s[0]) && s[1] == '.' && IsDigit(s[2])
    ensures IsNumberText(d, s)
  {
    FractionIsDecimal(s);
    if d == Go {
      FractionScans(s);
    }
  }

  lemma FractionIsDecimal(s: string)
    requires |s| == 3 && IsDigit(s[0]) && s[1] == '.' && IsDigit(s[2])
    ensures LeadingCount(s, CSpace) == 0 && IsDecimalFloat(s, 0)
  {
    assert !In(CSpace, s[0]);
    RunFromExact(s, Digit, 0, 1);
    RunFromExact(s, Digit, 2, 1);
  }

  lemma FractionScans(s: string)
    requires |s| == 3 && IsDigit(s[0]) && s[1] == '.' && IsDigit(s[2])
    ensures GoScansFloat(s)
  {
    FractionIsDecimal(s);
    DecimalIsGoFloat(s);
    ParsedFloatScans(s);
  }

  /** The version is a number token everywhere. */
  lemma FractionTokens(d: Dialect, s: string, n: nat)
    requires |s| == 3 && IsDigit(s[0]) && s[1] == '.' && IsDigit(s[2])
    ensures ValueTokens(d, s, n) == Ok([Token(NumberLit, s, n, 0)])
  {
    TrimTextKeeps(d, s);
    FractionIsNumber(d, s);
    assert s != "SuperEffective" && s != "NotVeryEffective" && s != "MissingNo";
    PlainValue(d, s, n, |s|);
  }

  /** A quoted text. */
  function Quote(t: string): string
  {
    "\"" + t + "\""
  }

  /** Trimming removes blanks around a text that does not start or end with
      a character of the class. */
  lemma TrimBlanks(k: CharClass, a: nat, x: string, b: nat)
    requires In(k, ' ') && x != [] && !In(k, x[0]) && !In(k, x[|x| - 1])
    ensures TrimBy(Blanks(a) + x + Blanks(b), k) == x
  {
    TrimLeftBlanks(k, a, x + Blanks(b));
    assert Blanks(a) + x + Blanks(b) == Blanks(a) + (x + Blanks(b));
    TrimRightBlanks(k, x, b);
  }

  /** Trimming on the left removes the leading blanks. */
  lemma TrimLeftBlanks(k: CharClass, a: nat, y: string)
    requires In(k, ' ') && y != [] && !In(k, y[0])
    ensures TrimLeftBy(Blanks(a) + y, k) == y
  {
    var s := Blanks(a) + y;
    assert s[a] == y[0];
    LeadingCountExact(s, k, a);
  }

  /** Trimming on the right removes the trailing blanks. */
  lemma TrimRightBlanks(k: CharClass, x: string, b: nat)
    requires In(k, ' ') && x != [] && !In(k, x[|x| - 1])
    ensures TrimRightBy(x + Blanks(b), k) == x
  {
    var y := x + Blanks(b);
    var r := TrimRightBy(y, k);
    TrimRightBySpec(y, k);
    assert !In(k, y[|x| - 1]);
    assert forall i :: |x| <= i < |y| ==> y[i] == ' ';
    assert |r| == |x|;
    assert r == y[..|x|];
  }

  /** A quoted text is a string token, whatever the bound. */
  lemma QuotedTokens(d: Dialect, t: string, n: nat, bound: nat)
    requires |Quote(t)| <= bound
    ensures TrimmedValueTokens(d, Quote(t), n, bound) == Ok([Token(StringLit, t, n, 0)])
  {
    var s := Quote(t);
    assert s[1..|s| - 1] == t;
    assert StartsWith(s, "\"") && EndsWith(s, "\"") by {
      assert s[..1] == "\"";
      assert s[|s| - 1 + 0] == "\""[0];
    }
  }

  /** An array element: a quoted text with blanks around it. */
  lemma ElementTokens(d: Dialect, a: nat, t: string, b: nat, n: nat)
    ensures ValueTokens(d, Blanks(a) + Quote(t) + Blanks(b), n) == Ok([Token(StringLit, t, n, 0)])
  {
    var q := Quote(t);
    assert q[0] == '"' && q[|q| - 1] == '"';
    TrimBlanks(TrimSpace(d), a, q, b);
    QuotedTokens(d, t, n, |Blanks(a) + q + Blanks(b)|);
  }

  /** An array literal of two quoted texts, laid out as the whitelist is. */
  function PairText(t1: string, t2: string): string
  {
    "<| " + Quote(t1) + ", " + Quote(t2) + " |>"
  }

  /** The elements of the pair: C++ splits the text between the brackets
      as it is, Go and Rust trim it first. */
  lemma PairSegments(d: Dialect, t1: string, t2: string)
    requires ',' !in t1 && ',' !in t2
    ensures ArraySegments(d, PairText(t1, t2)) ==
      if d == Cpp then [Blanks(1) + Quote(t1) + Blanks(0), Blanks(1) + Quote(t2) + Blanks(1)]
      else [Blanks(0) + Quote(t1) + Blanks(0), Blanks(1) + Quote(t2) + Blanks(0)]
  {
    var inner := Blanks(1) + (Quote(t1) + ", " + Quote(t2)) + Blanks(1);
    PairInner(t1, t2);
    SegmentsOfInner(d, PairText(t1, t2), inner);
    if d == Cpp {
      CppPair(t1, t2, inner);
    } else {
      TrimmedPair(t1, t2, inner);
    }
  }

  /** The segments of an array text are those of the text between its
      brackets. */
  lemma SegmentsOfInner(d: Dialect, s: string, inner: string)
    requires |s| >= 4 && s[2..|s| - 2] == inner
    ensures d == Cpp ==> ArraySegments(d, s) == GetlineSplit(inner, ',')
    ensures d != Cpp && TrimBy(inner, UnicodeSpace) != [] ==>
      ArraySegments(d, s) == Split(TrimBy(inner, UnicodeSpace), ',')
  {
  }

  /** Between the brackets of the pair: the two quoted texts, a comma and
      a blank between them, a blank at each end. */
  lemma PairInner(t1: string, t2: string)
    ensures var s := PairText(t1, t2);
      |s| >= 4 && s[2..|s| - 2] == Blanks(1) + (Quote(t1) + ", " + Quote(t2)) + Blanks(1)
  {
    var s := PairText(t1, t2);
    assert Blanks(1) == " ";
    assert s[2..|s| - 2] == Blanks(1) + (Quote(t1) + ", " + Quote(t2)) + Blanks(1);
  }

  lemma CppPair(t1: string, t2: string, inner: string)
    requires ',' !in t1 && ',' !in t2
    requires inner == Blanks(1) + (Quote(t1) + ", " + Quote(t2)) + Blanks(1)
    ensures GetlineSplit(inner, ',') == [Blanks(1) + Quote(t1) + Blanks(0), Blanks(1) + Quote(t2) + Blanks(1)]
  {
    assert Blanks(0) == [] && Blanks(1) == " ";
    var p1 := Padded(1, t1, 0);
    var p2 := Padded(1, t2, 1);
    assert inner == p1 + "," + p2;
    SplitPair(p1, p2, inner);
  }

  lemma TrimmedPair(t1: string, t2: string, inner: string)
    requires ',' !in t1 && ',' !in t2
    requires inner == Blanks(1) + (Quote(t1) + ", " + Quote(t2)) + Blanks(1)
    ensures var t := TrimBy(inner, UnicodeSpace);
      t != [] && Split(t, ',') == [Blanks(0) + Quote(t1) + Blanks(0), Blanks(1) + Quote(t2) + Blanks(0)]
  {
    assert Blanks(0) == [] && Blanks(1) == " ";
    var t := Quote(t1) + ", " + Quote(t2);
    TrimBlanks(UnicodeSpace, 1, t, 1);
    var p1 := Padded(0, t1, 0);
    var p2 := Padded(1, t2, 0);
    assert p1 == Quote(t1) && p2 == " " + Quote(t2);
    Regroup(Quote(t1), ",", " ", Quote(t2));
    assert ", " == "," + " ";
    SplitPair(p1, p2, t);
  }

  /** A quoted text without a comma, with blanks around it, holds no comma. */
  lemma Padded(a: nat, t: string, b: nat) returns (p: string)
    requires ',' !in t
    ensures p == Blanks(a) + Quote(t) + Blanks(b) && ',' !in p && p != []
  {
    p := Blanks(a) + Quote(t) + Blanks(b);
    assert p == Blanks(a) + "\"" + t + "\"" + Blanks(b);
  }

  /** The two elements' tokens with a comma between them. */
  lemma TwoSegments(d: Dialect, segs: seq<string>, v1: seq<Token>, v2: seq<Token>, n: nat, bound: nat)
    requires |segs| == 2 && ShorterThan(segs, bound)
    requires ValueTokens(d, segs[0], n) == Ok(v1) && ValueTokens(d, segs[1], n) == Ok(v2)
    ensures SegmentsTokens(d, segs, n, bound) == Ok(v1 + [Marker(Comma, n)] + v2)
  {
    assert segs[..1][..0] == [] && segs[..1][0] == segs[0];
    assert SegmentsTokens(d, segs[..1][..0], n, bound) == Ok([]);
    assert SegmentsTokens(d, segs[..1], n, bound) == Ok([] + [] + v1);
    assert [] + [] + v1 == v1;
  }

  /** An array literal whose elements lex to `inner`. */
  lemma ArrayOf(d: Dialect, s: string, inner: seq<Token>, n: nat)
    requires 4 <= |s| && StartsWith(s, "<|") && EndsWith(s, "|>")
    requires SegmentsTokens(d, ArraySegments(d, s), n, |s|) == Ok(inner)
    ensures ValueTokens(d, s, n) == Ok([Marker(ArrayStart, n)] + inner + [Marker(ArrayEnd, n)])
  {
    ArrayText(d, s, n);
    Tokenizer.ArrayTokensUnfold(d, s, n, |s|);
  }

  /** The pair is an array of its two strings. */
  lemma PairTokens(d: Dialect, t1: string, t2: string, n: nat)
    requires ',' !in t1 && ',' !in t2
    ensures ValueTokens(d, PairText(t1, t2), n) ==
      Ok([Marker(ArrayStart, n), Token(StringLit, t1, n, 0), Marker(Comma, n), Token(StringLit, t2, n, 0),
          Marker(ArrayEnd, n)])
  {
    var s := PairText(t1, t2);
    assert s[..2] == "<|";
    assert s[|s| - 2..] == "|>";
    var segs := PairElements(d, t1, t2, n);
    var v1, v2 := [Token(StringLit, t1, n, 0)], [Token(StringLit, t2, n, 0)];
    TwoSegments(d, segs, v1, v2, n, |s|);
    var inner := v1 + [Marker(Comma, n)] + v2;
    ArrayOf(d, s, inner, n);
    FiveTokens(Marker(ArrayStart, n), Token(StringLit, t1, n, 0), Marker(Comma, n), Token(StringLit, t2, n, 0),
      Marker(ArrayEnd, n));
  }

  /** Each of the pair's two elements is one string token. */
  lemma PairElements(d: Dialect, t1: string, t2: string, n: nat) returns (segs: seq<string>)
    requires ',' !in t1 && ',' !in t2
    ensures segs == ArraySegments(d, PairText(t1, t2)) && |segs| == 2
    ensures ShorterThan(segs, |PairText(t1, t2)|)
    ensures ValueTokens(d, segs[0], n) == Ok([Token(StringLit, t1, n, 0)])
    ensures ValueTokens(d, segs[1], n) == Ok([Token(StringLit, t2, n, 0)])
  {
    PairSegments(d, t1, t2);
    segs := ArraySegments(d, PairText(t1, t2));
    if d == Cpp {
      ElementTokens(d, 1, t1, 0, n);
      ElementTokens(d, 1, t2, 1, n);
    } else {
      ElementTokens(d, 0, t1, 0, n);
      ElementTokens(d, 1, t2, 0, n);
    }
  }

  lemma FiveTokens(a: Token, b: Token, c: Token, e: Token, f: Token)
    ensures [a] + ([b] + [c] + [e]) + [f] == [a, b, c, e, f]
  {
  }

  lemma Regroup(a: string, b: string, c: string, e: string)
    ensures a + (b + c) + e == a + b + (c + e)
  {
  }

  /** Two parts without a comma, joined by one. */
  lemma SplitPair(p1: string, p2: string, s: string)
    requires ',' !in p1 && ',' !in p2 && p2 != [] && s == p1 + "," + p2
    ensures Split(s, ',') == [p1, p2] && GetlineSplit(s, ',') == [p1, p2]
  {
    assert s == Join([p1, p2], ',');
    SplitJoin([p1, p2], ',');
  }

  // ---------------------------------------------------------------------
  // The lines of the document

  /** The tokens of an assignment line: its indent, the key, the arrow and
      the value's tokens. */
  function AssignTokens(n: nat, level: nat, key: string, v: seq<Token>): seq<Token>
  {
    [Token(Indent, "", n, level)] + ([Token(Identifier, key, n, 0), Marker(VineWhip, n)] + v)
  }

  /** The tokens of a section header line. */
  function SectionTokens(d: Dialect, n: nat, level: nat, stage: nat, name: string): seq<Token>
  {
    [Token(Indent, "", n, level)] + [Token(SectionOpen, "", n, stage),
      Token(Identifier, name, n, if d == Rust then stage else 0), Token(SectionClose, "", n, stage)]
  }

  /** An assignment line `level` indents deep, read as the layout of its
      parts. */
  lemma AssignLine(d: Dialect, line: string, w: nat, level: nat, key: string, gap: nat, tildes: nat,
                   value: string, v: seq<Token>, n: nat)
    requires w == 4 * level && IsKey(d, key) && 'Z' !in key && tildes >= 1
    requires SimpleValue(value) && ValueTokens(d, value, n) == Ok(v)
    requires line == Blanks(w) + ArrowLine(key, Blanks(gap), tildes, " ", value)
    ensures LineTokens(d, line, n) == Ok(AssignTokens(n, level, key, v))
  {
    AssignmentTokens(d, w, key, gap, tildes, value, v, n);
    assert w / 4 == level;
  }

  /** An assignment of a quoted text. */
  lemma QuotedLine(d: Dialect, line: string, w: nat, level: nat, key: string, gap: nat, tildes: nat, t: string,
                    n: nat)
    requires w == 4 * level && IsKey(d, key) && 'Z' !in key && tildes >= 1 && SimpleValue(Quote(t))
    requires line == Blanks(w) + ArrowLine(key, Blanks(gap), tildes, " ", Quote(t))
    ensures LineTokens(d, line, n) == Ok(AssignTokens(n, level, key, [Token(StringLit, t, n, 0)]))
  {
    StringRoundTrip(d, t, n);
    assert Quote(t) == "\"" + t + "\"";
    AssignLine(d, line, w, level, key, gap, tildes, Quote(t), [Token(StringLit, t, n, 0)], n);
  }

  /** A section header line `level` indents deep. */
  lemma SectionHeaderLine(d: Dialect, line: string, w: nat, level: nat, stage: nat, name: string, n: nat)
    requires w == 4 * level && 1 <= stage <= 3 && 'Z' !in name && '\t' !in name
    requires line == Blanks(w) + SectionLine(stage, name)
    ensures LineTokens(d, line, n) == Ok(SectionTokens(d, n, level, stage, name))
  {
    NoCapitalZ(name);
    IndentedSection(d, w, stage, name, n);
    assert w / 4 == level;
  }

  /** A comment line `level` indents deep. */
  lemma CommentLine(d: Dialect, line: string, w: nat, junk: string, n: nat)
    requires line == Blanks(w) + CommentMarker + junk
    ensures LineTokens(d, line, n) == Ok([])
  {
    CommentTokens(d, w, junk, n);
  }

  lemma AppNameTokens(d: Dialect)
    ensures LineTokens(d, AppNameLine, 3) == Ok(AssignTokens(3, 0, "app_name", [Token(StringLit, "Pokedex_API", 3, 0)]))
  {
    AppNameText();
    AppNameKey(d);
    PokedexValue();
    QuotedLine(d, AppNameLine, 0, 0, "app_name", 1, 6, "Pokedex_API", 3);
  }

  lemma VersionTokens(d: Dialect)
    ensures LineTokens(d, VersionLine, 4) == Ok(AssignTokens(4, 0, "version", [Token(NumberLit, "1.5", 4, 0)]))
  {
    FractionTokens(d, "1.5", 4);
    VersionText();
    VersionKey(d);
    VersionValue();
    AssignLine(d, VersionLine, 0, 0, "version", 2, 6, "1.5", [Token(NumberLit, "1.5", 4, 0)], 4);
  }

  lemma ProductionTokens(d: Dialect)
    ensures LineTokens(d, ProductionLine, 5) == Ok(AssignTokens(5, 0, "is_production", [Token(BoolLit, "false", 5, 0)]))
  {
    KeywordTokens(d, 5);
    ProductionText();
    IsProductionKey(d);
    ProductionValue();
    AssignLine(d, ProductionLine, 0, 0, "is_production", 1, 1, "NotVeryEffective", [Token(BoolLit, "false", 5, 0)], 5);
  }

  lemma MissingTokens(d: Dialect)
    ensures LineTokens(d, MissingLine, 6) == Ok(AssignTokens(6, 0, "missing_data", [Marker(NullLit, 6)]))
  {
    KeywordTokens(d, 6);
    MissingText();
    MissingDataKey(d);
    MissingValue();
    AssignLine(d, MissingLine, 0, 0, "missing_data", 1, 1, "MissingNo", [Marker(NullLit, 6)], 6);
  }

  lemma DatabaseTokens(d: Dialect)
    ensures LineTokens(d, DatabaseLine, 9) == Ok(SectionTokens(d, 9, 0, 1, "database"))
  {
    DatabaseText();
    SectionHeaderLine(d, DatabaseLine, 0, 0, 1, "database", 9);
  }

  lemma HostTokens(d: Dialect)
    ensures LineTokens(d, HostLine, 10) == Ok(AssignTokens(10, 1, "host", [Token(StringLit, "127.0.0.1", 10, 0)]))
  {
    HostText();
    HostKey(d);
    HostValue();
    QuotedLine(d, HostLine, 4, 1, "host", 1, 4, "127.0.0.1", 10);
  }

  lemma PoolTokens(d: Dialect)
    ensures LineTokens(d, PoolLine, 13) == Ok(SectionTokens(d, 13, 1, 2, "pool"))
  {
    PoolText();
    SectionHeaderLine(d, PoolLine, 4, 1, 2, "pool", 13);
  }

  lemma MaxConnectionsTokens(d: Dialect)
    ensures LineTokens(d, MaxConnectionsLine, 14) ==
      Ok(AssignTokens(14, 2, "max_connections", [Token(NumberLit, "100", 14, 0)]))
  {
    DigitsAreNumbers(d, "100", 14);
    MaxConnectionsText();
    MaxConnectionsKey(d);
    HundredValue();
    AssignLine(d, MaxConnectionsLine, 8, 2, "max_connections", 1, 4, "100", [Token(NumberLit, "100", 14, 0)], 14);
  }

  lemma KernelTokens(d: Dialect)
    ensures LineTokens(d, KernelLine, 17) == Ok(SectionTokens(d, 17, 2, 3, "KERNEL_FLAGS"))
  {
    KernelText();
    SectionHeaderLine(d, KernelLine, 8, 2, 3, "KERNEL_FLAGS", 17);
  }

  lemma PanicTokens(d: Dialect)
    ensures LineTokens(d, PanicLine, 18) == Ok(AssignTokens(18, 3, "panic_on_fail", [Token(BoolLit, "true", 18, 0)]))
  {
    KeywordTokens(d, 18);
    PanicText();
    PanicOnFailKey(d);
    PanicValue();
    AssignLine(d, PanicLine, 12, 3, "panic_on_fail", 1, 4, "SuperEffective", [Token(BoolLit, "true", 18, 0)], 18);
  }

  /** The tokens of the whitelist's value. */
  function PairTokensOf(n: nat, t1: string, t2: string): seq<Token>
  {
    [Marker(ArrayStart, n), Token(StringLit, t1, n, 0), Marker(Comma, n), Token(StringLit, t2, n, 0),
     Marker(ArrayEnd, n)]
  }

  lemma WhitelistTokens(d: Dialect)
    ensures LineTokens(d, WhitelistLine, 21) == Ok(AssignTokens(21, 0, "whitelist", PairTokensOf(21, "Prof_Oak", "Mom")))
  {
    PairTokens(d, "Prof_Oak", "Mom", 21);
    WhitelistText();
    WhitelistKey(d);
    WhitelistValue();
    AssignLine(d, WhitelistLine, 0, 0, "whitelist", 1, 4, PairText("Prof_Oak", "Mom"),
      PairTokensOf(21, "Prof_Oak", "Mom"), 21);
  }

  /** The comment and blank lines. */
  lemma QuietTokens(d: Dialect)
    ensures LineTokens(d, BasicComment, 2) == Ok([]) && LineTokens(d, DatabaseComment, 8) == Ok([])
    ensures LineTokens(d, PoolComment, 12) == Ok([]) && LineTokens(d, KernelComment, 16) == Ok([])
    ensures LineTokens(d, UsersComment, 20) == Ok([])
    ensures LineTokens(d, "", 7) == Ok([]) && LineTokens(d, "    ", 11) == Ok([])
    ensures LineTokens(d, "        ", 15) == Ok([]) && LineTokens(d, "", 19) == Ok([])
  {
    CommentTexts();
    CommentLine(d, BasicComment, 0, " Basic Configuration", 2);
    CommentLine(d, DatabaseComment, 0, " Database Connection (Level 1)", 8);
    CommentLine(d, PoolComment, 4, " Connection Pool Settings (Level 2)", 12);
    CommentLine(d, KernelComment, 8, " Critical Kernel flags (Level 3)", 16);
    CommentLine(d, UsersComment, 0, " Allowed Users List", 20);
    LayoutPieces();
    BlankTokens(d, 0, 7);
    BlankTokens(d, 4, 11);
    BlankTokens(d, 8, 15);
    BlankTokens(d, 0, 19);
  }

  // ---------------------------------------------------------------------
  // The whole document lexed

  /** The tokens of the body lines, in order: the blank and comment lines
      contribute none. */
  function Body(d: Dialect): seq<Token>
  {
    Head() +
    SectionTokens(d, 9, 0, 1, "database") +
    AssignTokens(10, 1, "host", [Token(StringLit, "127.0.0.1", 10, 0)]) +
    SectionTokens(d, 13, 1, 2, "pool") +
    AssignTokens(14, 2, "max_connections", [Token(NumberLit, "100", 14, 0)]) +
    SectionTokens(d, 17, 2, 3, "KERNEL_FLAGS") +
    AssignTokens(18, 3, "panic_on_fail", [Token(BoolLit, "true", 18, 0)]) +
    AssignTokens(21, 0, "whitelist", PairTokensOf(21, "Prof_Oak", "Mom"))
  }

  /** The tokens of the four top-level assignments before the first
      section. */
  function Head(): seq<Token>
  {
    AssignTokens(3, 0, "app_name", [Token(StringLit, "Pokedex_API", 3, 0)]) +
    AssignTokens(4, 0, "version", [Token(NumberLit, "1.5", 4, 0)]) +
    AssignTokens(5, 0, "is_production", [Token(BoolLit, "false", 5, 0)]) +
    AssignTokens(6, 0, "missing_data", [Marker(NullLit, 6)])
  }

  /** The document's tokens: the header, the body, and the end of the 21
      lines. */
  function DocumentTokens(d: Dialect): seq<Token>
  {
    [Token(Header, HeaderLine, 1, 0)] + Body(d) + [Marker(Eof, 21)]
  }

  /** A quiet second line gives a body without tokens. */
  lemma QuietFirst(d: Dialect, lines: seq<string>)
    requires 2 <= |lines| && LineTokens(d, lines[1], 2) == Ok([])
    ensures BodyTokens(d, lines, 2) == Ok([])
  {
    assert BodyTokens(d, lines, 1) == Ok([]);
    var none: seq<Token> := [];
    assert none + none == none;
  }

  /** A line without tokens leaves the body's tokens as they were. */
  lemma QuietStep(d: Dialect, lines: seq<string>, k: nat, prev: seq<Token>)
    requires 1 < k <= |lines|
    requires BodyTokens(d, lines, k - 1) == Ok(prev) && LineTokens(d, lines[k - 1], k) == Ok([])
    ensures BodyTokens(d, lines, k) == Ok(prev)
  {
    assert prev + [] == prev;
  }

  /** The lines of the document, one by one. */
  lemma LinesAt()
    ensures var lines := Lines();
      |lines| == 21 && lines[0] == HeaderLine && lines[1] == BasicComment && lines[2] == AppNameLine &&
      lines[3] == VersionLine && lines[4] == ProductionLine && lines[5] == MissingLine && lines[6] == "" &&
      lines[7] == DatabaseComment && lines[8] == DatabaseLine && lines[9] == HostLine && lines[10] == "    " &&
      lines[11] == PoolComment && lines[12] == PoolLine && lines[13] == MaxConnectionsLine &&
      lines[14] == "        " && lines[15] == KernelComment && lines[16] == KernelLine &&
      lines[17] == PanicLine && lines[18] == "" && lines[19] == UsersComment && lines[20] == WhitelistLine
  {
  }

  /** The comment on line 2 and the first assignment. */
  lemma DocumentAppName(d: Dialect)
    ensures BodyTokens(d, Lines(), 3) == Ok(AssignTokens(3, 0, "app_name", [Token(StringLit, "Pokedex_API", 3, 0)]))
  {
    var c3 := AssignTokens(3, 0, "app_name", [Token(StringLit, "Pokedex_API", 3, 0)]);
    LinesAt();
    QuietTokens(d);
    AppNameTokens(d);
    QuietFirst(d, Lines());
    TestDocuments.BodyStep(d, Lines(), 3, [], c3);
    assert [] + c3 == c3;
  }

  /** Lines 4 to 6: the version, the production flag and the missing data. */
  lemma DocumentHead(d: Dialect, prev: seq<Token>)
    requires BodyTokens(d, Lines(), 3) == Ok(prev)
    ensures BodyTokens(d, Lines(), 6) ==
      Ok(prev + AssignTokens(4, 0, "version", [Token(NumberLit, "1.5", 4, 0)]) +
        AssignTokens(5, 0, "is_production", [Token(BoolLit, "false", 5, 0)]) +
        AssignTokens(6, 0, "missing_data", [Marker(NullLit, 6)]))
  {
    var c4 := AssignTokens(4, 0, "version", [Token(NumberLit, "1.5", 4, 0)]);
    var c5 := AssignTokens(5, 0, "is_production", [Token(BoolLit, "false", 5, 0)]);
    var c6 := AssignTokens(6, 0, "missing_data", [Marker(NullLit, 6)]);
    LinesAt();
    VersionTokens(d);
    ProductionTokens(d);
    MissingTokens(d);
    TestDocuments.BodyStep(d, Lines(), 4, prev, c4);
    TestDocuments.BodyStep(d, Lines(), 5, prev + c4, c5);
    TestDocuments.BodyStep(d, Lines(), 6, prev + c4 + c5, c6);
  }

  /** Lines 7 to 10: the database section and its host. */
  lemma DocumentDatabase(d: Dialect, prev: seq<Token>)
    requires BodyTokens(d, Lines(), 6) == Ok(prev)
    ensures BodyTokens(d, Lines(), 10) ==
      Ok(prev + SectionTokens(d, 9, 0, 1, "database") + AssignTokens(10, 1, "host", [Token(StringLit, "127.0.0.1", 10, 0)]))
  {
    LinesAt();
    QuietTokens(d);
    DatabaseTokens(d);
    HostTokens(d);
    QuietStep(d, Lines(), 7, prev);
    QuietStep(d, Lines(), 8, prev);
    TestDocuments.BodyStep(d, Lines(), 9, prev, SectionTokens(d, 9, 0, 1, "database"));
    TestDocuments.BodyStep(d, Lines(), 10, prev + SectionTokens(d, 9, 0, 1, "database"),
      AssignTokens(10, 1, "host", [Token(StringLit, "127.0.0.1", 10, 0)]));
  }

  /** Lines 11 to 14: the pool section and its connection limit. */
  lemma DocumentPool(d: Dialect, prev: seq<Token>)
    requires BodyTokens(d, Lines(), 10) == Ok(prev)
    ensures BodyTokens(d, Lines(), 14) ==
      Ok(prev + SectionTokens(d, 13, 1, 2, "pool") + AssignTokens(14, 2, "max_connections", [Token(NumberLit, "100", 14, 0)]))
  {
    LinesAt();
    QuietTokens(d);
    PoolTokens(d);
    MaxConnectionsTokens(d);
    QuietStep(d, Lines(), 11, prev);
    QuietStep(d, Lines(), 12, prev);
    TestDocuments.BodyStep(d, Lines(), 13, prev, SectionTokens(d, 13, 1, 2, "pool"));
    TestDocuments.BodyStep(d, Lines(), 14, prev + SectionTokens(d, 13, 1, 2, "pool"),
      AssignTokens(14, 2, "max_connections", [Token(NumberLit, "100", 14, 0)]));
  }

  /** Lines 15 to 18: the kernel section and its flag. */
  lemma DocumentKernel(d: Dialect, prev: seq<Token>)
    requires BodyTokens(d, Lines(), 14) == Ok(prev)
    ensures BodyTokens(d, Lines(), 18) ==
      Ok(prev + SectionTokens(d, 17, 2, 3, "KERNEL_FLAGS") + AssignTokens(18, 3, "panic_on_fail", [Token(BoolLit, "true", 18, 0)]))
  {
    LinesAt();
    QuietTokens(d);
    KernelTokens(d);
    PanicTokens(d);
    QuietStep(d, Lines(), 15, prev);
    QuietStep(d, Lines(), 16, prev);
    TestDocuments.BodyStep(d, Lines(), 17, prev, SectionTokens(d, 17, 2, 3, "KERNEL_FLAGS"));
    TestDocuments.BodyStep(d, Lines(), 18, prev + SectionTokens(d, 17, 2, 3, "KERNEL_FLAGS"),
      AssignTokens(18, 3, "panic_on_fail", [Token(BoolLit, "true", 18, 0)]));
  }

  /** Lines 19 to 21: the whitelist. */
  lemma DocumentWhitelist(d: Dialect, prev: seq<Token>)
    requires BodyTokens(d, Lines(), 18) == Ok(prev)
    ensures BodyTokens(d, Lines(), 21) ==
      Ok(prev + AssignTokens(21, 0, "whitelist", PairTokensOf(21, "Prof_Oak", "Mom")))
  {
    LinesAt();
    QuietTokens(d);
    WhitelistTokens(d);
    QuietStep(d, Lines(), 19, prev);
    QuietStep(d, Lines(), 20, prev);
    TestDocuments.BodyStep(d, Lines(), 21, prev, AssignTokens(21, 0, "whitelist", PairTokensOf(21, "Prof_Oak", "Mom")));
  }

  /** The lexer reads the document as `DocumentTokens`, in every
      implementation. */
  lemma LexDocument(d: Dialect)
    ensures Lex(d, Lines()) == Ok(DocumentTokens(d))
  {
    LinesAt();
    BodyDocument(d);
    TestDocuments.HeaderFirst(d);
    LexOf(d, Lines(), Body(d));
  }

  /** A document whose first line is the header lexes to the header, the
      body's tokens and the end of file. */
  lemma LexOf(d: Dialect, lines: seq<string>, body: seq<Token>)
    requires lines != [] && FirstLine(d, lines[0]) == HeaderLine
    requires BodyTokens(d, lines, |lines|) == Ok(body)
    ensures Lex(d, lines) == Ok([Token(Header, HeaderLine, 1, 0)] + body + [Marker(Eof, |lines|)])
  {
  }

  /** Lines 2 to 21 of the reference document give its body's tokens. */
  lemma BodyDocument(d: Dialect)
    ensures BodyTokens(d, Lines(), 21) == Ok(Body(d))
  {
    var b := AssignTokens(3, 0, "app_name", [Token(StringLit, "Pokedex_API", 3, 0)]);
    DocumentAppName(d);
    DocumentHead(d, b);
    b := Head();
    DocumentDatabase(d, b);
    b := b + SectionTokens(d, 9, 0, 1, "database") + AssignTokens(10, 1, "host", [Token(StringLit, "127.0.0.1", 10, 0)]);
    DocumentPool(d, b);
    b := b + SectionTokens(d, 13, 1, 2, "pool") + AssignTokens(14, 2, "max_connections", [Token(NumberLit, "100", 14, 0)]);
    DocumentKernel(d, b);
    b := b + SectionTokens(d, 17, 2, 3, "KERNEL_FLAGS") + AssignTokens(18, 3, "panic_on_fail", [Token(BoolLit, "true", 18, 0)]);
    DocumentWhitelist(d, b);
  }

  // The lines as the layouts of their parts

  lemma AppNameText()
    ensures AppNameLine == Blanks(0) + ArrowLine("app_name", Blanks(1), 6, " ", Quote("Pokedex_API"))
  {
    LayoutPieces();
    NoIndent(ArrowLine("app_name", Blanks(1), 6, " ", Quote("Pokedex_API")));
  }

  lemma VersionText()
    ensures VersionLine == Blanks(0) + ArrowLine("version", Blanks(2), 6, " ", "1.5")
  {
    LayoutPieces();
    NoIndent(ArrowLine("version", Blanks(2), 6, " ", "1.5"));
  }

  lemma ProductionText()
    ensures ProductionLine == Blanks(0) + ArrowLine("is_production", Blanks(1), 1, " ", "NotVeryEffective")
  {
    LayoutPieces();
    NoIndent(ArrowLine("is_production", Blanks(1), 1, " ", "NotVeryEffective"));
  }

  lemma MissingText()
    ensures MissingLine == Blanks(0) + ArrowLine("missing_data", Blanks(1), 1, " ", "MissingNo")
  {
    LayoutPieces();
    NoIndent(ArrowLine("missing_data", Blanks(1), 1, " ", "MissingNo"));
  }

  lemma DatabaseText()
    ensures DatabaseLine == Blanks(0) + SectionLine(1, "database")
  {
    LayoutPieces();
    NoIndent(SectionLine(1, "database"));
  }

  lemma HostText()
    ensures HostLine == Blanks(4) + ArrowLine("host", Blanks(1), 4, " ", Quote("127.0.0.1"))
  {
    LayoutPieces();
  }

  lemma PoolText()
    ensures PoolLine == Blanks(4) + SectionLine(2, "pool")
  {
    LayoutPieces();
  }

  lemma MaxConnectionsText()
    ensures MaxConnectionsLine == Blanks(8) + ArrowLine("max_connections", Blanks(1), 4, " ", "100")
  {
    LayoutPieces();
  }

  lemma KernelText()
    ensures KernelLine == Blanks(8) + SectionLine(3, "KERNEL_FLAGS")
  {
    LayoutPieces();
  }

  lemma PanicText()
    ensures PanicLine == Blanks(12) + ArrowLine("panic_on_fail", Blanks(1), 4, " ", "SuperEffective")
  {
    LayoutPieces();
  }

  lemma WhitelistText()
    ensures WhitelistLine == Blanks(0) + ArrowLine("whitelist", Blanks(1), 4, " ", PairText("Prof_Oak", "Mom"))
  {
    LayoutPieces();
    NoIndent(ArrowLine("whitelist", Blanks(1), 4, " ", PairText("Prof_Oak", "Mom")));
  }

  lemma CommentTexts()
    ensures BasicComment == Blanks(0) + CommentMarker + " Basic Configuration"
    ensures DatabaseComment == Blanks(0) + CommentMarker + " Database Connection (Level 1)"
    ensures PoolComment == Blanks(4) + CommentMarker + " Connection Pool Settings (Level 2)"
    ensures KernelComment == Blanks(8) + CommentMarker + " Critical Kernel flags (Level 3)"
    ensures UsersComment == Blanks(0) + CommentMarker + " Allowed Users List"
  {
    LayoutPieces();
    NoIndent(CommentMarker);
  }

  /** The blanks, tildes, quoted texts and stage markers the lines are made
      of. */
  lemma LayoutPieces()
    ensures "" == Blanks(0) && " " == Blanks(1) && "  " == Blanks(2)
    ensures "    " == Blanks(4) && "        " == Blanks(8) && "            " == Blanks(12)
    ensures "~" == seq(1, _ => '~') && "~~~~" == seq(4, _ => '~') && "~~~~~~" == seq(6, _ => '~')
    ensures "\"Pokedex_API\"" == Quote("Pokedex_API") && "\"127.0.0.1\"" == Quote("127.0.0.1")
    ensures "<| \"Prof_Oak\", \"Mom\" |>" == PairText("Prof_Oak", "Mom")
    ensures "(o)" == StageMarker(1) && "(O)" == StageMarker(2) && "(@)" == StageMarker(3)
  {
    PairLayout();
  }

  lemma PairLayout()
    ensures "<| \"Prof_Oak\", \"Mom\" |>" == PairText("Prof_Oak", "Mom")
  {
  }

  /** No indentation adds nothing. */
  lemma NoIndent(x: string)
    ensures Blanks(0) + x == x
  {
  }

  // The keys and values of the assignments

  lemma AppNameKey(d: Dialect)
    ensures IsKey(d, "app_name") && 'Z' !in "app_name"
  {
  }

  lemma VersionKey(d: Dialect)
    ensures IsKey(d, "version") && 'Z' !in "version"
  {
  }

  lemma IsProductionKey(d: Dialect)
    ensures IsKey(d, "is_production") && 'Z' !in "is_production"
  {
  }

  lemma MissingDataKey(d: Dialect)
    ensures IsKey(d, "missing_data") && 'Z' !in "missing_data"
  {
  }

  lemma HostKey(d: Dialect)
    ensures IsKey(d, "host") && 'Z' !in "host"
  {
  }

  lemma MaxConnectionsKey(d: Dialect)
    ensures IsKey(d, "max_connections") && 'Z' !in "max_connections"
  {
  }

  lemma PanicOnFailKey(d: Dialect)
    ensures IsKey(d, "panic_on_fail") && 'Z' !in "panic_on_fail"
  {
  }

  lemma WhitelistKey(d: Dialect)
    ensures IsKey(d, "whitelist") && 'Z' !in "whitelist"
  {
  }

  lemma PokedexValue()
    ensures SimpleValue(Quote("Pokedex_API"))
  {
  }

  lemma VersionValue()
    ensures SimpleValue("1.5")
  {
  }

  lemma ProductionValue()
    ensures SimpleValue("NotVeryEffective")
  {
  }

  lemma MissingValue()
    ensures SimpleValue("MissingNo")
  {
  }

  lemma HostValue()
    ensures SimpleValue(Quote("127.0.0.1"))
  {
  }

  lemma HundredValue()
    ensures SimpleValue("100")
  {
  }

  lemma PanicValue()
    ensures SimpleValue("SuperEffective")
  {
  }

  lemma WhitelistValue()
    ensures SimpleValue(PairText("Prof_Oak", "Mom"))
  {
  }

}
