/** What the lexer of each implementation produces for a document: the token
    sequence, or the failure that aborts lexing. A document is the sequence of
    its lines as the language's line reader delivers them. */
module Lexical {
  import opened Errors
  import opened Text
  import opened Numbers
  import opened Tokens

  const HeaderLine: string := "BULBA!"
  const CommentMarker: string := "zZz"

  // ---------------------------------------------------------------------
  // Character classes that differ between the implementations

  /** `\s` of the key/value regex: `std::regex` uses the C classification, Go
      its ASCII class, Rust's `regex` crate Unicode White_Space. */
  function RegexSpace(d: Dialect): CharClass
  {
    match d
    case Cpp => CSpace
    case Go => GoRegexSpace
    case Rust => UnicodeSpace
  }

  /** `.` of the key/value regex: ECMAScript excludes both line terminators,
      Go and Rust exclude only the newline. */
  function RegexDot(d: Dialect): CharClass
  {
    if d == Cpp then CppRegexDot else NotNewline
  }

  /** What the right trim of a body line removes: `std::isspace`,
      Go's cutset " \r\n", Rust's `trim_end`. */
  function LineEndSpace(d: Dialect): CharClass
  {
    match d
    case Cpp => CSpace
    case Go => GoLineEnd
    case Rust => UnicodeSpace
  }

  /** What the both-ends trim of a line and of a value removes: the C++
      `trim` helper (space and tab), Go `strings.TrimSpace`, Rust `str::trim`. */
  function TrimSpace(d: Dialect): CharClass
  {
    if d == Cpp then SpaceOrTab else UnicodeSpace
  }

  function TrimText(d: Dialect, s: string): (r: string)
    ensures |r| <= |s|
  {
    TrimBy(s, TrimSpace(d))
  }

  // ---------------------------------------------------------------------
  // Values

  /** The number test of `tokenizeValue`: `std::stoi` or `std::stod` consuming
      the whole text, `fmt.Sscan` into a float64, `str::parse::<f64>`. */
  predicate IsNumberText(d: Dialect, s: string)
  {
    match d
    case Cpp => Stoi(s).Some? || StodWhole(s)
    case Go => GoScansFloat(s)
    case Rust => IsDecimalFloat(s, 0)
  }

  /** The element texts of an array literal `s`, which starts with "<|" and
      ends with "|>". C++ reads them with `std::getline(_, _, ',')` from the
      text between the brackets (for "<|>" the `substr` count wraps and that
      text is ">"); Go and Rust trim it and split on every comma unless it is
      empty. A comma inside a string or a nested array splits there too. */
  function ArraySegments(d: Dialect, s: string): (segs: seq<string>)
    requires |s| >= 3 && (d == Cpp || |s| >= 4)
    ensures forall i :: 0 <= i < |segs| ==> |segs[i]| < |s|
  {
    var inner := if |s| >= 4 then s[2..|s| - 2] else s[2..];
    if d == Cpp then GetlineSplit(inner, ',')
    else
      var t := TrimBy(inner, UnicodeSpace);
      if t == [] then [] else Split(t, ',')
  }

  /** The tokens of one value text (`tokenizeValue` / `tokenize_value`). The
      text is trimmed first; in Rust every caller trims it before the call,
      which comes to the same since trimming twice changes nothing. */
  function ValueTokens(d: Dialect, raw: string, n: nat): (r: Result<seq<Token>>)
    ensures r.Ok? ==> AllValueKinds(r.value) && StartsValue(r.value)
    ensures r.Err? ==> r.error == TypeError || (r.error == Crash && d != Cpp)
    decreases |raw|, 3, 0
  {
    TrimmedValueTokens(d, TrimText(d, raw), n, |raw|)
  }

  /** The tokens of a trimmed value text `s`, tried in the order of the
      source: string, the three keywords, array, number. */
  function TrimmedValueTokens(d: Dialect, s: string, n: nat, bound: nat): (r: Result<seq<Token>>)
    requires |s| <= bound
    ensures r.Ok? ==> AllValueKinds(r.value) && StartsValue(r.value)
    ensures r.Err? ==> r.error == TypeError || (r.error == Crash && d != Cpp)
    decreases bound, 2, 0
  {
    if s == [] then Ok([])
    else if StartsWith(s, "\"") && EndsWith(s, "\"") then
      if |s| >= 2 then Ok([Token(StringLit, s[1..|s| - 1], n, 0)])
      else if d == Cpp then Ok([Token(StringLit, "", n, 0)])  // substr(1, npos) of a lone quote
      else Err(Crash)                                           // slice [1..0]
    else if s == "SuperEffective" then Ok([Token(BoolLit, "true", n, 0)])
    else if s == "NotVeryEffective" then Ok([Token(BoolLit, "false", n, 0)])
    else if s == "MissingNo" then Ok([Marker(NullLit, n)])
    else if StartsWith(s, "<|") && EndsWith(s, "|>") then ArrayTokens(d, s, n, bound)
    else if IsNumberText(d, s) then Ok([Token(NumberLit, s, n, 0)])
    else Err(TypeError)
  }

  /** The tokens of an array literal `s`: the opening token, the elements'
      tokens and the closing token. */
  function ArrayTokens(d: Dialect, s: string, n: nat, bound: nat): (r: Result<seq<Token>>)
    requires StartsWith(s, "<|") && EndsWith(s, "|>") && |s| <= bound
    ensures r.Ok? ==> |r.value| >= 2 && AllValueKinds(r.value) && r.value[0].kind == ArrayStart
    ensures r.Err? ==> r.error == TypeError || (r.error == Crash && d != Cpp)
    decreases bound, 1, 0
  {
    assert s[0] == '<' by { assert s[..2] == "<|"; }
    assert s[|s| - 2] == '|' by { assert s[|s| - 2 + 0] == "|>"[0]; }
    if d != Cpp && |s| < 4 then Err(Crash)                    // slice [2..1] of "<|>"
    else
      var inner :- SegmentsTokens(d, ArraySegments(d, s), n, bound);
      var ts := [Marker(ArrayStart, n)] + inner + [Marker(ArrayEnd, n)];
      assert forall i :: 0 < i < |ts| - 1 ==> ts[i] == inner[i - 1];
      Ok(ts)
  }

  /** Every segment is shorter than `bound`, the measure under which the
      value lexer recurses into the segments of an array. */
  predicate ShorterThan(segs: seq<string>, bound: nat)
  {
    forall i :: 0 <= i < |segs| ==> |segs[i]| < bound
  }

  /** The tokens of the array elements `segs`, left to right, with a comma
      between consecutive elements; the first failing element decides. */
  function SegmentsTokens(d: Dialect, segs: seq<string>, n: nat, bound: nat): (r: Result<seq<Token>>)
    requires ShorterThan(segs, bound)
    ensures r.Ok? ==> AllValueKinds(r.value)
    ensures r.Err? ==> r.error == TypeError || (r.error == Crash && d != Cpp)
    decreases bound, 0, |segs|
  {
    if segs == [] then Ok([])
    else
      var prev :- SegmentsTokens(d, segs[..|segs| - 1], n, bound);
      var cur :- ValueTokens(d, segs[|segs| - 1], n);
      var ts := prev + (if |segs| > 1 then [Marker(Comma, n)] else []) + cur;
      assert forall i :: |ts| - |cur| <= i < |ts| ==> ts[i] == cur[i - (|ts| - |cur|)];
      Ok(ts)
  }

  // ---------------------------------------------------------------------
  // Lines

  datatype KeyValue = KeyValue(key: string, value: string)

  /** Length of the key the regex captures: `[a-zA-Z0-9_]+` in C++ and Go,
      `[a-zA-Z_][a-zA-Z0-9_]*` in Rust; 0 when there is none. */
  function KeyLength(d: Dialect, line: string): (k: nat)
    ensures k <= |line|
    ensures forall i :: 0 <= i < k ==> IsWordChar(line[i])
    ensures k > 0 && d == Rust ==> !IsDigit(line[0])
  {
    if d == Rust && |line| > 0 && IsDigit(line[0]) then 0
    else LeadingCountIn(line, WordChar); LeadingCount(line, WordChar)
  }

  /** The match of `(~+>) \s*` at index `p` of a line: the index where the
      value starts, or nothing when no arrow stands there. */
  function ArrowEnd(d: Dialect, line: string, p: nat): (r: Option<nat>)
    requires p <= |line|
    ensures r.Some? ==> p + 2 <= r.value <= |line|
    ensures r.Some? && r.value < |line| ==> !In(RegexSpace(d), line[r.value])
  {
    var t := RunFrom(line, Tilde, p);
    var q := p + t;                                         // where '>' must be
    if t == 0 || q >= |line| || line[q] != '>' then None
    else Some(q + 1 + RunFrom(line, RegexSpace(d), q + 1))  // after the second \s*
  }

  /** The match of `^key \s* (~+>) \s* (.*)$` against a whole line, with the
      key and the value it captures. Every part is matched as long as
      possible; a shorter part never lets a failed match succeed. */
  function ScanKeyValue(d: Dialect, line: string): (r: Option<KeyValue>)
    ensures r.Some? ==>
      var key := r.value.key;
      var value := r.value.value;
      0 < |key| && |key| + 2 + |value| <= |line| &&
      key == line[..|key|] && value == line[|line| - |value|..] &&
      (forall i :: 0 <= i < |key| ==> IsWordChar(key[i])) &&
      (d == Rust ==> !IsDigit(key[0])) &&
      AllIn(value, RegexDot(d)) && (value == [] || !In(RegexSpace(d), value[0]))
  {
    var k := KeyLength(d, line);
    var arrow := ArrowEnd(d, line, k + RunFrom(line, RegexSpace(d), k));  // after the first \s*
    if k == 0 || arrow.None? then None
    else
      var value := line[arrow.value..];
      if AllIn(value, RegexDot(d)) then Some(KeyValue(line[..k], value))
      else None
  }

  /** The three evolution-stage markers. */
  function StageMarker(stage: nat): string
    requires 1 <= stage <= 3
  {
    if stage == 1 then "(o)" else if stage == 2 then "(O)" else "(@)"
  }

  predicate IsSectionLine(line: string, stage: nat)
    requires 1 <= stage <= 3
  {
    StartsWith(line, StageMarker(stage) + " ") && EndsWith(line, " " + StageMarker(stage))
  }

  /** The first stage whose markers enclose the line, 0 when none does. */
  function SectionStage(line: string): (stage: nat)
    ensures stage <= 3
    ensures stage > 0 ==> IsSectionLine(line, stage)
    ensures stage == 0 <==> !IsSectionLine(line, 1) && !IsSectionLine(line, 2) && !IsSectionLine(line, 3)
  {
    if IsSectionLine(line, 1) then 1
    else if IsSectionLine(line, 2) then 2
    else if IsSectionLine(line, 3) then 3
    else 0
  }

  /** The section name between the markers. Below 8 characters the markers
      overlap ("(o) (o)"): C++ `substr` clamps its wrapped count and keeps
      everything after the opening marker, Go and Rust panic. */
  function SectionName(d: Dialect, line: string): Result<string>
    requires |line| >= 4
  {
    if |line| >= 8 then Ok(line[4..|line| - 4])
    else if d == Cpp then Ok(line[4..])
    else Err(Crash)
  }

  /** The tokens after a line's indent: a section header of stage 1 to 3, or
      a key, the arrow and the tokens of a value. */
  predicate IsLineBody(ts: seq<Token>)
  {
    (|ts| == 3 && ts[0].kind == SectionOpen && 1 <= ts[0].level <= 3 &&
     ts[1].kind == Identifier && ts[2].kind == SectionClose && ts[2].level == ts[0].level) ||
    (|ts| >= 2 && ts[0].kind == Identifier && ts[1].kind == VineWhip &&
     AllValueKinds(ts[2..]) && StartsValue(ts[2..]))
  }

  lemma LineBodyInBody(ts: seq<Token>)
    requires IsLineBody(ts)
    ensures InBody(ts)
  {
    if ts[0].kind == Identifier {
      forall i | 2 <= i < |ts|
        ensures ts[i].kind != Header && ts[i].kind != Eof
      {
        assert ts[i] == ts[2..][i - 2];
      }
    }
  }

  /** The tokens after the indent of a trimmed, non-empty line
      (`tokenizeLine` / `tokenize_line`). Rust records the stage as the level
      of the section name; C++ and Go leave it 0. */
  function LineBodyTokens(d: Dialect, line: string, n: nat): (r: Result<seq<Token>>)
    ensures r.Ok? ==> IsLineBody(r.value)
    ensures r.Err? ==> r.error == SyntaxError || r.error == TypeError || (r.error == Crash && d != Cpp)
  {
    var stage := SectionStage(line);
    if stage > 0 then
      var name :- SectionName(d, line);
      Ok([Token(SectionOpen, "", n, stage),
          Token(Identifier, name, n, if d == Rust then stage else 0),
          Token(SectionClose, "", n, stage)])
    else
      match ScanKeyValue(d, line)
      case None => Err(SyntaxError)
      case Some(kv) =>
        var value :- ValueTokens(d, kv.value, n);
        assert AllValueKinds(value) && StartsValue(value);
        var ts := [Token(Identifier, kv.key, n, 0), Marker(VineWhip, n)] + value;
        assert ts[2..] == value;
        Ok(ts)
  }

  function DropTrailingCR(s: string): (r: string)
    ensures r == s || (s == r + "\r")
  {
    if |s| > 0 && s[|s| - 1] == '\r' then s[..|s| - 1] else s
  }

  /** The line up to the first comment marker. */
  function StripComment(s: string): (r: string)
    ensures |r| <= |s| && r == s[..|r|]
  {
    match Find(s, CommentMarker)
    case Some(p) => s[..p]
    case None => s
  }

  /** A body line without its comment; C++ first drops the carriage return
      `std::getline` leaves in place. */
  function Code(d: Dialect, raw: string): string
  {
    StripComment(if d == Cpp then DropTrailingCR(raw) else raw)
  }

  /** Whether the first character after the leading spaces is a tab (the
      C++ indentation scan). */
  predicate LeadingTab(l: string)
  {
    var k := LeadingCount(l, Space);
    k < |l| && l[k] == '\t'
  }

  /** The indentation a line is measured by: leading spaces in C++ and Go;
      in Rust the UTF-8 byte length of the leading white space. */
  function IndentWidth(d: Dialect, l: string): nat
  {
    if d == Rust then Utf8Width(l[..LeadingCount(l, RustIndent)]) else LeadingCount(l, Space)
  }

  /** A line body behind its indent token. */
  function Indented(n: nat, level: nat, body: seq<Token>): (ts: seq<Token>)
    requires IsLineBody(body)
    ensures ts != [] && ts[0].kind == Indent && ts[0].line == n && ts[0].level == level
    ensures ts[1..] == body && InBody(ts)
  {
    var ts := [Token(Indent, "", n, level)] + body;
    assert ts[1..] == body;
    LineBodyInBody(body);
    assert forall i :: 1 <= i < |ts| ==> ts[i] == body[i - 1];
    ts
  }

  /** The tokens of a non-blank code line `l` whose line ends are already
      trimmed: the indentation checks, then the indent token and the body. */
  function IndentedTokens(d: Dialect, l: string, n: nat): (r: Result<seq<Token>>)
    ensures r.Ok? ==> r.value != [] && r.value[0] == Token(Indent, "", n, IndentWidth(d, l) / 4)
    ensures r.Ok? ==> IsLineBody(r.value[1..]) && InBody(r.value)
    ensures r == Err(TabError) <==> d == Cpp && LeadingTab(l)
    ensures r == Err(IndentationError) <==> !(d == Cpp && LeadingTab(l)) && IndentWidth(d, l) % 4 != 0
    ensures r.Err? ==> r.error != HeaderError
  {
    if d == Cpp && LeadingTab(l) then Err(TabError)
    else if IndentWidth(d, l) % 4 != 0 then Err(IndentationError)
    else
      var body :- LineBodyTokens(d, TrimText(d, l), n);
      Ok(Indented(n, IndentWidth(d, l) / 4, body))
  }

  /** The tokens of body line number `n` (`tokenize`'s loop body): none for a
      line that is blank once its comment is gone, otherwise an indent token
      followed by the line's own tokens. */
  function LineTokens(d: Dialect, raw: string, n: nat): (r: Result<seq<Token>>)
    ensures r.Ok? ==> (r.value == [] ||
      (r.value[0].kind == Indent && r.value[0].line == n && IsLineBody(r.value[1..])))
    ensures r.Ok? ==> InBody(r.value)
    ensures r.Err? ==> r.error != HeaderError
  {
    var code := Code(d, raw);
    if d != Cpp && '\t' in code then Err(TabError)
    else
      var l := TrimRightBy(code, LineEndSpace(d));
      if l == [] then Ok([])
      else IndentedTokens(d, l, n)
  }

  /** The header line as the header check sees it. */
  function FirstLine(d: Dialect, raw: string): string
  {
    if d == Cpp then DropTrailingCR(raw) else raw
  }

  /** The tokens of lines 2..k (indices 1..k-1), in order. */
  function BodyTokens(d: Dialect, lines: seq<string>, k: nat): (r: Result<seq<Token>>)
    requires 1 <= k <= |lines|
    ensures r.Ok? ==> InBody(r.value)
    ensures r.Err? ==> r.error != HeaderError
    decreases k
  {
    if k == 1 then Ok([])
    else
      var prev :- BodyTokens(d, lines, k - 1);
      var cur :- LineTokens(d, lines[k - 1], k);
      InBodyAppend(prev, cur);
      Ok(prev + cur)
  }

  /** The whole lexer (`tokenize` / `Lex` / `lex`): the header token, every
      body line's tokens, and an end-of-file token carrying the number of
      lines. An empty document yields only the end-of-file token. */
  function Lex(d: Dialect, lines: seq<string>): Result<seq<Token>>
  {
    if lines == [] then Ok([Marker(Eof, 0)])
    else if FirstLine(d, lines[0]) != HeaderLine then Err(HeaderError)
    else
      var body :- BodyTokens(d, lines, |lines|);
      Ok([Token(Header, HeaderLine, 1, 0)] + body + [Marker(Eof, |lines|)])
  }
}
