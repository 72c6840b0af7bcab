/** The two stages together (`BSONParser::parse`, Go `Parse`, Rust `lex`
    followed by `parse`), and what the parser makes of what the lexer can
    produce. */
module Frontend {
  import opened Errors
  import opened Text
  import opened Numbers
  import opened Tokens
  import opened Lexical
  import opened Document
  import opened Structure
  import opened StructureProps
  import Tokenizer

  /** A document's tree: its lines lexed, then the tokens parsed. */
  function Parse(d: Dialect, lines: seq<string>): Result<map<string, Value>>
  {
    var ts :- Lex(d, lines);
    ParseTokens(d, ts)
  }

  // ---------------------------------------------------------------------
  // Where a failure comes from

  /** A lexer failure is returned unchanged before any tree is built; the
      header and tab failures come from the lexer and from nowhere else. */
  lemma {:induction false} FailureSource(d: Dialect, lines: seq<string>)
    ensures Lex(d, lines).Err? ==> Parse(d, lines) == Err(Lex(d, lines).error)
    ensures Parse(d, lines) == Err(HeaderError) <==> Lex(d, lines) == Err(HeaderError)
    ensures Parse(d, lines) == Err(TabError) <==> Lex(d, lines) == Err(TabError)
    ensures Lex(d, lines).Ok? ==> Parse(d, lines) == ParseTokens(d, Lex(d, lines).value)
  {
  }

  /** It burns the bulb: no map of a parsed document, at any depth, holds
      the reserved key. */
  lemma {:induction false} DocumentKeyFree(d: Dialect, lines: seq<string>)
    requires Parse(d, lines).Ok?
    ensures KeyFree(Object(Parse(d, lines).value), ReservedKey)
  {
    NoReservedKey(d, Lex(d, lines).value);
  }

  // ---------------------------------------------------------------------
  // Stages

  lemma {:induction false} StagesAppend(a: seq<Token>, b: seq<Token>)
    requires StagesBounded(a) && StagesBounded(b)
    ensures StagesBounded(a + b)
  {
    assert forall k :: |a| <= k < |a + b| ==> (a + b)[k] == b[k - |a|];
  }

  /** A line's tokens open sections of stage 1 to 3 only. */
  lemma {:induction false} LineStages(d: Dialect, raw: string, n: nat)
    requires LineTokens(d, raw, n).Ok?
    ensures StagesBounded(LineTokens(d, raw, n).value)
  {
    IndentedStages(LineTokens(d, raw, n).value);
  }

  /** The tokens of a line open sections of stage 1 to 3 only. */
  lemma {:induction false} IndentedStages(ts: seq<Token>)
    requires ts == [] || (ts[0].kind == Indent && IsLineBody(ts[1..]))
    ensures StagesBounded(ts)
  {
    if ts != [] {
      var body := ts[1..];
      assert forall k :: 1 <= k < |ts| ==> ts[k] == body[k - 1];
      if body[0].kind == Identifier {
        assert forall k :: 2 <= k < |body| ==> body[k] == body[2..][k - 2];
      }
    }
  }

  /** The lexer emits section stages 1 to 3 only (`(o)`, `(O)`, `(@)`). */
  lemma {:induction false} BodyStages(d: Dialect, lines: seq<string>, k: nat)
    requires 1 <= k <= |lines| && BodyTokens(d, lines, k).Ok?
    ensures StagesBounded(BodyTokens(d, lines, k).value)
    decreases k
  {
    if k > 1 {
      BodyStages(d, lines, k - 1);
      LineStages(d, lines[k - 1], k);
      StagesAppend(BodyTokens(d, lines, k - 1).value, LineTokens(d, lines[k - 1], k).value);
    }
  }

  lemma {:induction false} LexStages(d: Dialect, lines: seq<string>)
    requires Lex(d, lines).Ok?
    ensures StagesBounded(Lex(d, lines).value)
  {
    if lines != [] {
      var body := BodyTokens(d, lines, |lines|).value;
      BodyStages(d, lines, |lines|);
      StagesAppend([Token(Header, HeaderLine, 1, 0)], body);
      StagesAppend([Token(Header, HeaderLine, 1, 0)] + body, [Marker(Eof, |lines|)]);
    }
  }

  /** An assignment with nothing after the arrow: the value reader meets the
      next line's indent token, or the end-of-file token, and fails with the
      type failure. */
  lemma {:induction false} EmptyValue(d: Dialect, ts: seq<Token>, i: nat, e: nat, st: State)
    requires i + 2 < |ts| && Valid(st) && e <= st.level
    requires ts[i].kind == Identifier && ts[i].literal != ReservedKey && ts[i + 1].kind == VineWhip
    requires ts[i + 2].kind == Indent || ts[i + 2].kind == Eof
    ensures Assignment(d, ts, i, e, st) == Err(TypeError)
  {
  }
}
