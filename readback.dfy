/** What a value text stands for, and the parser's value reader reading
    back, from the tokens the value lexer wrote for a text, exactly that
    value (`tokenizeValue` then `parseValueFromTokens`, Go `tokenizeValue`
    then `parseValue`, Rust `tokenize_value` then `parse_value`). */
module ReadBack {
  import opened Errors
  import opened Text
  import opened Tokens
  import opened Lexical
  import opened Document
  import opened Structure
  import Tokenizer
  import Numbers

  // ---------------------------------------------------------------------
  // The value of a text

  /** The value a value text stands for, read off the trimmed text itself:
      the characters between the quotes, the three keywords, an array of
      the values of its segments that are not blank, or a number as the
      parser converts it. Go's parser may refuse a number its lexer took;
      every other failure is one of the lexer's. */
  function ValueOfText(d: Dialect, raw: string): Result<Value>
    decreases |raw|, 5
  {
    TrimmedValue(d, TrimText(d, raw), |raw|)
  }

  function TrimmedValue(d: Dialect, s: string, bound: nat): Result<Value>
    requires |s| <= bound
    decreases bound, 3
  {
    if StartsWith(s, "\"") && EndsWith(s, "\"") then
      if |s| >= 2 then Ok(Str(s[1..|s| - 1]))
      else if d == Cpp then Ok(Str(""))
      else Err(Crash)
    else if s == "SuperEffective" then Ok(Bool(true))
    else if s == "NotVeryEffective" then Ok(Bool(false))
    else if s == "MissingNo" then Ok(Null)
    else if StartsWith(s, "<|") && EndsWith(s, "|>") then ArrayValue(d, s, bound)
    else if IsNumberText(d, s) then NumberValue(d, s)
    else Err(TypeError)
  }

  /** An array text: the values of its segments, in order. */
  function ArrayValue(d: Dialect, s: string, bound: nat): Result<Value>
    requires StartsWith(s, "<|") && EndsWith(s, "|>") && |s| <= bound
    decreases bound, 2
  {
    assert s[0] == '<' by { assert s[..2] == "<|"; }
    assert s[|s| - 2] == '|' by { assert s[|s| - 2 + 0] == "|>"[0]; }
    if d != Cpp && |s| < 4 then Err(Crash)
    else
      var segs := ArraySegments(d, s);
      ArrayOf(ElementValues(d, segs, |segs|, bound))
  }

  function ArrayOf(r: Result<seq<Value>>): Result<Value>
  {
    match r
    case Ok(vs) => Ok(Array(vs))
    case Err(e) => Err(e)
  }

  /** The values of the first `k` segments, blank ones skipped; the first
      segment that fails decides. */
  function ElementValues(d: Dialect, segs: seq<string>, k: nat, bound: nat): Result<seq<Value>>
    requires k <= |segs| && ShorterThan(segs, bound)
    decreases bound, 1, k
  {
    if k == 0 then Ok([])
    else Then(ElementValues(d, segs, k - 1, bound), SegmentValue(d, segs[k - 1]))
  }

  /** The values one segment adds to its array: none when it is blank. */
  function SegmentValue(d: Dialect, seg: string): Result<seq<Value>>
    decreases |seg|, 6
  {
    if TrimText(d, seg) == [] then Ok([]) else Single(ValueOfText(d, seg))
  }

  /** Two results of reading elements, one after the other. */
  function Then(r1: Result<seq<Value>>, r2: Result<seq<Value>>): Result<seq<Value>>
  {
    match r1
    case Err(e) => Err(e)
    case Ok(a) =>
      match r2
      case Err(e) => Err(e)
      case Ok(b) => Ok(a + b)
  }

  // ---------------------------------------------------------------------
  // Where the tokens stand

  /** The tokens `vs` sit in `ts` from index `j` on. */
  predicate TokensAt(ts: seq<Token>, j: nat, vs: seq<Token>)
  {
    j + |vs| <= |ts| && forall k :: j <= k < j + |vs| ==> At(ts, k) == vs[k - j]
  }

  /** The token at index `k`: the positions `TokensAt` speaks of. */
  function At(ts: seq<Token>, k: nat): Token
    requires k < |ts|
  {
    ts[k]
  }

  predicate AllPlain(vs: seq<Value>)
  {
    forall k :: 0 <= k < |vs| ==> IsPlain(vs[k])
  }

  lemma {:induction false} PlainAppend(a: seq<Value>, b: seq<Value>)
    requires AllPlain(a) && AllPlain(b)
    ensures AllPlain(a + b)
  {
    assert forall k :: |a| <= k < |a + b| ==> (a + b)[k] == b[k - |a|];
  }

  // ---------------------------------------------------------------------
  // The value reader reads back what the value lexer wrote

  /** The value reader, started at index `j`, returns what `r` says: its
      value, read from exactly `len` tokens, or its failure, which only Go
      can meet (a type failure), because its lexer takes numbers its parser
      refuses. */
  predicate ReadsAs(d: Dialect, ts: seq<Token>, j: nat, len: nat, r: Result<Value>)
  {
    match r
    case Ok(v) => ParseValue(d, ts, j) == Ok(Parsed(v, j + len))
    case Err(e) => ParseValue(d, ts, j) == Err(e) && d == Go && e == TypeError
  }

  /** The tokens of a value text, wherever they stand, are read back as the
      value of the text, ending where they end; only Go's reader can refuse
      them, with the type failure, and then the text has no value. */
  lemma {:induction false} ValueRead(d: Dialect, raw: string, n: nat, ts: seq<Token>, j: nat)
    requires ValueTokens(d, raw, n).Ok? && ValueTokens(d, raw, n).value != []
    requires TokensAt(ts, j, ValueTokens(d, raw, n).value)
    ensures ValueOfText(d, raw).Ok? ==>
      ParseValue(d, ts, j) == Ok(Parsed(ValueOfText(d, raw).value, j + |ValueTokens(d, raw, n).value|))
    ensures ValueOfText(d, raw).Err? ==> d == Go && ParseValue(d, ts, j) == Err(TypeError)
    ensures d != Go ==> ValueOfText(d, raw).Ok?
  {
    ValueReadBack(d, raw, n, ts, j);
  }

  /** A number text the C++ or Rust lexer accepts converts in the parser. */
  lemma {:induction false} LexedNumberConverts(d: Dialect, s: string)
    requires IsNumberText(d, s)
    ensures d != Go ==> NumberValue(d, s).Ok?
    ensures NumberValue(d, s).Err? ==> NumberValue(d, s) == Err(TypeError)
  {
    if d == Cpp {
      Numbers.StoiIsStod(s);
    }
  }

  lemma {:induction false} ValueReadBack(d: Dialect, raw: string, n: nat, ts: seq<Token>, j: nat)
    requires ValueTokens(d, raw, n).Ok? && ValueTokens(d, raw, n).value != []
    requires TokensAt(ts, j, ValueTokens(d, raw, n).value)
    ensures ReadsAs(d, ts, j, |ValueTokens(d, raw, n).value|, ValueOfText(d, raw))
    decreases |raw|, 5
  {
    TrimmedReadBack(d, TrimText(d, raw), n, |raw|, ts, j);
  }

  lemma {:induction false} TrimmedReadBack(d: Dialect, s: string, n: nat, bound: nat, ts: seq<Token>, j: nat)
    requires |s| <= bound
    requires TrimmedValueTokens(d, s, n, bound).Ok? && TrimmedValueTokens(d, s, n, bound).value != []
    requires TokensAt(ts, j, TrimmedValueTokens(d, s, n, bound).value)
    ensures ReadsAs(d, ts, j, |TrimmedValueTokens(d, s, n, bound).value|, TrimmedValue(d, s, bound))
    decreases bound, 4
  {
    if IsArrayText(s) {
      ArrayReadBack(d, s, n, bound, ts, j);
    } else {
      ScalarReadBack(d, s, n, bound, ts, j);
    }
  }

  predicate IsArrayText(s: string)
  {
    !(StartsWith(s, "\"") && EndsWith(s, "\"")) &&
    s != "SuperEffective" && s != "NotVeryEffective" && s != "MissingNo" &&
    StartsWith(s, "<|") && EndsWith(s, "|>")
  }

  /** A value text other than an array yields one token, which the reader
      turns into the text's value on its own. */
  lemma {:induction false} ScalarReadBack(d: Dialect, s: string, n: nat, bound: nat, ts: seq<Token>, j: nat)
    requires |s| <= bound && !IsArrayText(s)
    requires TrimmedValueTokens(d, s, n, bound).Ok? && TrimmedValueTokens(d, s, n, bound).value != []
    requires TokensAt(ts, j, TrimmedValueTokens(d, s, n, bound).value)
    ensures ReadsAs(d, ts, j, |TrimmedValueTokens(d, s, n, bound).value|, TrimmedValue(d, s, bound))
  {
    if StartsWith(s, "\"") && EndsWith(s, "\"") {
      QuotedReadBack(d, s, n, bound, ts, j);
    } else if s == "SuperEffective" || s == "NotVeryEffective" || s == "MissingNo" {
      KeywordReadBack(d, s, n, bound, ts, j);
    } else {
      NumberReadBack(d, s, n, bound, ts, j);
    }
  }

  lemma {:induction false} QuotedReadBack(d: Dialect, s: string, n: nat, bound: nat, ts: seq<Token>, j: nat)
    requires |s| <= bound && StartsWith(s, "\"") && EndsWith(s, "\"")
    requires TrimmedValueTokens(d, s, n, bound).Ok?
    requires TokensAt(ts, j, TrimmedValueTokens(d, s, n, bound).value)
    ensures ReadsAs(d, ts, j, |TrimmedValueTokens(d, s, n, bound).value|, TrimmedValue(d, s, bound))
  {
    var lit := if |s| >= 2 then s[1..|s| - 1] else "";
    assert TrimmedValueTokens(d, s, n, bound) == Ok([Token(StringLit, lit, n, 0)]);
    assert TrimmedValue(d, s, bound) == Ok(Str(lit));
    assert At(ts, j) == Token(StringLit, lit, n, 0);
  }

  lemma {:induction false} KeywordReadBack(d: Dialect, s: string, n: nat, bound: nat, ts: seq<Token>, j: nat)
    requires |s| <= bound && !(StartsWith(s, "\"") && EndsWith(s, "\""))
    requires s == "SuperEffective" || s == "NotVeryEffective" || s == "MissingNo"
    requires TokensAt(ts, j, TrimmedValueTokens(d, s, n, bound).value)
    ensures ReadsAs(d, ts, j, |TrimmedValueTokens(d, s, n, bound).value|, TrimmedValue(d, s, bound))
  {
    var t := if s == "SuperEffective" then Token(BoolLit, "true", n, 0)
      else if s == "NotVeryEffective" then Token(BoolLit, "false", n, 0)
      else Marker(NullLit, n);
    assert TrimmedValueTokens(d, s, n, bound) == Ok([t]);
    assert At(ts, j) == t;
  }

  lemma {:induction false} NumberReadBack(d: Dialect, s: string, n: nat, bound: nat, ts: seq<Token>, j: nat)
    requires |s| <= bound && !(StartsWith(s, "\"") && EndsWith(s, "\""))
    requires s != "SuperEffective" && s != "NotVeryEffective" && s != "MissingNo"
    requires !(StartsWith(s, "<|") && EndsWith(s, "|>"))
    requires TrimmedValueTokens(d, s, n, bound).Ok? && TrimmedValueTokens(d, s, n, bound).value != []
    requires TokensAt(ts, j, TrimmedValueTokens(d, s, n, bound).value)
    ensures ReadsAs(d, ts, j, |TrimmedValueTokens(d, s, n, bound).value|, TrimmedValue(d, s, bound))
  {
    assert IsNumberText(d, s);
    assert TrimmedValueTokens(d, s, n, bound) == Ok([Token(NumberLit, s, n, 0)]);
    assert TrimmedValue(d, s, bound) == NumberValue(d, s);
    assert At(ts, j) == Token(NumberLit, s, n, 0);
    LexedNumberConverts(d, s);
  }

  lemma {:induction false} ArrayReadBack(d: Dialect, s: string, n: nat, bound: nat, ts: seq<Token>, j: nat)
    requires StartsWith(s, "<|") && EndsWith(s, "|>") && |s| <= bound
    requires ArrayTokens(d, s, n, bound).Ok?
    requires TokensAt(ts, j, ArrayTokens(d, s, n, bound).value)
    ensures ReadsAs(d, ts, j, |ArrayTokens(d, s, n, bound).value|, ArrayValue(d, s, bound))
    decreases bound, 3
  {
    Tokenizer.ArrayTokensUnfold(d, s, n, bound);
    SegmentsReadBack(d, ArraySegments(d, s), n, bound, ts, j, |ArrayTokens(d, s, n, bound).value|);
  }

  /** The brackets around the element tokens of the segments `segs` are
      read back as the array of the segments' values. */
  lemma {:induction false} SegmentsReadBack(d: Dialect, segs: seq<string>, n: nat, bound: nat,
                                           ts: seq<Token>, j: nat, len: nat)
    requires ShorterThan(segs, bound)
    requires SegmentsTokens(d, segs, n, bound).Ok?
    requires TokensAt(ts, j, [Marker(ArrayStart, n)] + SegmentsTokens(d, segs, n, bound).value + [Marker(ArrayEnd, n)])
    requires len == |SegmentsTokens(d, segs, n, bound).value| + 2
    ensures ReadsAs(d, ts, j, len, ArrayOf(ElementValues(d, segs, |segs|, bound)))
    decreases bound, 2
  {
    var parts := SegmentsJoin(d, segs, n, bound);
    BracketsAt(ts, j, JoinParts(parts, n, |parts|), n);
    JoinReadBack(d, segs, n, bound, parts, ts, j, len);
  }

  /** The brackets around the join of the elements' tokens, `parts`, are
      read back as the array of the segments' values. */
  lemma {:induction false} JoinReadBack(d: Dialect, segs: seq<string>, n: nat, bound: nat,
                                       parts: seq<seq<Token>>, ts: seq<Token>, j: nat, len: nat)
    requires PartsOf(d, segs, n, parts) && ShorterThan(segs, bound)
    requires TokensAt(ts, j, [Marker(ArrayStart, n)]) && TokensAt(ts, j + 1, JoinParts(parts, n, |parts|))
    requires TokensAt(ts, j + 1 + |JoinParts(parts, n, |parts|)|, [Marker(ArrayEnd, n)])
    requires len == |JoinParts(parts, n, |parts|)| + 2
    ensures ReadsAs(d, ts, j, len, ArrayOf(ElementValues(d, segs, |segs|, bound)))
    decreases bound, 1
  {
    var rs := TextValues(d, segs);
    PartsReadBack(d, segs, n, bound, parts, ts, j + 1);
    assert ValuesOf(d, segs, rs);
    BracketsRead(d, ts, j, parts, rs, n);
    CollectValues(d, segs, bound, parts, rs, |segs|);
  }

  /** Each element's tokens, where they stand in the join, are read back as
      the value of its segment, and there are none for a blank segment. */
  lemma {:induction false} PartsReadBack(d: Dialect, segs: seq<string>, n: nat, bound: nat,
                                        parts: seq<seq<Token>>, ts: seq<Token>, j: nat)
    requires PartsOf(d, segs, n, parts) && ShorterThan(segs, bound)
    requires TokensAt(ts, j, JoinParts(parts, n, |parts|))
    ensures PartsRead(d, ts, j, parts, TextValues(d, segs), n) && BlanksOf(d, segs, parts)
    decreases bound, 0, 1
  {
    var rs := TextValues(d, segs);
    forall i | 0 <= i < |parts|
      ensures PartReads(d, ts, j + PartStart(parts, n, i), parts[i], rs[i])
      ensures parts[i] == [] <==> TrimText(d, segs[i]) == []
    {
      PartAtReadBack(d, segs, n, bound, parts, ts, j, i);
    }
  }

  lemma {:induction false} PartAtReadBack(d: Dialect, segs: seq<string>, n: nat, bound: nat,
                                         parts: seq<seq<Token>>, ts: seq<Token>, j: nat, i: nat)
    requires PartsOf(d, segs, n, parts) && ShorterThan(segs, bound)
    requires TokensAt(ts, j, JoinParts(parts, n, |parts|)) && i < |parts|
    ensures PartReads(d, ts, j + PartStart(parts, n, i), parts[i], ValueOfText(d, segs[i]))
    ensures parts[i] == [] <==> TrimText(d, segs[i]) == []
    decreases bound, 0, 0
  {
    PartAt(ts, j, parts, n, i);
    PartReadBack(d, segs[i], n, parts[i], ts, j + PartStart(parts, n, i));
  }

  /** The tokens `part` placed at `pos` are read back as `r`, unless there
      are none. */
  predicate PartReads(d: Dialect, ts: seq<Token>, pos: nat, part: seq<Token>, r: Result<Value>)
  {
    part != [] ==> StartsValue(part) && ReadsAs(d, ts, pos, |part|, r)
  }

  /** One element's tokens, where they stand, are read back as the value of
      its segment; there are none exactly when the segment is blank. */
  lemma {:induction false} PartReadBack(d: Dialect, seg: string, n: nat, part: seq<Token>, ts: seq<Token>, pos: nat)
    requires ValueTokens(d, seg, n) == Ok(part)
    requires TokensAt(ts, pos, part)
    ensures PartReads(d, ts, pos, part, ValueOfText(d, seg))
    ensures part == [] <==> TrimText(d, seg) == []
    decreases |seg|, 6
  {
    BlankValueTokens(d, seg, n);
    if part != [] {
      ValueReadBack(d, seg, n, ts, pos);
    }
  }

  /** The value lexer writes no token exactly for a blank text. */
  lemma {:induction false} BlankValueTokens(d: Dialect, raw: string, n: nat)
    requires ValueTokens(d, raw, n).Ok?
    ensures ValueTokens(d, raw, n).value == [] <==> TrimText(d, raw) == []
  {
  }

  /** Each element's tokens, `parts[i]`, placed where they stand in the
      join at `j`, are read back as `rs[i]`. */
  predicate PartsRead(d: Dialect, ts: seq<Token>, j: nat, parts: seq<seq<Token>>, rs: seq<Result<Value>>, n: nat)
  {
    |rs| == |parts| &&
    forall i {:trigger PartStart(parts, n, i)} :: 0 <= i < |parts| ==>
      PartReads(d, ts, j + PartStart(parts, n, i), parts[i], rs[i])
  }

  /** The element `parts[i]` has no token exactly when segment `i` is
      blank. */
  predicate BlanksOf(d: Dialect, segs: seq<string>, parts: seq<seq<Token>>)
  {
    |segs| == |parts| &&
    forall i {:trigger TrimText(d, segs[i])} :: 0 <= i < |segs| ==> (parts[i] == [] <==> TrimText(d, segs[i]) == [])
  }

  /** The values of the segments, one by one. */
  function TextValues(d: Dialect, segs: seq<string>): (rs: seq<Result<Value>>)
    ensures |rs| == |segs| && forall i :: 0 <= i < |segs| ==> rs[i] == ValueOfText(d, segs[i])
  {
    seq(|segs|, i requires 0 <= i < |segs| => ValueOfText(d, segs[i]))
  }

  /** What the element loop collects from the first `k` elements, `rs[i]`
      standing for what element `i` is read as. */
  function Collect(parts: seq<seq<Token>>, rs: seq<Result<Value>>, k: nat): Result<seq<Value>>
    requires k <= |parts| && |rs| == |parts|
  {
    if k == 0 then Ok([])
    else Then(Collect(parts, rs, k - 1), StepValue(parts[k - 1], rs[k - 1]))
  }

  /** What one element adds: nothing when it has no token, else its value
      or its failure. */
  function StepValue(cur: seq<Token>, r: Result<Value>): Result<seq<Value>>
  {
    if cur == [] then Ok([]) else Single(r)
  }

  function Single(r: Result<Value>): Result<seq<Value>>
  {
    match r
    case Ok(v) => Ok([v])
    case Err(e) => Err(e)
  }

  /** What the element loop collects is the values of the segments. */
  lemma {:induction false} CollectValues(d: Dialect, segs: seq<string>, bound: nat,
                                        parts: seq<seq<Token>>, rs: seq<Result<Value>>, k: nat)
    requires ShorterThan(segs, bound) && BlanksOf(d, segs, parts) && ValuesOf(d, segs, rs)
    requires k <= |segs|
    ensures Collect(parts, rs, k) == ElementValues(d, segs, k, bound)
    decreases k
  {
    if k == 0 {
      CollectNone(d, segs, bound, parts, rs);
    } else {
      CollectValues(d, segs, bound, parts, rs, k - 1);
      CollectStep(d, segs, bound, parts, rs, k);
    }
  }

  /** `rs[i]` is the value of segment `i`. */
  predicate ValuesOf(d: Dialect, segs: seq<string>, rs: seq<Result<Value>>)
  {
    |rs| == |segs| && forall i {:trigger ValueOfText(d, segs[i])} :: 0 <= i < |segs| ==> rs[i] == ValueOfText(d, segs[i])
  }

  lemma {:induction false} SegmentStep(d: Dialect, segs: seq<string>, parts: seq<seq<Token>>,
                                      rs: seq<Result<Value>>, i: nat)
    requires BlanksOf(d, segs, parts) && ValuesOf(d, segs, rs) && i < |segs|
    ensures StepValue(parts[i], rs[i]) == SegmentValue(d, segs[i])
  {
    StepIsSegment(d, segs[i], parts[i], rs[i]);
  }

  /** What the element loop collects from one element is what its segment
      adds to the array. */
  lemma {:induction false} StepIsSegment(d: Dialect, seg: string, cur: seq<Token>, r: Result<Value>)
    requires (cur == [] <==> TrimText(d, seg) == []) && r == ValueOfText(d, seg)
    ensures StepValue(cur, r) == SegmentValue(d, seg)
  {
  }

  lemma {:induction false} ElementValuesNext(d: Dialect, segs: seq<string>, bound: nat, k: nat)
    requires ShorterThan(segs, bound) && 0 < k <= |segs|
    ensures ElementValues(d, segs, k, bound) ==
      Then(ElementValues(d, segs, k - 1, bound), SegmentValue(d, segs[k - 1]))
  {
  }

  /** With no element, both collect nothing. */
  lemma {:induction false} CollectNone(d: Dialect, segs: seq<string>, bound: nat,
                                      parts: seq<seq<Token>>, rs: seq<Result<Value>>)
    requires ShorterThan(segs, bound) && |parts| == |rs|
    ensures Collect(parts, rs, 0) == ElementValues(d, segs, 0, bound)
  {
  }

  /** The loop and the array agree on `k` elements when they agree on the
      first `k - 1`. */
  lemma {:induction false} CollectStep(d: Dialect, segs: seq<string>, bound: nat,
                                      parts: seq<seq<Token>>, rs: seq<Result<Value>>, k: nat)
    requires ShorterThan(segs, bound) && BlanksOf(d, segs, parts) && ValuesOf(d, segs, rs)
    requires 0 < k <= |segs|
    requires Collect(parts, rs, k - 1) == ElementValues(d, segs, k - 1, bound)
    ensures Collect(parts, rs, k) == ElementValues(d, segs, k, bound)
  {
    SegmentStep(d, segs, parts, rs, k - 1);
    ElementValuesNext(d, segs, bound, k);
    CollectNext(parts, rs, k - 1, k);
    ThenEqual(Collect(parts, rs, k - 1), StepValue(parts[k - 1], rs[k - 1]),
              ElementValues(d, segs, k - 1, bound), SegmentValue(d, segs[k - 1]));
  }

  lemma ThenEqual(a: Result<seq<Value>>, b: Result<seq<Value>>, x: Result<seq<Value>>, y: Result<seq<Value>>)
    requires a == x && b == y
    ensures Then(a, b) == Then(x, y)
  {
  }

  lemma {:induction false} CollectNext(parts: seq<seq<Token>>, rs: seq<Result<Value>>, i: nat, k: nat)
    requires k == i + 1 && k <= |parts| == |rs|
    ensures Collect(parts, rs, k) == Then(Collect(parts, rs, i), StepValue(parts[i], rs[i]))
  {
  }

  /** An array's tokens, the brackets around the join of its elements'
      tokens, are read back as the array of what its elements are read as. */
  lemma {:induction false} BracketsRead(d: Dialect, ts: seq<Token>, j: nat, parts: seq<seq<Token>>,
                                       rs: seq<Result<Value>>, n: nat)
    requires TokensAt(ts, j, [Marker(ArrayStart, n)]) && TokensAt(ts, j + 1, JoinParts(parts, n, |parts|))
    requires TokensAt(ts, j + 1 + |JoinParts(parts, n, |parts|)|, [Marker(ArrayEnd, n)])
    requires PartsRead(d, ts, j + 1, parts, rs, n)
    ensures ReadsAs(d, ts, j, |JoinParts(parts, n, |parts|)| + 2, ArrayOf(Collect(parts, rs, |parts|)))
  {
    var c := j + 1 + |JoinParts(parts, n, |parts|)|;
    TokenAt(ts, j, Marker(ArrayStart, n));
    TokenAt(ts, c, Marker(ArrayEnd, n));
    ElementsRead(d, ts, j + 1, [], parts, rs, n, |parts|);
    ArrayBrackets(d, ts, j, c, Collect(parts, rs, |parts|), |JoinParts(parts, n, |parts|)| + 2);
  }

  /** The tokens of an array placed at `j`: the opening bracket, the
      element tokens `inner`, the closing bracket. */
  lemma {:induction false} BracketsAt(ts: seq<Token>, j: nat, inner: seq<Token>, n: nat)
    requires TokensAt(ts, j, [Marker(ArrayStart, n)] + inner + [Marker(ArrayEnd, n)])
    ensures TokensAt(ts, j, [Marker(ArrayStart, n)]) && TokensAt(ts, j + 1, inner)
    ensures TokensAt(ts, j + 1 + |inner|, [Marker(ArrayEnd, n)])
  {
    TokensAtSplit3(ts, j, [Marker(ArrayStart, n)], inner, [Marker(ArrayEnd, n)]);
  }

  lemma {:induction false} TokenAt(ts: seq<Token>, j: nat, t: Token)
    requires TokensAt(ts, j, [t])
    ensures j < |ts| && ts[j] == t
  {
    assert At(ts, j) == [t][0];
  }

  // ---------------------------------------------------------------------
  // The element tokens of an array

  /** The tokens of the elements of an array, `parts`, with a comma between
      consecutive ones. */
  function JoinParts(parts: seq<seq<Token>>, n: nat, k: nat): (r: seq<Token>)
    requires k <= |parts|
  {
    if k == 0 then []
    else JoinParts(parts, n, k - 1) + Sep(k - 1, n) + parts[k - 1]
  }

  /** The comma before element `i`: none before the first. */
  function Sep(i: nat, n: nat): seq<Token>
  {
    if i > 0 then [Marker(Comma, n)] else []
  }

  /** Where element `i` starts in the join. */
  function PartStart(parts: seq<seq<Token>>, n: nat, i: nat): nat
    requires i < |parts|
  {
    |JoinParts(parts, n, i)| + |Sep(i, n)|
  }

  /** The element tokens of an array are the join of the tokens of its
      segments, taken one by one. */
  lemma {:induction false} SegmentsJoin(d: Dialect, segs: seq<string>, n: nat, bound: nat)
    returns (parts: seq<seq<Token>>)
    requires ShorterThan(segs, bound)
    requires SegmentsTokens(d, segs, n, bound).Ok?
    ensures PartsOf(d, segs, n, parts) && SegmentsTokens(d, segs, n, bound).value == JoinParts(parts, n, |parts|)
    decreases |segs|
  {
    if segs == [] {
      return [];
    }
    var m := |segs| - 1;
    SegmentsSplit(d, segs, n, bound);
    var prev := SegmentsJoin(d, segs[..m], n, bound);
    var last := ValueTokens(d, segs[m], n).value;
    PartsOfSnoc(d, segs, n, prev, last);
    JoinSnoc(prev, last, n);
    parts := prev + [last];
  }

  /** The tokens of each segment, `parts[i]`, are those the value lexer
      writes for it. */
  predicate PartsOf(d: Dialect, segs: seq<string>, n: nat, parts: seq<seq<Token>>)
  {
    |parts| == |segs| && forall i {:trigger ValueTokens(d, segs[i], n)} :: 0 <= i < |segs| ==> ValueTokens(d, segs[i], n) == Ok(parts[i])
  }

  lemma {:induction false} PartsOfSnoc(d: Dialect, segs: seq<string>, n: nat, prev: seq<seq<Token>>, last: seq<Token>)
    requires segs != [] && PartsOf(d, segs[..|segs| - 1], n, prev)
    requires ValueTokens(d, segs[|segs| - 1], n) == Ok(last)
    ensures PartsOf(d, segs, n, prev + [last])
  {
    PartsOfPrefix(d, segs, n, prev, last);
  }

  /** The elements before the last keep their tokens. */
  lemma {:induction false} PartsOfPrefix(d: Dialect, segs: seq<string>, n: nat, prev: seq<seq<Token>>, last: seq<Token>)
    requires segs != [] && PartsOf(d, segs[..|segs| - 1], n, prev)
    ensures var parts := prev + [last];
      |parts| == |segs| && parts[|segs| - 1] == last &&
      forall i {:trigger ValueTokens(d, segs[i], n)} :: 0 <= i < |segs| - 1 ==> ValueTokens(d, segs[i], n) == Ok(parts[i])
  {
    var m := |segs| - 1;
    var parts := prev + [last];
    forall i | 0 <= i < m
      ensures ValueTokens(d, segs[i], n) == Ok(parts[i])
    {
      assert segs[..m][i] == segs[i] && parts[i] == prev[i];
    }
  }

  /** Adding an element to the join adds a comma, unless it is the first,
      and its tokens. */
  lemma {:induction false} JoinSnoc(prev: seq<seq<Token>>, last: seq<Token>, n: nat)
    ensures JoinParts(prev + [last], n, |prev| + 1) == JoinParts(prev, n, |prev|) + Sep(|prev|, n) + last
  {
    JoinExtend(prev, last, n, |prev|);
  }

  /** An element added at the end leaves the join of the first `k` as it
      was. */
  lemma {:induction false} JoinExtend(prev: seq<seq<Token>>, last: seq<Token>, n: nat, k: nat)
    requires k <= |prev|
    ensures JoinParts(prev + [last], n, k) == JoinParts(prev, n, k)
    decreases k
  {
    if k > 0 {
      JoinExtend(prev, last, n, k - 1);
      assert (prev + [last])[k - 1] == prev[k - 1];
    }
  }

  /** The join of the first `k` elements sits where the join of the first
      `m` does. */
  lemma {:induction false} JoinPrefixAt(ts: seq<Token>, j: nat, parts: seq<seq<Token>>, n: nat, k: nat, m: nat)
    requires k <= m <= |parts| && TokensAt(ts, j, JoinParts(parts, n, m))
    ensures TokensAt(ts, j, JoinParts(parts, n, k))
    decreases m
  {
    if k < m {
      TokensAtSplit3(ts, j, JoinParts(parts, n, m - 1), Sep(m - 1, n), parts[m - 1]);
      JoinPrefixAt(ts, j, parts, n, k, m - 1);
    }
  }

  /** Element `i` sits at its start in the join. */
  lemma {:induction false} PartAt(ts: seq<Token>, j: nat, parts: seq<seq<Token>>, n: nat, i: nat)
    requires i < |parts| && TokensAt(ts, j, JoinParts(parts, n, |parts|))
    ensures TokensAt(ts, j + PartStart(parts, n, i), parts[i])
  {
    JoinAt(ts, j, parts, n, i, i + 1);
  }

  /** Element `i` of the join placed at `j`: the comma before it unless it
      is the first, then its tokens, ending where the join of the first
      `k = i + 1` elements ends. */
  lemma {:induction false} JoinAt(ts: seq<Token>, j: nat, parts: seq<seq<Token>>, n: nat, i: nat, k: nat)
    requires k == i + 1 && k <= |parts| && TokensAt(ts, j, JoinParts(parts, n, |parts|))
    ensures TokensAt(ts, j + |JoinParts(parts, n, i)|, Sep(i, n)) &&
      TokensAt(ts, j + PartStart(parts, n, i), parts[i]) &&
      j + PartStart(parts, n, i) == j + |JoinParts(parts, n, i)| + |Sep(i, n)| &&
      j + |JoinParts(parts, n, k)| == j + PartStart(parts, n, i) + |parts[i]|
  {
    JoinPrefixAt(ts, j, parts, n, k, |parts|);
    TokensAtSplit3(ts, j, JoinParts(parts, n, i), Sep(i, n), parts[i]);
  }

  /** The element tokens of all segments: those of all but the last, a
      comma unless the last is also the first, the last one's tokens. */
  lemma {:induction false} SegmentsSplit(d: Dialect, segs: seq<string>, n: nat, bound: nat)
    requires segs != []
    requires ShorterThan(segs, bound)
    requires SegmentsTokens(d, segs, n, bound).Ok?
    ensures SegmentsTokens(d, segs[..|segs| - 1], n, bound).Ok?
    ensures ValueTokens(d, segs[|segs| - 1], n).Ok?
    ensures SegmentsTokens(d, segs, n, bound).value ==
      SegmentsTokens(d, segs[..|segs| - 1], n, bound).value +
      (if |segs| > 1 then [Marker(Comma, n)] else []) + ValueTokens(d, segs[|segs| - 1], n).value
  {
  }

  /** The sequence `a + b` sits at `j` exactly when `a` sits at `j` and `b`
      right after it. */
  lemma {:induction false} TokensAtSplit(ts: seq<Token>, j: nat, a: seq<Token>, b: seq<Token>)
    requires TokensAt(ts, j, a + b)
    ensures TokensAt(ts, j, a) && TokensAt(ts, j + |a|, b)
  {
    forall k | j <= k < j + |a|
      ensures At(ts, k) == a[k - j]
    {
      assert (a + b)[k - j] == a[k - j];
    }
    forall k | j + |a| <= k < j + |a| + |b|
      ensures At(ts, k) == b[k - (j + |a|)]
    {
      assert (a + b)[k - j] == b[k - (j + |a|)];
    }
  }

  /** The sequence `a + b + c` sits at `j` exactly when `a`, `b` and `c`
      sit there one after the other. */
  lemma {:induction false} TokensAtSplit3(ts: seq<Token>, j: nat, a: seq<Token>, b: seq<Token>, c: seq<Token>)
    requires TokensAt(ts, j, a + b + c)
    ensures TokensAt(ts, j, a) && TokensAt(ts, j + |a|, b) && TokensAt(ts, j + |a| + |b|, c)
  {
    TokensAtSplit(ts, j, a + b, c);
    TokensAtSplit(ts, j, a, b);
  }

  // ---------------------------------------------------------------------
  // The element loop

  /** The element loop, started at `j` with `acc` read before, comes to the
      state it has at `end` with the values of `r` read on top, or fails as
      `r` does, with Go's type failure. */
  predicate ReadsOn(d: Dialect, ts: seq<Token>, j: nat, acc: seq<Value>, end: nat, r: Result<seq<Value>>)
    requires AllPlain(acc)
  {
    match r
    case Ok(vs) =>
      AllPlain(vs) &&
      (PlainAppend(acc, vs);
       ParseElements(d, ts, j, acc) == ParseElements(d, ts, end, acc + vs))
    case Err(e) => ParseElements(d, ts, j, acc) == Err(e) && d == Go && e == TypeError
  }

  /** Reading the element tokens of `parts` placed at `j`, with `acc`
      read before, gets past the first `k` elements with what they are
      read as collected, or fails as the first failing element does. */
  lemma {:induction false} ElementsRead(d: Dialect, ts: seq<Token>, j: nat, acc: seq<Value>,
                                       parts: seq<seq<Token>>, rs: seq<Result<Value>>, n: nat, k: nat)
    requires AllPlain(acc) && k <= |parts| && TokensAt(ts, j, JoinParts(parts, n, |parts|))
    requires PartsRead(d, ts, j, parts, rs, n)
    ensures ReadsOn(d, ts, j, acc, j + |JoinParts(parts, n, k)|, Collect(parts, rs, k))
    decreases k
  {
    if k == 0 {
      ElementsNone(d, ts, j, acc, parts, rs, n);
    } else {
      ElementsRead(d, ts, j, acc, parts, rs, n, k - 1);
      ElementsNext(d, ts, j, acc, parts, rs, n, k - 1, k);
    }
  }

  /** No element read: nothing collected, no token passed. */
  lemma {:induction false} ElementsNone(d: Dialect, ts: seq<Token>, j: nat, acc: seq<Value>,
                                       parts: seq<seq<Token>>, rs: seq<Result<Value>>, n: nat)
    requires AllPlain(acc) && |rs| == |parts|
    ensures ReadsOn(d, ts, j, acc, j + |JoinParts(parts, n, 0)|, Collect(parts, rs, 0))
  {
    ReadsNothing(d, ts, j, acc);
  }

  lemma {:induction false} ReadsNothing(d: Dialect, ts: seq<Token>, j: nat, acc: seq<Value>)
    requires AllPlain(acc)
    ensures ReadsOn(d, ts, j, acc, j, Ok([]))
  {
    assert acc + [] == acc;
  }

  /** With the first `i` elements read, the element loop reads on past the
      next one. */
  lemma {:induction false} ElementsNext(d: Dialect, ts: seq<Token>, j: nat, acc: seq<Value>,
                                       parts: seq<seq<Token>>, rs: seq<Result<Value>>, n: nat, i: nat, k: nat)
    requires AllPlain(acc) && k == i + 1 && k <= |parts|
    requires TokensAt(ts, j, JoinParts(parts, n, |parts|)) && PartsRead(d, ts, j, parts, rs, n)
    requires ReadsOn(d, ts, j, acc, j + |JoinParts(parts, n, i)|, Collect(parts, rs, i))
    ensures ReadsOn(d, ts, j, acc, j + |JoinParts(parts, n, k)|, Collect(parts, rs, k))
  {
    CollectNext(parts, rs, i, k);
    StepOf(d, ts, j, parts, rs, n, i, k);
    ElementsExtend(d, ts, j, acc, j + |JoinParts(parts, n, i)|, Collect(parts, rs, i), Sep(i, n),
                   j + PartStart(parts, n, i), parts[i], j + |JoinParts(parts, n, k)|, rs[i], Collect(parts, rs, k));
  }

  /** One step of the element loop stands between `mid` and `end`: the
      tokens `sep` at `mid`, no comma or one, then from `pos` the tokens
      `cur` of one element, read back as `r` unless there are none. */
  predicate StepAt(d: Dialect, ts: seq<Token>, mid: nat, sep: seq<Token>, pos: nat, cur: seq<Token>, end: nat,
                   r: Result<Value>)
  {
    pos == mid + |sep| && end == pos + |cur| &&
    (sep == [] || (|sep| == 1 && sep[0].kind == Comma)) &&
    TokensAt(ts, mid, sep) && TokensAt(ts, pos, cur) &&
    PartReads(d, ts, pos, cur, r)
  }

  /** Element `i` of the join, with the comma before it, is one step of the
      element loop. */
  lemma {:induction false} StepOf(d: Dialect, ts: seq<Token>, j: nat, parts: seq<seq<Token>>, rs: seq<Result<Value>>,
                                 n: nat, i: nat, k: nat)
    requires k == i + 1 && k <= |parts|
    requires TokensAt(ts, j, JoinParts(parts, n, |parts|)) && PartsRead(d, ts, j, parts, rs, n)
    ensures StepAt(d, ts, j + |JoinParts(parts, n, i)|, Sep(i, n), j + PartStart(parts, n, i), parts[i],
                   j + |JoinParts(parts, n, k)|, rs[i])
  {
    JoinAt(ts, j, parts, n, i, k);
    var start := PartStart(parts, n, i);
  }

  /** The element loop read from `j` to `mid` with `r1` collected, followed
      by one step: it reads on to the end of that step. */
  lemma {:induction false} ElementsExtend(d: Dialect, ts: seq<Token>, j: nat, acc: seq<Value>, mid: nat,
                                         r1: Result<seq<Value>>, sep: seq<Token>, pos: nat, cur: seq<Token>,
                                         end: nat, r: Result<Value>, total: Result<seq<Value>>)
    requires AllPlain(acc) && ReadsOn(d, ts, j, acc, mid, r1)
    requires StepAt(d, ts, mid, sep, pos, cur, end, r) && total == Then(r1, StepValue(cur, r))
    ensures ReadsOn(d, ts, j, acc, end, total)
  {
    if r1.Ok? {
      PlainAppend(acc, r1.value);
      ElementsStep(d, ts, mid, acc + r1.value, sep, pos, cur, end, r);
      ReadsOnTrans(d, ts, j, acc, mid, r1, end, StepValue(cur, r));
    }
  }

  /** Two stretches of the element loop, one after the other, make one. */
  lemma {:induction false} ReadsOnTrans(d: Dialect, ts: seq<Token>, j: nat, acc: seq<Value>, mid: nat,
                                       r1: Result<seq<Value>>, end: nat, r2: Result<seq<Value>>)
    requires AllPlain(acc) && r1.Ok? && ReadsOn(d, ts, j, acc, mid, r1)
    requires AllPlain(acc + r1.value) && ReadsOn(d, ts, mid, acc + r1.value, end, r2)
    ensures ReadsOn(d, ts, j, acc, end, Then(r1, r2))
  {
    if r2.Ok? {
      assert acc + r1.value + r2.value == acc + (r1.value + r2.value);
      PlainAppend(r1.value, r2.value);
    }
  }

  /** The value reader on an array: the opening token at `j` starts the
      element loop, the closing token at `c` ends it. */
  lemma {:induction false} ArrayBrackets(d: Dialect, ts: seq<Token>, j: nat, c: nat, r: Result<seq<Value>>, len: nat)
    requires j < c < |ts| && len == c + 1 - j && ts[j].kind == ArrayStart && ts[c].kind == ArrayEnd
    requires ReadsOn(d, ts, j + 1, [], c, r)
    ensures ReadsAs(d, ts, j, len, ArrayOf(r))
  {
    if r.Ok? {
      assert [] + r.value == r.value;
    }
  }

  /** One step of the element loop: an optional comma, then the tokens
      `cur` of one element (none for a blank segment). */
  lemma {:induction false} ElementsStep(d: Dialect, ts: seq<Token>, j: nat, acc: seq<Value>, sep: seq<Token>,
                                       pos: nat, cur: seq<Token>, end: nat, r: Result<Value>)
    requires AllPlain(acc) && StepAt(d, ts, j, sep, pos, cur, end, r)
    ensures ReadsOn(d, ts, j, acc, end, StepValue(cur, r))
  {
    SkipSep(d, ts, j, acc, sep, pos);
    if cur == [] {
      ReadsNothing(d, ts, pos, acc);
    } else {
      ValueStep(d, ts, pos, acc, cur, r);
    }
    ReadsOnFrom(d, ts, j, pos, acc, end, StepValue(cur, r));
  }

  /** The element loop passes over the comma `sep`, if there is one. */
  lemma {:induction false} SkipSep(d: Dialect, ts: seq<Token>, j: nat, acc: seq<Value>, sep: seq<Token>, pos: nat)
    requires AllPlain(acc) && pos == j + |sep| && (sep == [] || (|sep| == 1 && sep[0].kind == Comma))
    requires TokensAt(ts, j, sep)
    ensures ParseElements(d, ts, j, acc) == ParseElements(d, ts, pos, acc)
  {
    if sep != [] {
      assert At(ts, j) == sep[0];
    }
  }

  /** The element loop at the tokens `cur` of an element reads it as `r`
      says, or fails as it does. */
  lemma {:induction false} ValueStep(d: Dialect, ts: seq<Token>, pos: nat, acc: seq<Value>, cur: seq<Token>,
                                    r: Result<Value>)
    requires AllPlain(acc) && TokensAt(ts, pos, cur) && cur != [] && PartReads(d, ts, pos, cur, r)
    ensures ReadsOn(d, ts, pos, acc, pos + |cur|, Single(r))
  {
    assert At(ts, pos) == cur[0];
  }

  /** A stretch of the element loop that starts where the loop at `j`
      arrives. */
  lemma {:induction false} ReadsOnFrom(d: Dialect, ts: seq<Token>, j: nat, pos: nat, acc: seq<Value>, end: nat,
                                      r: Result<seq<Value>>)
    requires AllPlain(acc) && ParseElements(d, ts, j, acc) == ParseElements(d, ts, pos, acc)
    requires ReadsOn(d, ts, pos, acc, end, r)
    ensures ReadsOn(d, ts, j, acc, end, r)
  {
  }
}
