/** The lexer as the implementations write it: an object that appends tokens
    to its `tokens` list line by line (C++ `Lexer`, the `*[]Token` of Go, the
    `&mut Vec<Token>` of Rust). Every method is proved to append exactly what
    the functions of module `Lexical` say, or to report their failure; a
    failing call may leave a partial list behind, which no caller reads. */
module Tokenizer {
  import opened Errors
  import opened Text
  import opened Tokens
  import opened Lexical

  /** Once the elements up to `k` fail, the whole element list fails the
      same way: the elements are read left to right. */
  lemma {:induction false} SegmentsTokensFailFirst(d: Dialect, segs: seq<string>, k: nat, n: nat, bound: nat)
    requires k <= |segs|
    requires ShorterThan(segs, bound)
    requires SegmentsTokens(d, segs[..k], n, bound).Err?
    ensures SegmentsTokens(d, segs, n, bound) == SegmentsTokens(d, segs[..k], n, bound)
    decreases |segs|
  {
    if k < |segs| {
      var init := segs[..|segs| - 1];
      assert init[..k] == segs[..k];
      SegmentsTokensFailFirst(d, init, k, n, bound);
    } else {
      assert segs[..k] == segs;
    }
  }

  /** An array literal the slicing accepts: its tokens are the brackets
      around the elements' tokens. */
  lemma ArrayTokensUnfold(d: Dialect, s: string, n: nat, bound: nat)
    requires StartsWith(s, "<|") && EndsWith(s, "|>") && |s| <= bound
    requires d == Cpp || |s| >= 4
    ensures |s| >= 3
    ensures ArrayTokens(d, s, n, bound) ==
      (var inner :- SegmentsTokens(d, ArraySegments(d, s), n, bound);
       Ok([Marker(ArrayStart, n)] + inner + [Marker(ArrayEnd, n)]))
  {
    assert s[0] == '<' by { assert s[..2] == "<|"; }
    assert s[|s| - 2] == '|' by { assert s[|s| - 2 + 0] == "|>"[0]; }
  }

  /** Reading element `k` after the ones before it. */
  lemma SegmentsTokensSnoc(d: Dialect, segs: seq<string>, k: nat, n: nat, bound: nat)
    requires k < |segs|
    requires ShorterThan(segs, bound)
    ensures SegmentsTokens(d, segs[..k + 1], n, bound) ==
      (var prev :- SegmentsTokens(d, segs[..k], n, bound);
       var cur :- ValueTokens(d, segs[k], n);
       Ok(prev + (if k > 0 then [Marker(Comma, n)] else []) + cur))
  {
    assert segs[..k + 1][..k] == segs[..k];
    assert segs[..k + 1][k] == segs[k];
  }

  /** Once lines up to `k` fail, the whole document fails the same way. */
  lemma BodyTokensFailFirst(d: Dialect, lines: seq<string>, k: nat, m: nat)
    requires 1 <= k <= m <= |lines|
    requires BodyTokens(d, lines, k).Err?
    ensures BodyTokens(d, lines, m) == BodyTokens(d, lines, k)
  {
    var j := k;
    while j < m
      invariant k <= j <= m
      invariant BodyTokens(d, lines, j) == BodyTokens(d, lines, k)
    {
      BodyTokensFailStep(d, lines, j + 1);
      j := j + 1;
    }
  }

  lemma BodyTokensFailStep(d: Dialect, lines: seq<string>, m: nat)
    requires 1 < m <= |lines|
    requires BodyTokens(d, lines, m - 1).Err?
    ensures BodyTokens(d, lines, m) == BodyTokens(d, lines, m - 1)
  {
  }

  /** Appending in steps appends the concatenation. */
  lemma AppendAssoc(a: seq<Token>, b: seq<Token>, c: seq<Token>)
    ensures a + b + c == a + (b + c)
  {
  }

  class Lexer {
    /** Which implementation's behaviour this lexer follows. */
    const dialect: Dialect
    var tokens: seq<Token>

    constructor(d: Dialect)
      ensures dialect == d && tokens == []
    {
      dialect := d;
      tokens := [];
    }

    /** The indentation scan of the C++ and Go loops: the spaces at the start
        of `l`, and whether the first other character is a tab. */
    method CountIndent(l: string) returns (count: nat, hasTab: bool)
      ensures count == LeadingCount(l, Space) && count <= |l|
      ensures forall i :: 0 <= i < count ==> l[i] == ' '
      ensures hasTab <==> LeadingTab(l)
    {
      count := 0;
      while count < |l| && l[count] == ' '
        invariant count <= |l|
        invariant forall i :: 0 <= i < count ==> l[i] == ' '
      {
        count := count + 1;
      }
      LeadingCountExact(l, Space, count);
      hasTab := count < |l| && l[count] == '\t';
    }

    /** `tokenizeValue`: appends the tokens of the value text `raw`, read
        from line `n`. */
    method TokenizeValue(raw: string, n: nat) returns (failure: Option<Error>)
      modifies this
      ensures var r := ValueTokens(dialect, raw, n);
        (r.Ok? ==> failure == None && tokens == old(tokens) + r.value) &&
        (r.Err? ==> failure == Some(r.error))
      decreases |raw|, 3
    {
      var s := TrimText(dialect, raw);
      assert ValueTokens(dialect, raw, n) == TrimmedValueTokens(dialect, s, n, |raw|);
      if s == [] {
        return None;
      }
      if StartsWith(s, "\"") && EndsWith(s, "\"") {
        if |s| >= 2 {
          tokens := tokens + [Token(StringLit, s[1..|s| - 1], n, 0)];
          return None;
        } else if dialect == Cpp {
          tokens := tokens + [Token(StringLit, "", n, 0)];
          return None;
        }
        return Some(Crash);
      }
      if s == "SuperEffective" {
        tokens := tokens + [Token(BoolLit, "true", n, 0)];
        return None;
      }
      if s == "NotVeryEffective" {
        tokens := tokens + [Token(BoolLit, "false", n, 0)];
        return None;
      }
      if s == "MissingNo" {
        tokens := tokens + [Marker(NullLit, n)];
        return None;
      }
      if StartsWith(s, "<|") && EndsWith(s, "|>") {
        assert TrimmedValueTokens(dialect, s, n, |raw|) == ArrayTokens(dialect, s, n, |raw|);
        failure := TokenizeArray(s, n, |raw|);
        return;
      }
      if IsNumberText(dialect, s) {
        tokens := tokens + [Token(NumberLit, s, n, 0)];
        return None;
      }
      return Some(TypeError);
    }

    /** The array case of `tokenizeValue`: appends the tokens of the array
        literal `s`, element by element. */
    method TokenizeArray(s: string, n: nat, bound: nat) returns (failure: Option<Error>)
      requires StartsWith(s, "<|") && EndsWith(s, "|>") && |s| <= bound
      modifies this
      ensures var r := ArrayTokens(dialect, s, n, bound);
        (r.Ok? ==> failure == None && tokens == old(tokens) + r.value) &&
        (r.Err? ==> failure == Some(r.error))
      decreases bound, 1
    {
      if dialect != Cpp && |s| < 4 {
        return Some(Crash);
      }
      ArrayTokensUnfold(dialect, s, n, bound);
      tokens := tokens + [Marker(ArrayStart, n)];
      ghost var t1 := tokens;
      var segs := ArraySegments(dialect, s);
      failure := TokenizeElements(segs, n, bound);
      if failure == None {
        ghost var inner := SegmentsTokens(dialect, segs, n, bound).value;
        assert tokens == t1 + inner;
        assert ArrayTokens(dialect, s, n, bound) == Ok([Marker(ArrayStart, n)] + inner + [Marker(ArrayEnd, n)]);
        tokens := tokens + [Marker(ArrayEnd, n)];
        AppendAssoc(old(tokens), [Marker(ArrayStart, n)], inner);
        AppendAssoc(old(tokens), [Marker(ArrayStart, n)] + inner, [Marker(ArrayEnd, n)]);
      }
    }

    /** The element loop of the array case: appends the tokens of the
        elements `segs`, with a comma between consecutive ones. */
    method TokenizeElements(segs: seq<string>, n: nat, bound: nat) returns (failure: Option<Error>)
      requires ShorterThan(segs, bound)
      modifies this
      ensures var r := SegmentsTokens(dialect, segs, n, bound);
        (r.Ok? ==> failure == None && tokens == old(tokens) + r.value) &&
        (r.Err? ==> failure == Some(r.error))
      decreases bound, 0
    {
      var k := 0;
      while k < |segs|
        invariant k <= |segs|
        invariant SegmentsTokens(dialect, segs[..k], n, bound).Ok?
        invariant tokens == old(tokens) + SegmentsTokens(dialect, segs[..k], n, bound).value
      {
        SegmentsTokensSnoc(dialect, segs, k, n, bound);
        ghost var prev := SegmentsTokens(dialect, segs[..k], n, bound).value;
        ghost var sep := if k > 0 then [Marker(Comma, n)] else [];
        if k > 0 {
          tokens := tokens + [Marker(Comma, n)];
        }
        var f := TokenizeValue(segs[k], n);
        if f.Some? {
          SegmentsTokensFailFirst(dialect, segs, k + 1, n, bound);
          return f;
        }
        AppendAssoc(old(tokens), prev, sep);
        AppendAssoc(old(tokens), prev + sep, ValueTokens(dialect, segs[k], n).value);
        k := k + 1;
      }
      assert segs[..k] == segs;
      return None;
    }

    /** `tokenizeLine`: appends the tokens of the trimmed, non-empty line
        `line`, number `n`, that follow its indent token. */
    method TokenizeLine(line: string, n: nat) returns (failure: Option<Error>)
      modifies this
      ensures var r := LineBodyTokens(dialect, line, n);
        (r.Ok? ==> failure == None && tokens == old(tokens) + r.value) &&
        (r.Err? ==> failure == Some(r.error))
    {
      var stage := SectionStage(line);
      if stage > 0 {
        if |line| < 8 && dialect != Cpp {
          assert LineBodyTokens(dialect, line, n) == Err(Crash);
          return Some(Crash);
        }
        var name := if |line| >= 8 then line[4..|line| - 4] else line[4..];
        var body := [Token(SectionOpen, "", n, stage),
                     Token(Identifier, name, n, if dialect == Rust then stage else 0),
                     Token(SectionClose, "", n, stage)];
        assert LineBodyTokens(dialect, line, n) == Ok(body);
        tokens := tokens + body;
        return None;
      }
      match ScanKeyValue(dialect, line)
      case None =>
        assert LineBodyTokens(dialect, line, n) == Err(SyntaxError);
        return Some(SyntaxError);
      case Some(kv) =>
        var head := [Token(Identifier, kv.key, n, 0), Marker(VineWhip, n)];
        tokens := tokens + head;
        failure := TokenizeValue(kv.value, n);
        if failure == None {
          AppendAssoc(old(tokens), head, ValueTokens(dialect, kv.value, n).value);
        }
    }

    /** The loop body of `tokenize` for body line `raw`, number `n`: the
        comment, tab and indentation rules, the indent token, the line. */
    method TokenizeBodyLine(raw: string, n: nat) returns (failure: Option<Error>)
      modifies this
      ensures var r := LineTokens(dialect, raw, n);
        (r.Ok? ==> failure == None && tokens == old(tokens) + r.value) &&
        (r.Err? ==> failure == Some(r.error))
    {
      var code := Code(dialect, raw);
      if dialect != Cpp && '\t' in code {
        return Some(TabError);
      }
      var l := TrimRightBy(code, LineEndSpace(dialect));
      if l == [] {
        return None;
      }
      var width: nat;
      if dialect == Rust {
        width := IndentWidth(dialect, l);
      } else {
        var hasTab;
        width, hasTab := CountIndent(l);
        if dialect == Cpp && hasTab {
          return Some(TabError);
        }
      }
      if width % 4 != 0 {
        return Some(IndentationError);
      }
      tokens := tokens + [Token(Indent, "", n, width / 4)];
      failure := TokenizeLine(TrimText(dialect, l), n);
      if failure == None {
        AppendAssoc(old(tokens), [Token(Indent, "", n, width / 4)], LineBodyTokens(dialect, TrimText(dialect, l), n).value);
      }
    }

    /** `tokenize`: appends the header token, every body line's tokens and
        the end-of-file token, and returns the list. */
    method Tokenize(lines: seq<string>) returns (r: Result<seq<Token>>)
      modifies this
      ensures Lex(dialect, lines).Ok? ==> r == Ok(old(tokens) + Lex(dialect, lines).value) && tokens == r.value
      ensures Lex(dialect, lines).Err? ==> r == Lex(dialect, lines)
    {
      if lines == [] {
        tokens := tokens + [Marker(Eof, 0)];
        assert Lex(dialect, lines) == Ok([Marker(Eof, 0)]);
        return Ok(tokens);
      }
      if FirstLine(dialect, lines[0]) != HeaderLine {
        assert Lex(dialect, lines) == Err(HeaderError);
        return Err(HeaderError);
      }
      tokens := tokens + [Token(Header, HeaderLine, 1, 0)];
      var start := tokens;
      var k := 1;
      while k < |lines|
        invariant 1 <= k <= |lines|
        invariant BodyTokens(dialect, lines, k).Ok?
        invariant tokens == start + BodyTokens(dialect, lines, k).value
      {
        var f := TokenizeBodyLine(lines[k], k + 1);
        if f.Some? {
          BodyTokensFailFirst(dialect, lines, k + 1, |lines|);
          assert Lex(dialect, lines) == Err(f.value);
          return Err(f.value);
        }
        AppendAssoc(start, BodyTokens(dialect, lines, k).value, LineTokens(dialect, lines[k], k + 1).value);
        k := k + 1;
      }
      assert Lex(dialect, lines) == Ok([Token(Header, HeaderLine, 1, 0)] + BodyTokens(dialect, lines, k).value + [Marker(Eof, |lines|)]);
      ghost var body := BodyTokens(dialect, lines, k).value;
      tokens := tokens + [Marker(Eof, |lines|)];
      AppendAssoc(old(tokens), [Token(Header, HeaderLine, 1, 0)], body);
      AppendAssoc(old(tokens), [Token(Header, HeaderLine, 1, 0)] + body, [Marker(Eof, |lines|)]);
      return Ok(tokens);
    }
  }
}
