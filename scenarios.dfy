/** Documented behaviours of the three implementations on particular inputs,
    where they agree and where they part: the reserved key, the badge rule,
    a tab inside a value, a key that starts with a digit, an array left open,
    the lone quote, numbers as Rust reads them, and the naive comma split of
    array literals. */
module Scenarios {
  import opened Errors
  import opened Text
  import opened Numbers
  import opened Tokens
  import opened Lexical
  import opened LexicalProps
  import opened LineProps
  import opened Document
  import opened Structure

  // ---------------------------------------------------------------------
  // Values

  /** A lone quote both starts and ends a string: C++ reads the empty
      string (`substr(1)`), Go and Rust slice past its end and panic. */
  lemma {:induction false} LoneQuote(d: Dialect, n: nat)
    ensures ValueTokens(d, "\"", n) ==
      if d == Cpp then Ok([Token(StringLit, "", n, 0)]) else Err(Crash)
  {
    LoneQuoteOf(d, "\"", n);
  }

  lemma {:induction false} LoneQuoteOf(d: Dialect, s: string, n: nat)
    requires s == "\""
    ensures ValueTokens(d, s, n) ==
      if d == Cpp then Ok([Token(StringLit, "", n, 0)]) else Err(Crash)
  {
    TrimTextKeeps(d, s);
    assert StartsWith(s, "\"") && EndsWith(s, "\"");
  }

  /** The elements of an array literal holding one string with a comma: the
      split cuts the string in two. */
  lemma {:induction false} CommaSegments(d: Dialect)
    ensures ArraySegments(d, "<|\"a,b\"|>") == ["\"a", "b\""]
  {
    var s := "<|\"a,b\"|>";
    var inner := "\"a,b\"";
    assert s[2..|s| - 2] == inner;
    CommaSplit();
    if d != Cpp {
      assert inner[0] == '"' && inner[|inner| - 1] == '"';
      TrimTextKeeps(Rust, inner);
    }
  }

  /** The split of the comma string on commas. */
  lemma {:induction false} CommaSplit()
    ensures Split("\"a,b\"", ',') == ["\"a", "b\""]
  {
    var segs := ["\"a", "b\""];
    assert "\"a,b\"" == Join(segs, ',');
    SplitJoin(segs, ',');
  }

  /** The array literal with the comma string is bracketed. */
  lemma {:induction false} Brackets()
    ensures StartsWith("<|\"a,b\"|>", "<|") && EndsWith("<|\"a,b\"|>", "|>")
  {
    var s := "<|\"a,b\"|>";
    assert s[..2] == "<|";
    assert forall i :: 0 <= i < 2 ==> s[|s| - 2 + i] == "|>"[i];
  }

  /** A string that holds a comma is one string token. */
  lemma {:induction false} CommaString(d: Dialect, n: nat)
    ensures ValueTokens(d, "\"a,b\"", n) == Ok([Token(StringLit, "a,b", n, 0)])
  {
    assert "\"a,b\"" == "\"" + "a,b" + "\"";
    StringRoundTrip(d, "a,b", n);
  }

  /** Array elements are split on every comma, even one inside a string: a
      string holding a comma is one string token on its own (CommaString),
      but inside an array its first half is an unclosed quote and the value fails. */
  lemma {:induction false} NaiveCommaSplit(d: Dialect, n: nat)
    ensures ValueTokens(d, "<|\"a,b\"|>", n) == Err(TypeError)
  {
    Brackets();
    CommaSegments(d);
    UnclosedQuote(d, "\"a", n);
    FirstElementDecides(d, "<|\"a,b\"|>", n);
  }

  /** Every implementation reads an integer text as an integer except Rust,
      which reads every number as a double. */
  lemma {:induction false} RustReadsFloats(d: Dialect)
    ensures NumberValue(d, "42") == if d == Rust then Ok(Float("42")) else Ok(Int(42))
  {
    var s := "42";
    assert LeadingCount(s, CSpace) == 0;
    RunFromExact(s, Digit, 0, 2);
    assert s[0..] == s;
    assert DecimalValue(s) == 42 by {
      assert s[..1] == "4" && ("4")[..0] == [];
    }
    assert SignedDecimal(s, 0) == Some(42);
  }

  /** A hexadecimal integer such as `0x1A`: C++ `stod` reads it whole as
      a hexadecimal float; Go's `Sscan` reads it as its token, which
      `ParseFloat` refuses for want of a `p` exponent; Rust's `parse::<f64>`
      has no hexadecimal form. */
  lemma {:induction false} HexInteger(d: Dialect, s: string, n: nat)
    requires HexPrefix(s, 0) && |s| > 2
    requires forall i :: 2 <= i < |s| ==> IsHexDigit(s[i])
    ensures ValueTokens(d, s, n) ==
      if d == Cpp then Ok([Token(NumberLit, s, n, 0)]) else Err(TypeError)
  {
    assert IsHexDigit(s[|s| - 1]);
    HexIntegerNumber(d, s);
    ZeroLedValue(d, s, n);
  }

  lemma {:induction false} HexIntegerNumber(d: Dialect, s: string)
    requires HexPrefix(s, 0) && |s| > 2
    requires forall i :: 2 <= i < |s| ==> IsHexDigit(s[i])
    ensures IsNumberText(d, s) <==> d == Cpp
  {
    if d == Cpp {
      HexIntegerCpp(s);
    } else {
      HexIntegerText(s);
    }
  }

  lemma {:induction false} HexIntegerCpp(s: string)
    requires HexPrefix(s, 0) && |s| > 2
    requires forall i :: 2 <= i < |s| ==> IsHexDigit(s[i])
    ensures IsNumberText(Cpp, s) && NumberValue(Cpp, s) == Ok(Float(s))
  {
    HexIntegerStod(s);
    HexIntegerText(s);
  }

  /** `stoi` stops at the `x`, `stod` starts on the `0`. */
  lemma {:induction false} HexIntegerStod(s: string)
    requires HexPrefix(s, 0)
    ensures Stoi(s).None? && StodPrefix(s)
  {
    assert !In(CSpace, s[0]);
    assert LeadingCount(s, CSpace) == 0;
    RunFromExact(s, Digit, 0, 1);
  }

  /** A hexadecimal float with its binary exponent such as `0x1p3`: C++
      and Go read it as a float, Rust does not. */
  lemma {:induction false} HexFloat(d: Dialect, s: string, n: nat)
    requires HexPrefix(s, 0) && IsHexFloat(s, 0, true)
    ensures ValueTokens(d, s, n) ==
      if d == Rust then Err(TypeError) else Ok([Token(NumberLit, s, n, 0)])
  {
    HexFloatShape(s);
    HexFloatNumber(d, s);
    ZeroLedValue(d, s, n);
  }

  lemma {:induction false} HexFloatNumber(d: Dialect, s: string)
    requires HexPrefix(s, 0) && IsHexFloat(s, 0, true)
    ensures IsNumberText(d, s) <==> d != Rust
  {
    HexIntegerStod(s);
    HexFloatShape(s);
    if d == Go {
      HexIsGoFloat(s);
      ParsedFloatScans(s);
    }
  }

  /** C++ and Go read a hexadecimal float with its exponent as a float. */
  lemma {:induction false} HexFloatValue(d: Dialect, s: string)
    requires HexPrefix(s, 0) && IsHexFloat(s, 0, true) && d != Rust
    ensures NumberValue(d, s) == Ok(Float(s))
  {
    HexIntegerStod(s);
    RunFromExact(s, Digit, 0, 1);
    HexIsGoFloat(s);
  }

  /** A text that opens with `0x` and ends in a hexadecimal digit is a
      number token exactly when the number test accepts it. */
  lemma {:induction false} ZeroLedValue(d: Dialect, s: string, n: nat)
    requires HexPrefix(s, 0) && IsHexDigit(s[|s| - 1])
    ensures ValueTokens(d, s, n) ==
      if IsNumberText(d, s) then Ok([Token(NumberLit, s, n, 0)]) else Err(TypeError)
  {
    assert !In(TrimSpace(d), s[|s| - 1]);
    TrimTextKeeps(d, s);
    PlainValue(d, s, n, |s|);
  }

  /** Go's own decimal form with a binary exponent: `Sscan` splits `1.5p3`
      at the `p` and takes it as 1.5 times 2 to the 3rd, but the parser's
      `ParseFloat` knows no such form, so the number token is a type error
      there; `1.5p`, whose exponent has no digits, the lexer refuses. */
  lemma {:induction false} DecimalBinaryExponent()
    ensures IsNumberText(Go, "1.5p3") && NumberValue(Go, "1.5p3") == Err(TypeError)
    ensures !IsNumberText(Go, "1.5p")
  {
    DecimalExponentOf("1.5p3", "1.5p");
  }

  lemma {:induction false} DecimalExponentOf(s: string, t: string)
    requires s == "1.5p3" && t == "1.5p"
    ensures IsNumberText(Go, s) && NumberValue(Go, s) == Err(TypeError)
    ensures !IsNumberText(Go, t)
  {
    DecimalPScans(s);
    DecimalPRefused(s);
    DecimalPStops(t);
  }

  /** `Sscan` refuses `1.5p`: the exponent after the `p` is empty. */
  lemma {:induction false} DecimalPStops(t: string)
    requires t == "1.5p"
    ensures !GoScansFloat(t)
  {
    DecimalPScan(t);
    assert t[4..] == [];
  }

  /** `Sscan` converts `1.5p3`: a mantissa `1.5` and an exponent `3`. */
  lemma {:induction false} DecimalPScans(s: string)
    requires s == "1.5p3"
    ensures GoScansFloat(s)
  {
    DecimalPScan(s);
    assert s[4..] == "3";
    RunFromExact("3", Digit, 0, 1);
    assert Atoi("3").Some?;
  }

  /** `ParseFloat` refuses `1.5p3`, and `Atoi` before it. */
  lemma {:induction false} DecimalPRefused(s: string)
    requires s == "1.5p3"
    ensures NumberValue(Go, s) == Err(TypeError)
  {
    RunFromExact(s, Digit, 0, 1);
    DecimalPMantissa(s);
  }

  /** `Sscan` reads `1.5p` and the exponent digits after it as its token. */
  lemma {:induction false} DecimalPScan(s: string)
    requires s == "1.5p3" || s == "1.5p"
    ensures s[..GoFloatEnd(s)] == s
    ensures Find(s, "p") == Some(3) && GoParseFloat(s[..3]) && 'x' !in s && 'X' !in s
  {
    DecimalPEnd(s);
    MantissaP(s);
    assert s[..|s|] == s;
  }

  lemma {:induction false} DecimalPEnd(s: string)
    requires s == "1.5p3" || s == "1.5p"
    ensures GoFloatEnd(s) == |s|
  {
    DecimalPMantissa(s);
    DecimalPExponent(s);
    assert !HexPrefix(s, 0);
  }

  lemma {:induction false} DecimalPMantissa(s: string)
    requires s == "1.5p3" || s == "1.5p"
    ensures MantissaEnd(s, GoDigit, 0) == 3
  {
    RunFromExact(s, GoDigit, 0, 1);
    RunFromExact(s, GoDigit, 2, 1);
  }

  lemma {:induction false} DecimalPExponent(s: string)
    requires s == "1.5p3" || s == "1.5p"
    ensures GoExponentEnd(s, 3, false) == |s|
  {
    RunFromExact(s, GoDigit, 4, |s| - 4);
  }

  /** The decimal texts above split at index 3 into the mantissa `1.5`. */
  lemma {:induction false} MantissaP(s: string)
    requires |s| >= 4 && s[..4] == "1.5p"
    ensures Find(s, "p") == Some(3) && GoParseFloat(s[..3])
  {
    assert OccursAt(s, "p", 3);
    forall i | 0 <= i < 3
      ensures !OccursAt(s, "p", i)
    {
      assert s[i] == s[..4][i] != 'p';
      assert s[i..i + 1][0] == s[i];
    }
    var m := s[..3];
    assert m == "1.5";
    RunFromExact(m, Digit, 0, 1);
    RunFromExact(m, Digit, 2, 1);
    DecimalIsGoFloat(m);
  }

  /** Digit separators: Go's `Sscan` takes '_' into its token and
      `ParseFloat` allows one between two digits, so `1_000` is a float in
      Go, while C++ `stod` and Rust's `parse::<f64>` stop at the '_'. A
      separator that ends the digits, as in `1_`, Go refuses as well. */
  lemma {:induction false} DigitSeparator(d: Dialect, n: nat)
    ensures ValueTokens(d, "1_000", n) ==
      if d == Go then Ok([Token(NumberLit, "1_000", n, 0)]) else Err(TypeError)
    ensures NumberValue(Go, "1_000") == Ok(Float("1_000"))
    ensures ValueTokens(d, "1_", n) == Err(TypeError)
  {
    SeparatorOf(d, "1_000", "1_", n);
  }

  lemma {:induction false} SeparatorOf(d: Dialect, s: string, t: string, n: nat)
    requires s == "1_000" && t == "1_"
    ensures ValueTokens(d, s, n) == if d == Go then Ok([Token(NumberLit, s, n, 0)]) else Err(TypeError)
    ensures NumberValue(Go, s) == Ok(Float(s))
    ensures ValueTokens(d, t, n) == Err(TypeError)
  {
    SeparatedNumber(d, s);
    StopsAtSeparator(s);
    SeparatedParses(s);
    TrailingSeparator(d, t);
    DigitLedValue(d, s, n);
    DigitLedValue(d, t, n);
  }

  /** `1_000` passes Go's number test only. */
  lemma {:induction false} SeparatedNumber(d: Dialect, s: string)
    requires s == "1_000"
    ensures IsNumberText(d, s) <==> d == Go
  {
    StopsAtSeparator(s);
    if d == Go {
      SeparatedParses(s);
      ParsedFloatScans(s);
    }
  }

  /** `ParseFloat` reads `1_000`: digits with a separator between two of them. */
  lemma {:induction false} SeparatedParses(s: string)
    requires s == "1_000"
    ensures GoParseFloat(s)
  {
    RunFromExact(s, GoDigit, 0, 5);
    assert HasDigit(s, Digit, 0, 5) by {
      assert IsDigit(s[0]);
    }
    NoUnderscores(s, 3, false, DigitSeen);
    assert UnderscoresFrom(s, 0, false, Start);
  }

  /** `1_` passes no number test: `Sscan` reads it whole, and `ParseFloat`
      refuses the separator that ends it. */
  lemma {:induction false} TrailingSeparator(d: Dialect, t: string)
    requires t == "1_"
    ensures !IsNumberText(d, t)
  {
    StopsAtSeparator(t);
    RunFromExact(t, GoDigit, 0, 2);
    assert GoFloatEnd(t) == 2;
    assert t[..2] == t;
    NoCharNoFind(t, 'p');
    assert t[0] == '1' && t[1] == '_';
    assert !UnderscoresFrom(t, 2, false, UnderscoreSeen);
    assert !UnderscoresFrom(t, 1, false, DigitSeen);
    assert !UnderscoresFrom(t, 0, false, Start);
  }

  /** A digit followed by '_' is no integer and no decimal or hexadecimal
      literal: `stoi`, `stod`, `Atoi` and Rust all stop at the '_'. */
  lemma {:induction false} StopsAtSeparator(s: string)
    requires |s| >= 2 && IsDigit(s[0]) && s[1] == '_'
    ensures Stoi(s).None? && Atoi(s).None? && !StodWhole(s) && !IsDecimalFloat(s, 0)
  {
    assert !In(CSpace, s[0]);
    assert LeadingCount(s, CSpace) == 0;
    RunFromExact(s, Digit, 0, 1);
    assert SignedDecimal(s, 0).None?;
  }

  /** A text that opens with a digit and ends in a digit or '_' is a number
      token exactly when the number test accepts it. */
  lemma {:induction false} DigitLedValue(d: Dialect, s: string, n: nat)
    requires s != [] && IsDigit(s[0]) && In(GoDigit, s[|s| - 1])
    ensures ValueTokens(d, s, n) ==
      if IsNumberText(d, s) then Ok([Token(NumberLit, s, n, 0)]) else Err(TypeError)
  {
    assert !In(TrimSpace(d), s[0]) && !In(TrimSpace(d), s[|s| - 1]);
    TrimTextKeeps(d, s);
    assert s != "SuperEffective" && s != "NotVeryEffective" && s != "MissingNo" by {
      assert s[0] != 'S' && s[0] != 'N' && s[0] != 'M';
    }
    PlainValue(d, s, n, |s|);
  }

  // ---------------------------------------------------------------------
  // Lines

  /** Rust's key pattern refuses a key that starts with a digit; C++ and
      Go take it. */
  lemma {:induction false} DigitKey(d: Dialect, key: string, text: string, n: nat)
    requires IsKey(Cpp, key) && IsDigit(key[0]) && PlainText(d, text)
    ensures LineBodyTokens(d, AssignmentLine(key, 1, "\"" + text + "\""), n) ==
      if d == Rust then Err(SyntaxError)
      else Ok([Token(Identifier, key, n, 0), Marker(VineWhip, n)] + [Token(StringLit, text, n, 0)])
  {
    var line := AssignmentLine(key, 1, "\"" + text + "\"");
    assert line[0] == key[0];
    if d == Rust {
      NotSectionLine(line);
      assert KeyLength(d, line) == 0;
    } else {
      assert IsKey(d, key);
      StringAssignmentBody(d, key, text, n);
    }
  }

  /** A tab inside a string value: C++ looks for tabs in the indentation
      only and keeps it in the string; Go and Rust refuse a tab anywhere on
      the line. */
  lemma {:induction false} TabInValue(d: Dialect, key: string, text: string, n: nat)
    requires IsKey(d, key) && NoComment(key) && PlainText(Cpp, text) && '\t' in text
    ensures LineTokens(d, AssignmentLine(key, 1, "\"" + text + "\""), n) ==
      if d == Cpp then
        Ok([Token(Indent, "", n, 0)] + ([Token(Identifier, key, n, 0), Marker(VineWhip, n)] + [Token(StringLit, text, n, 0)]))
      else Err(TabError)
  {
    var line := AssignmentLine(key, 1, "\"" + text + "\"");
    if d == Cpp {
      assert IndentedLine(0, line) == line;
      IndentedString(d, 0, key, text, n);
    } else {
      assert line == key + " ~> \"" + text + "\"";
      assert '\t' in line;
      QuotedAssignmentNoComment(key, text);
      TabRule(d, line, n);
    }
  }

  // ---------------------------------------------------------------------
  // The parser

  /** An array whose closing token never comes: Rust reports the type
      failure, C++ and Go the syntax failure. */
  lemma {:induction false} ArrayLeftOpen(d: Dialect)
    ensures ParseValue(d, [Marker(ArrayStart, 1), Token(StringLit, "a", 1, 0)], 0) ==
      Err(if d == Rust then TypeError else SyntaxError)
  {
  }
}
