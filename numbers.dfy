/** Recognition of numeric literals as the three implementations do it.
    Integer conversion (`std::stoi`, Go `strconv.Atoi`) is modelled with its
    range; floating-point conversion is reduced to the decimal and
    hexadecimal grammars and the number itself is never computed. */
module Numbers {
  import opened Errors
  import opened Text

  const Int32Min: int := -0x8000_0000
  const Int32Max: int := 0x7fff_ffff
  const Int64Min: int := -0x8000_0000_0000_0000
  const Int64Max: int := 0x7fff_ffff_ffff_ffff

  predicate AllDigits(s: string)
  {
    forall i :: 0 <= i < |s| ==> IsDigit(s[i])
  }

  /** Length of an optional sign at index `i`. */
  function SignLen(s: string, i: nat): (n: nat)
    requires i <= |s|
    ensures n <= 1 && i + n <= |s|
    ensures n == 1 <==> i < |s| && (s[i] == '+' || s[i] == '-')
  {
    if i < |s| && (s[i] == '+' || s[i] == '-') then 1 else 0
  }

  /** The value of a string of decimal digits. */
  function DecimalValue(digits: string): (v: nat)
    requires AllDigits(digits)
    ensures digits == [] ==> v == 0
    decreases |digits|
  {
    if digits == [] then 0
    else 10 * DecimalValue(digits[..|digits| - 1]) + (digits[|digits| - 1] as int - '0' as int)
  }

  /** `sign? digits+` from index `i` to the end of the text, with its value. */
  function SignedDecimal(s: string, i: nat): (r: Option<int>)
    requires i <= |s|
    ensures var b := i + SignLen(s, i);
      r.Some? <==> b < |s| && forall j :: b <= j < |s| ==> IsDigit(s[j])
    ensures r.Some? && r.value < 0 ==> s[i] == '-'
  {
    var b := i + SignLen(s, i);
    if b < |s| && b + RunFrom(s, Digit, b) == |s| then
      var digits := s[b..];
      assert AllDigits(digits) by {
        forall j | 0 <= j < |digits|
          ensures IsDigit(digits[j])
        {
          assert digits[j] == s[b + j] && InAt(Digit, s, b + j);
        }
      }
      var v: int := if b == i + 1 && s[i] == '-' then -(DecimalValue(digits) as int) else DecimalValue(digits);
      Some(v)
    else
      assert b < |s| ==> !In(Digit, s[b + RunFrom(s, Digit, b)]);
      None
  }

  /** `std::stoi(s, &pos)` followed by `pos == s.length()`: leading C
      whitespace is skipped, then a sign and digits must reach the end, and
      the value must fit a 32-bit int (otherwise `stoi` throws). */
  function Stoi(s: string): (r: Option<int>)
    ensures r.Some? ==> Int32Min <= r.value <= Int32Max
  {
    match SignedDecimal(s, LeadingCount(s, CSpace))
    case Some(v) => if Int32Min <= v <= Int32Max then Some(v) else None
    case None => None
  }

  /** Go's `strconv.Atoi`: a sign and digits over the whole text, within the
      64-bit `int` range. */
  function Atoi(s: string): (r: Option<int>)
    ensures r.Some? ==> Int64Min <= r.value <= Int64Max
  {
    match SignedDecimal(s, 0)
    case Some(v) => if Int64Min <= v <= Int64Max then Some(v) else None
    case None => None
  }

  /** An exponent part `[eE] sign? digits+` from index `e` to the end. */
  predicate IsExponent(s: string, e: nat)
    requires e <= |s|
  {
    e + 2 <= |s| && (s[e] == 'e' || s[e] == 'E') &&
    var b := e + 1 + SignLen(s, e + 1);
    b < |s| && b + RunFrom(s, Digit, b) == |s|
  }

  /** The end of a mantissa from index `m`: a run of digits of class `k`,
      then optionally '.' and another such run. */
  function MantissaEnd(s: string, k: CharClass, m: nat): (j: nat)
    requires m <= |s|
    ensures m <= j <= |s|
  {
    var i := m + RunFrom(s, k, m);
    if i < |s| && s[i] == '.' then i + 1 + RunFrom(s, k, i + 1) else i
  }

  /** The mantissa holds digits of its class and points only. */
  lemma {:induction false} MantissaChars(s: string, k: CharClass, m: nat)
    requires m <= |s|
    ensures forall t :: m <= t < MantissaEnd(s, k, m) ==> In(k, s[t]) || s[t] == '.'
  {
    var i := m + RunFrom(s, k, m);
    RunFromIn(s, k, m);
    if i < |s| && s[i] == '.' {
      RunFromIn(s, k, i + 1);
    }
  }

  /** A decimal floating-point literal from index `i` to the end:
      `sign? (digits ('.' digits*)? | '.' digits) exponent?`. */
  predicate IsDecimalFloat(s: string, i: nat)
    requires i <= |s|
  {
    var a := i + SignLen(s, i);
    var e := MantissaEnd(s, Digit, a);
    (RunFrom(s, Digit, a) > 0 || e > a + 1) && (e == |s| || IsExponent(s, e))
  }

  /** A binary exponent `[pP] sign? digits+` from index `e` to the end. */
  predicate IsBinaryExponent(s: string, e: nat)
    requires e <= |s|
  {
    e + 2 <= |s| && (s[e] == 'p' || s[e] == 'P') &&
    var b := e + 1 + SignLen(s, e + 1);
    b < |s| && b + RunFrom(s, Digit, b) == |s|
  }

  /** A hexadecimal prefix `0x` or `0X` at index `a`. */
  predicate HexPrefix(s: string, a: nat)
  {
    a + 1 < |s| && s[a] == '0' && (s[a + 1] == 'x' || s[a + 1] == 'X')
  }

  /** A hexadecimal floating-point literal from index `i` to the end:
      `sign? 0[xX] (hex+ ('.' hex*)? | '.' hex+) binary-exponent?`. Go's
      `ParseFloat` demands the exponent (`needExp`); C's `strtod` does not. */
  predicate IsHexFloat(s: string, i: nat, needExp: bool)
    requires i <= |s|
  {
    var a := i + SignLen(s, i);
    HexPrefix(s, a) &&
    var e := MantissaEnd(s, HexDigit, a + 2);
    (RunFrom(s, HexDigit, a + 2) > 0 || e > a + 3) && ((!needExp && e == |s|) || IsBinaryExponent(s, e))
  }

  /** `std::stod(s, &pos)` followed by `pos == s.length()`: after C
      whitespace, a decimal or a hexadecimal literal reaches the end. */
  predicate StodWhole(s: string)
  {
    var a := LeadingCount(s, CSpace);
    IsDecimalFloat(s, a) || IsHexFloat(s, a, false)
  }

  /** `std::stod(s)` without the position check: it succeeds as soon as some
      prefix (after C whitespace and a sign) starts a decimal number. */
  predicate StodPrefix(s: string)
  {
    var a := LeadingCount(s, CSpace);
    var b := a + SignLen(s, a);
    b < |s| && (IsDigit(s[b]) || (b + 1 < |s| && s[b] == '.' && IsDigit(s[b + 1])))
  }

  /** Go's `strconv.ParseFloat(s, 64)` reports no syntax error: `readFloat`
      scans the whole text, and `underscoreOK` accepts its underscores. */
  predicate GoParseFloat(s: string)
  {
    GoFloatSyntax(s) && UnderscoreOK(s)
  }

  /** The literal `readFloat` scans to the end of the text: a sign, then
      `0x` with at least one more character, a hexadecimal mantissa and a
      mandatory `pP` exponent, or else a decimal mantissa and an optional
      `eE` exponent. It skips '_' among the digits, and the mantissa must
      hold a digit. */
  predicate GoFloatSyntax(s: string)
  {
    var a := SignLen(s, 0);
    if a + 2 < |s| && s[a] == '0' && (s[a + 1] == 'x' || s[a + 1] == 'X') then
      var e := MantissaEnd(s, GoHexDigit, a + 2);
      HasDigit(s, HexDigit, a + 2, e) && IsGoExponent(s, e, true)
    else
      var e := MantissaEnd(s, GoDigit, a);
      HasDigit(s, Digit, a, e) && (e == |s| || IsGoExponent(s, e, false))
  }

  /** Some character from `lo` up to `hi` is a digit of class `k`. */
  predicate HasDigit(s: string, k: CharClass, lo: nat, hi: nat)
    requires lo <= hi <= |s|
    decreases hi - lo
  {
    lo < hi && (In(k, s[lo]) || HasDigit(s, k, lo + 1, hi))
  }

  /** The exponent `readFloat` scans from index `e` to the end: `eE`, or
      `pP` after a hexadecimal mantissa, a sign, a digit, then digits and '_'. */
  predicate IsGoExponent(s: string, e: nat, hex: bool)
    requires e <= |s|
  {
    e < |s| && (if hex then s[e] == 'p' || s[e] == 'P' else s[e] == 'e' || s[e] == 'E') &&
    var b := e + 1 + SignLen(s, e + 1);
    b < |s| && IsDigit(s[b]) && b + RunFrom(s, GoDigit, b) == |s|
  }

  /** What `underscoreOK` saw last: the start, a digit (or the base
      prefix), an underscore, or anything else. */
  datatype Seen = Start | DigitSeen | UnderscoreSeen | OtherSeen

  /** A base prefix letter `underscoreOK` recognises after `0`. */
  predicate IsBaseLetter(c: char)
  {
    c == 'b' || c == 'B' || c == 'o' || c == 'O' || c == 'x' || c == 'X'
  }

  /** Go's `underscoreOK`: after an optional sign and an optional base
      prefix, which counts as a digit, every '_' follows a digit and is
      followed by one (a hexadecimal digit after `0x`). */
  predicate UnderscoreOK(s: string)
  {
    var a := SignLen(s, 0);
    if a + 2 <= |s| && s[a] == '0' && IsBaseLetter(s[a + 1]) then
      UnderscoresFrom(s, a + 2, HexBase(s), DigitSeen)
    else UnderscoresFrom(s, a, false, Start)
  }

  /** The text opens, after its sign, with the prefix `0x` or `0X`, so that
      `underscoreOK` counts hexadecimal letters as digits. */
  predicate HexBase(s: string)
  {
    var a := SignLen(s, 0);
    a + 2 <= |s| && s[a] == '0' && (s[a + 1] == 'x' || s[a + 1] == 'X')
  }

  /** A digit as `underscoreOK` counts it. */
  predicate SepDigit(c: char, hex: bool)
  {
    IsDigit(c) || (hex && IsHexDigit(c))
  }

  /** The loop of `underscoreOK` from index `i`, having seen `seen`. */
  predicate UnderscoresFrom(s: string, i: nat, hex: bool, seen: Seen)
    requires i <= |s|
    decreases |s| - i
  {
    if i == |s| then seen != UnderscoreSeen
    else if SepDigit(s[i], hex) then UnderscoresFrom(s, i + 1, hex, DigitSeen)
    else if s[i] == '_' then seen == DigitSeen && UnderscoresFrom(s, i + 1, hex, UnderscoreSeen)
    else seen != UnderscoreSeen && UnderscoresFrom(s, i + 1, hex, OtherSeen)
  }

  /** A text without '_' from index `i` on passes the rest of the loop. */
  lemma {:induction false} NoUnderscores(s: string, i: nat, hex: bool, seen: Seen)
    requires i <= |s| && seen != UnderscoreSeen
    requires forall t :: i <= t < |s| ==> s[t] != '_'
    ensures UnderscoresFrom(s, i, hex, seen)
    decreases |s| - i
  {
    if i < |s| {
      var next := if SepDigit(s[i], hex) then DigitSeen else OtherSeen;
      NoUnderscores(s, i + 1, hex, next);
    }
  }

  /** Past index `i`, the loop lets '_' stand only before a digit and after
      a digit, or first when a digit was seen before `i`. */
  lemma {:induction false} UnderscoresBetween(s: string, i: nat, hex: bool, seen: Seen)
    requires i <= |s| && UnderscoresFrom(s, i, hex, seen)
    ensures forall t :: i <= t < |s| && s[t] == '_' ==>
      t + 1 < |s| && SepDigit(s[t + 1], hex) && (if t == i then seen == DigitSeen else SepDigit(s[t - 1], hex))
    decreases |s| - i
  {
    if i < |s| {
      var next := if SepDigit(s[i], hex) then DigitSeen else if s[i] == '_' then UnderscoreSeen else OtherSeen;
      UnderscoresBetween(s, i + 1, hex, next);
      if s[i] == '_' {
        assert i + 1 < |s| && SepDigit(s[i + 1], hex);
      }
    }
  }

  /** `underscoreOK` lets '_' stand only between two digits, or between the
      base prefix and a digit. */
  lemma {:induction false} UnderscoreBetweenDigits(s: string)
    requires UnderscoreOK(s)
    ensures forall t :: 0 <= t < |s| && s[t] == '_' ==>
      0 < t && t + 1 < |s| && SepDigit(s[t + 1], HexBase(s)) &&
      (SepDigit(s[t - 1], HexBase(s)) || IsBaseLetter(s[t - 1]))
  {
    var a := SignLen(s, 0);
    if a + 2 <= |s| && s[a] == '0' && IsBaseLetter(s[a + 1]) {
      UnderscoresBetween(s, a + 2, HexBase(s), DigitSeen);
    } else {
      UnderscoresBetween(s, a, false, Start);
    }
  }

  /** A text without '_' satisfies `underscoreOK`. */
  lemma {:induction false} NoUnderscoreOK(s: string)
    requires forall t :: 0 <= t < |s| ==> s[t] != '_'
    ensures UnderscoreOK(s)
  {
    var a := SignLen(s, 0);
    if a + 2 <= |s| && s[a] == '0' && IsBaseLetter(s[a + 1]) {
      NoUnderscores(s, a + 2, HexBase(s), DigitSeen);
    } else {
      NoUnderscores(s, a, false, Start);
    }
  }

  /** A character `fmt.Sscan` may take into a float64 token. */
  predicate IsGoFloatChar(c: char)
  {
    IsHexDigit(c) || c == '_' || c == '.' || c == '+' || c == '-' || c == 'x' || c == 'X' || c == 'p' || c == 'P'
  }

  /** The end of the exponent `fmt.Sscan` reads from index `j`: a letter
      `pP` (or also `eE` after a decimal mantissa), then `sign? [0-9_]*`. */
  function GoExponentEnd(s: string, j: nat, hex: bool): (k: nat)
    requires j <= |s|
    ensures j <= k <= |s|
    ensures k > j ==> s[j] == 'p' || s[j] == 'P' || (!hex && (s[j] == 'e' || s[j] == 'E'))
    ensures forall t :: j < t < k ==> In(GoDigit, s[t]) || s[t] == '+' || s[t] == '-'
  {
    if j < |s| && (s[j] == 'p' || s[j] == 'P' || (!hex && (s[j] == 'e' || s[j] == 'E'))) then
      var b := j + 1 + SignLen(s, j + 1);
      RunFromIn(s, GoDigit, b);
      b + RunFrom(s, GoDigit, b)
    else j
  }

  /** The length of the token `fmt.Sscan` reads for a float64, as long as
      possible: `sign? 0[xX]` with hexadecimal digits and a `pP` exponent, or
      else decimal digits with an `eEpP` exponent; digits may hold '_'. */
  function GoFloatEnd(s: string): (k: nat)
    ensures k <= |s|
  {
    var a := SignLen(s, 0);
    if HexPrefix(s, a) then GoExponentEnd(s, MantissaEnd(s, GoHexDigit, a + 2), true)
    else GoExponentEnd(s, MantissaEnd(s, GoDigit, a), false)
  }

  /** The token `fmt.Sscan` reads holds only characters of a float literal. */
  lemma {:induction false} GoFloatChars(s: string)
    ensures forall i :: 0 <= i < GoFloatEnd(s) ==> IsGoFloatChar(s[i])
  {
    var a := SignLen(s, 0);
    var hex := HexPrefix(s, a);
    var m := if hex then a + 2 else a;
    var j := MantissaEnd(s, if hex then GoHexDigit else GoDigit, m);
    var k := GoExponentEnd(s, j, hex);
    assert GoFloatEnd(s) == k;
    assert FloatCharsIn(s, 0, m);
    MantissaFloatChars(s, hex, m);
    ExponentChars(s, j, hex);
    forall i | 0 <= i < k
      ensures IsGoFloatChar(s[i])
    {
      if i < m {
        assert FloatCharsIn(s, 0, m);
      } else if i < j {
        assert FloatCharsIn(s, m, j);
      } else {
        assert FloatCharsIn(s, j, k);
      }
    }
  }

  /** The characters from `lo` to `hi` may stand in a float token. */
  predicate FloatCharsIn(s: string, lo: nat, hi: nat)
    requires lo <= hi <= |s|
  {
    forall i :: lo <= i < hi ==> IsGoFloatChar(s[i])
  }

  lemma {:induction false} MantissaFloatChars(s: string, hex: bool, m: nat)
    requires m <= |s|
    ensures FloatCharsIn(s, m, MantissaEnd(s, if hex then GoHexDigit else GoDigit, m))
  {
    var k := if hex then GoHexDigit else GoDigit;
    MantissaChars(s, k, m);
    forall t | m <= t < MantissaEnd(s, k, m)
      ensures IsGoFloatChar(s[t])
    {
      assert In(k, s[t]) || s[t] == '.';
    }
  }

  lemma {:induction false} ExponentChars(s: string, j: nat, hex: bool)
    requires j <= |s|
    ensures FloatCharsIn(s, j, GoExponentEnd(s, j, hex))
  {
  }

  /** Go's `convertFloat` on the token `Sscan` read: a token with a 'p' and
      no 'x' or 'X' is the form `mantissa p exponent`, taken as a decimal
      `ParseFloat` mantissa and an `Atoi` exponent; any other token goes to
      `ParseFloat` whole. */
  predicate GoConvertFloat(t: string)
  {
    var p := Find(t, "p");
    if p.Some? && 'x' !in t && 'X' !in t then
      GoParseFloat(t[..p.value]) && Atoi(t[p.value + 1..]).Some?
    else GoParseFloat(t)
  }

  /** `fmt.Sscan(s, new(float64))` reports no error: the token it reads
      converts; the text after the token is not examined. */
  predicate GoScansFloat(s: string)
  {
    GoConvertFloat(s[..GoFloatEnd(s)])
  }

  /** A text without the character `c` holds no occurrence of `[c]`. */
  lemma {:induction false} NoCharNoFind(s: string, c: char)
    requires c !in s
    ensures Find(s, [c]).None?
  {
    forall j | 0 <= j <= |s|
      ensures !OccursAt(s, [c], j)
    {
      if j + 1 <= |s| {
        assert s[j] in s;
      }
    }
  }

  lemma {:induction false} SignedDecimalIsFloat(s: string, i: nat)
    requires i <= |s| && SignedDecimal(s, i).Some?
    ensures IsDecimalFloat(s, i)
  {
    var b := i + SignLen(s, i);
    RunFromExact(s, Digit, b, |s| - b);
  }

  /** Every integer `std::stoi` accepts over the whole text, `std::stod`
      accepts as well; and whatever `stod` accepts whole, it accepts as a prefix. */
  lemma {:induction false} StoiIsStod(s: string)
    ensures Stoi(s).Some? ==> StodWhole(s)
    ensures StodWhole(s) ==> StodPrefix(s)
  {
    if Stoi(s).Some? {
      SignedDecimalIsFloat(s, LeadingCount(s, CSpace));
    }
  }

  /** Every text Go's `ParseFloat` takes whole, `fmt.Sscan` reads whole as
      its float64 token and converts, so the lexer keeps as a number every
      literal the parser's float conversion would accept. */
  lemma {:induction false} ParsedFloatScans(s: string)
    requires GoParseFloat(s)
    ensures GoFloatEnd(s) == |s| && GoScansFloat(s)
  {
    var a := SignLen(s, 0);
    if a + 2 < |s| && s[a] == '0' && (s[a + 1] == 'x' || s[a + 1] == 'X') {
      assert s[..GoFloatEnd(s)] == s;
      assert s[a + 1] in s;
    } else {
      if a + 1 < |s| && s[a] == '0' && !In(GoDigit, s[a + 1]) {
        RunFromExact(s, GoDigit, a, 1);
      }
      assert !HexPrefix(s, a);
      GoDecimalNoP(s);
      NoCharNoFind(s, 'p');
      assert s[..GoFloatEnd(s)] == s;
    }
  }

  /** A decimal literal `ParseFloat` reads holds no 'p'. */
  lemma {:induction false} GoDecimalNoP(s: string)
    requires GoFloatSyntax(s) && !HexPrefix(s, SignLen(s, 0))
    ensures 'p' !in s
  {
    var a := SignLen(s, 0);
    var e := MantissaEnd(s, GoDigit, a);
    MantissaChars(s, GoDigit, a);
    if e < |s| {
      var b := e + 1 + SignLen(s, e + 1);
      RunFromIn(s, GoDigit, b);
      assert forall t :: b <= t < |s| ==> s[t] != 'p';
    }
    assert forall t :: a <= t < e ==> s[t] != 'p';
  }

  /** A mantissa with a digit before or after its point holds a digit. */
  lemma {:induction false} MantissaHasDigit(s: string, k: CharClass, m: nat)
    requires m <= |s|
    requires RunFrom(s, k, m) > 0 || MantissaEnd(s, k, m) > m + 1
    ensures HasDigit(s, k, m, MantissaEnd(s, k, m))
  {
    var e := MantissaEnd(s, k, m);
    if RunFrom(s, k, m) > 0 {
      assert InAt(k, s, m);
    } else {
      assert InAt(k, s, m + 1);
      assert HasDigit(s, k, m + 1, e);
    }
  }

  /** A decimal or binary exponent of C++ and Rust is one Go reads too. */
  lemma {:induction false} ExponentIsGo(s: string, e: nat, hex: bool)
    requires e <= |s|
    requires if hex then IsBinaryExponent(s, e) else IsExponent(s, e)
    ensures IsGoExponent(s, e, hex)
  {
    var b := e + 1 + SignLen(s, e + 1);
    RunWidens(s, Digit, GoDigit, b);
    assert InAt(Digit, s, b);
  }

  /** A decimal literal meets the syntax of Go's `readFloat`. */
  lemma {:induction false} DecimalGoSyntax(s: string)
    requires IsDecimalFloat(s, 0)
    ensures GoFloatSyntax(s)
  {
    var a := SignLen(s, 0);
    var e := MantissaEnd(s, Digit, a);
    if a + 1 < |s| && s[a] == '0' && !IsDigit(s[a + 1]) {
      RunFromExact(s, Digit, a, 1);
    }
    assert !HexPrefix(s, a);
    DecimalMantissaWidens(s, a);
    MantissaHasDigit(s, Digit, a);
    if e < |s| {
      ExponentIsGo(s, e, false);
    }
  }

  /** Every decimal literal C++ and Rust read, Go's `ParseFloat` reads too. */
  lemma {:induction false} DecimalIsGoFloat(s: string)
    requires IsDecimalFloat(s, 0)
    ensures GoParseFloat(s)
  {
    DecimalGoSyntax(s);
    DecimalFloatPlain(s);
    NoUnderscoreOK(s);
  }

  /** A hexadecimal literal with its binary exponent meets the syntax of Go's
      `readFloat`. */
  lemma {:induction false} HexGoSyntax(s: string)
    requires IsHexFloat(s, 0, true)
    ensures GoFloatSyntax(s)
  {
    var a := SignLen(s, 0);
    var e := MantissaEnd(s, HexDigit, a + 2);
    HexMantissaWidens(s, a + 2);
    MantissaHasDigit(s, HexDigit, a + 2);
    ExponentIsGo(s, e, true);
  }

  /** Every hexadecimal literal with its binary exponent, Go's `ParseFloat`
      reads. */
  lemma {:induction false} HexIsGoFloat(s: string)
    requires IsHexFloat(s, 0, true)
    ensures GoParseFloat(s)
  {
    HexGoSyntax(s);
    HexFloatPlain(s);
    NoUnderscoreOK(s);
  }

  /** Sscan's digit classes take '_' besides the digits of the literal. */
  predicate Widens(k: CharClass, g: CharClass)
  {
    (k == Digit && g == GoDigit) || (k == HexDigit && g == GoHexDigit)
  }

  /** A run of digits not followed by '_' is also the run Sscan reads. */
  lemma {:induction false} RunWidens(s: string, k: CharClass, g: CharClass, i: nat)
    requires i <= |s| && Widens(k, g)
    requires i + RunFrom(s, k, i) == |s| || s[i + RunFrom(s, k, i)] != '_'
    ensures RunFrom(s, g, i) == RunFrom(s, k, i)
  {
    RunFromIn(s, k, i);
    RunFromExact(s, g, i, RunFrom(s, k, i));
  }

  /** A decimal mantissa not followed by '_' is also the mantissa Sscan reads. */
  lemma {:induction false} DecimalMantissaWidens(s: string, m: nat)
    requires m <= |s|
    requires MantissaEnd(s, Digit, m) == |s| || s[MantissaEnd(s, Digit, m)] != '_'
    ensures MantissaEnd(s, GoDigit, m) == MantissaEnd(s, Digit, m)
  {
    var i := m + RunFrom(s, Digit, m);
    RunWidens(s, Digit, GoDigit, m);
    if i < |s| && s[i] == '.' {
      RunWidens(s, Digit, GoDigit, i + 1);
    }
  }

  /** A hexadecimal mantissa not followed by '_' is also the mantissa Sscan
      reads after `0x`. */
  lemma {:induction false} HexMantissaWidens(s: string, m: nat)
    requires m <= |s|
    requires MantissaEnd(s, HexDigit, m) == |s| || s[MantissaEnd(s, HexDigit, m)] != '_'
    ensures MantissaEnd(s, GoHexDigit, m) == MantissaEnd(s, HexDigit, m)
  {
    var i := m + RunFrom(s, HexDigit, m);
    RunWidens(s, HexDigit, GoHexDigit, m);
    if i < |s| && s[i] == '.' {
      RunWidens(s, HexDigit, GoHexDigit, i + 1);
    }
  }

  /** No character from `lo` up to `hi` is '_'. */
  predicate NoSeparatorIn(s: string, lo: nat, hi: nat)
    requires lo <= hi <= |s|
  {
    forall t :: lo <= t < hi ==> s[t] != '_'
  }

  /** Neither a decimal nor a hexadecimal mantissa holds '_'. */
  lemma {:induction false} MantissaNoSeparator(s: string, hex: bool, m: nat)
    requires m <= |s|
    ensures NoSeparatorIn(s, m, MantissaEnd(s, if hex then HexDigit else Digit, m))
  {
    var k := if hex then HexDigit else Digit;
    MantissaChars(s, k, m);
    forall t | m <= t < MantissaEnd(s, k, m)
      ensures s[t] != '_'
    {
      assert In(k, s[t]) || s[t] == '.';
    }
  }

  /** An exponent letter, a sign and decimal digits to the end hold no '_'. */
  lemma {:induction false} ExponentNoSeparator(s: string, e: nat)
    requires e <= |s| && (IsExponent(s, e) || IsBinaryExponent(s, e))
    ensures NoSeparatorIn(s, e, |s|)
  {
    var b := e + 1 + SignLen(s, e + 1);
    RunFromIn(s, Digit, b);
    forall t | b <= t < |s|
      ensures s[t] != '_'
    {
      assert In(Digit, s[t]);
    }
  }

  /** A decimal literal holds no '_'. */
  lemma {:induction false} DecimalFloatPlain(s: string)
    requires IsDecimalFloat(s, 0)
    ensures forall t :: 0 <= t < |s| ==> s[t] != '_'
  {
    var a := SignLen(s, 0);
    var e := MantissaEnd(s, Digit, a);
    MantissaNoSeparator(s, false, a);
    if e < |s| {
      ExponentNoSeparator(s, e);
    }
    forall t | 0 <= t < |s|
      ensures s[t] != '_'
    {
      if a <= t < e {
        assert NoSeparatorIn(s, a, e);
      } else if e <= t {
        assert NoSeparatorIn(s, e, |s|);
      }
    }
  }

  /** A hexadecimal literal holds no '_'. */
  lemma {:induction false} HexFloatPlain(s: string)
    requires IsHexFloat(s, 0, true)
    ensures forall t :: 0 <= t < |s| ==> s[t] != '_'
  {
    var a := SignLen(s, 0);
    var e := MantissaEnd(s, HexDigit, a + 2);
    HexPrefixNoSeparator(s);
    MantissaNoSeparator(s, true, a + 2);
    ExponentNoSeparator(s, e);
    SeparatorFreeJoin(s, 0, a + 2, e);
    SeparatorFreeJoin(s, 0, e, |s|);
  }

  /** A sign and a `0x` prefix hold no '_'. */
  lemma HexPrefixNoSeparator(s: string)
    requires HexPrefix(s, SignLen(s, 0))
    ensures NoSeparatorIn(s, 0, SignLen(s, 0) + 2)
  {
  }

  /** Two adjacent regions free of '_' make one. */
  lemma SeparatorFreeJoin(s: string, lo: nat, mid: nat, hi: nat)
    requires lo <= mid <= hi <= |s|
    requires NoSeparatorIn(s, lo, mid) && NoSeparatorIn(s, mid, hi)
    ensures NoSeparatorIn(s, lo, hi)
  {
  }

  /** A float literal opens with a sign, a digit or a point. */
  lemma {:induction false} NoFloatStart(t: string)
    requires t == [] || !(IsDigit(t[0]) || t[0] == '+' || t[0] == '-' || t[0] == '.')
    ensures !GoParseFloat(t)
  {
    if t != [] {
      assert !In(Digit, t[0]);
      if t[0] == '_' {
        assert !UnderscoresFrom(t, 0, false, Start);
      } else {
        RunFromExact(t, GoDigit, 0, 0);
      }
    }
  }

  /** `fmt.Sscan` refuses a text that opens with anything but a sign, a
      digit or a point. */
  lemma {:induction false} NoScanStart(s: string)
    requires s == [] || !(IsDigit(s[0]) || s[0] == '+' || s[0] == '-' || s[0] == '.' || s[0] == 'p')
    ensures !GoScansFloat(s)
  {
    var t := s[..GoFloatEnd(s)];
    NoFloatStart(t);
    var p := Find(t, "p");
    if p.Some? {
      assert p.value > 0;
      NoFloatStart(t[..p.value]);
    }
  }

  /** A text with the prefix `0x` after its sign is no decimal literal:
      the decimal mantissa stops at the `x`. */
  lemma {:induction false} HexIsNotDecimal(s: string, i: nat)
    requires i <= |s| && HexPrefix(s, i + SignLen(s, i))
    ensures !IsDecimalFloat(s, i)
  {
    var a := i + SignLen(s, i);
    RunFromExact(s, Digit, a, 1);
    assert MantissaEnd(s, Digit, a) == a + 1;
  }

  /** A hexadecimal integer `0x` followed by hexadecimal digits only:
      C's `strtod` reads it whole, Go's `Sscan` reads it whole but its
      `ParseFloat` refuses it for want of a `p` exponent, and it is no
      decimal literal. */
  lemma {:induction false} HexIntegerText(s: string)
    requires HexPrefix(s, 0) && |s| > 2
    requires forall i :: 2 <= i < |s| ==> IsHexDigit(s[i])
    ensures StodWhole(s) && !IsDecimalFloat(s, 0) && !GoParseFloat(s) && !GoScansFloat(s)
  {
    HexIsNotDecimal(s, 0);
    HexIntegerWhole(s);
    HexIntegerToken(s);
    assert s[1] in s;
  }

  lemma {:induction false} HexIntegerWhole(s: string)
    requires HexPrefix(s, 0) && |s| > 2
    requires forall i :: 2 <= i < |s| ==> IsHexDigit(s[i])
    ensures StodWhole(s) && !IsHexFloat(s, 0, true)
  {
    assert !In(CSpace, s[0]);
    RunFromExact(s, HexDigit, 2, |s| - 2);
    assert MantissaEnd(s, HexDigit, 2) == |s|;
  }

  lemma {:induction false} HexIntegerToken(s: string)
    requires HexPrefix(s, 0) && |s| > 2
    requires forall i :: 2 <= i < |s| ==> IsHexDigit(s[i])
    ensures MantissaEnd(s, GoHexDigit, 2) == |s| && s[..GoFloatEnd(s)] == s
  {
    RunFromExact(s, GoHexDigit, 2, |s| - 2);
    assert MantissaEnd(s, GoHexDigit, 2) == |s|;
  }

  /** A hexadecimal float with its binary exponent ends in a decimal digit
      and is no decimal literal. */
  lemma {:induction false} HexFloatShape(s: string)
    requires IsHexFloat(s, 0, true)
    ensures IsDigit(s[|s| - 1]) && !IsDecimalFloat(s, 0)
  {
    HexIsNotDecimal(s, 0);
    var e := MantissaEnd(s, HexDigit, SignLen(s, 0) + 2);
    var b := e + 1 + SignLen(s, e + 1);
    assert InAt(Digit, s, |s| - 1);
  }

  /** Every integer Go's `Atoi` accepts is a float literal as well, which
      `ParseFloat` reads. */
  lemma {:induction false} AtoiIsFloat(s: string)
    requires Atoi(s).Some?
    ensures IsDecimalFloat(s, 0) && GoParseFloat(s)
  {
    SignedDecimalIsFloat(s, 0);
    DecimalIsGoFloat(s);
  }
}
