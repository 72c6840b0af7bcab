/** Character classes and string helpers shared by the three implementations.
    Text is a sequence of Unicode scalar values. */
module Text {
  import opened Errors

  /** The character classes the lexers test characters against. */
  datatype CharClass =
    | CSpace          // `std::isspace` in the "C" locale: space, \t, \n, \v, \f, \r
    | UnicodeSpace    // White_Space: Go `unicode.IsSpace`, Rust `char::is_whitespace`
    | SpaceOrTab      // what the C++ `trim` helper strips
    | Space           // the space character alone
    | Digit           // 0-9
    | WordChar        // the key class [a-zA-Z0-9_]
    | GoDigit         // a digit or '_', as `fmt.Sscan` reads digits
    | HexDigit        // 0-9, a-f, A-F
    | GoHexDigit      // a hexadecimal digit or '_', after Sscan's `0x`
    | GoRegexSpace    // `\s` in Go's RE2 syntax: \t, \n, \f, \r, space
    | GoLineEnd       // Go's right-trim cutset " \r\n"
    | RustIndent      // Rust's indentation count: white space other than \n
    | CppRegexDot     // `.` in ECMAScript: anything but \n and \r
    | NotNewline      // `.` in Go and Rust: anything but \n
    | Tilde           // '~'

  predicate IsCSpace(c: char)
  {
    c == ' ' || c == '\t' || c == '\n' || c == '\U{000B}' || c == '\U{000C}' || c == '\r'
  }

  predicate IsUnicodeSpace(c: char)
  {
    IsCSpace(c) ||
    c == '\U{0085}' || c == '\U{00A0}' || c == '\U{1680}' ||
    ('\U{2000}' <= c <= '\U{200A}') ||
    c == '\U{2028}' || c == '\U{2029}' || c == '\U{202F}' || c == '\U{205F}' || c == '\U{3000}'
  }

  predicate IsDigit(c: char) { '0' <= c <= '9' }

  predicate IsHexDigit(c: char) { IsDigit(c) || 'a' <= c <= 'f' || 'A' <= c <= 'F' }

  predicate IsAsciiLetter(c: char) { 'a' <= c <= 'z' || 'A' <= c <= 'Z' }

  predicate IsWordChar(c: char) { IsAsciiLetter(c) || IsDigit(c) || c == '_' }

  predicate In(k: CharClass, c: char)
  {
    match k
    case CSpace => IsCSpace(c)
    case UnicodeSpace => IsUnicodeSpace(c)
    case SpaceOrTab => c == ' ' || c == '\t'
    case Space => c == ' '
    case Digit => IsDigit(c)
    case WordChar => IsWordChar(c)
    case GoDigit => IsDigit(c) || c == '_'
    case HexDigit => IsHexDigit(c)
    case GoHexDigit => IsHexDigit(c) || c == '_'
    case GoRegexSpace => c == '\t' || c == '\n' || c == '\U{000C}' || c == '\r' || c == ' '
    case GoLineEnd => c == ' ' || c == '\r' || c == '\n'
    case RustIndent => IsUnicodeSpace(c) && c != '\n'
    case CppRegexDot => c != '\n' && c != '\r'
    case NotNewline => c != '\n'
    case Tilde => c == '~'
  }

  /** Every character of `s` is in class `k`. */
  predicate AllIn(s: string, k: CharClass)
  {
    forall i :: 0 <= i < |s| ==> In(k, s[i])
  }

  /** The character at index `j` of `s` is in class `k`. */
  predicate InAt(k: CharClass, s: string, j: nat)
    requires j < |s|
  {
    In(k, s[j])
  }

  /** Length of the run of characters of class `k` that starts at index
      `i` of `s`. */
  function RunFrom(s: string, k: CharClass, i: nat): (n: nat)
    requires i <= |s|
    ensures i + n <= |s|
    ensures forall j :: i <= j < i + n ==> InAt(k, s, j)
    ensures i + n < |s| ==> !In(k, s[i + n])
    decreases |s| - i
  {
    if i == |s| || !In(k, s[i]) then 0 else 1 + RunFrom(s, k, i + 1)
  }

  /** A run of the class that stops at the end or at a character outside it
      is the run `RunFrom` measures. */
  lemma {:induction false} RunFromExact(s: string, k: CharClass, i: nat, n: nat)
    requires i + n <= |s|
    requires forall j :: i <= j < i + n ==> In(k, s[j])
    requires i + n == |s| || !In(k, s[i + n])
    ensures RunFrom(s, k, i) == n
    decreases n
  {
    if n > 0 {
      RunFromExact(s, k, i + 1, n - 1);
    }
  }

  /** Every character of the run is of the class. */
  lemma RunFromIn(s: string, k: CharClass, i: nat)
    requires i <= |s|
    ensures forall j :: i <= j < i + RunFrom(s, k, i) ==> In(k, s[j])
  {
    forall j | i <= j < i + RunFrom(s, k, i)
      ensures In(k, s[j])
    {
      assert InAt(k, s, j);
    }
  }

  /** Length of the longest prefix of `s` whose characters are all in class `k`. */
  function LeadingCount(s: string, k: CharClass): (n: nat)
    ensures n <= |s|
    ensures forall i :: 0 <= i < n ==> InAt(k, s, i)
    ensures n < |s| ==> !In(k, s[n])
  {
    RunFrom(s, k, 0)
  }

  /** Every character of the leading run is of the class. */
  lemma LeadingCountIn(s: string, k: CharClass)
    ensures forall i :: 0 <= i < LeadingCount(s, k) ==> In(k, s[i])
  {
    RunFromIn(s, k, 0);
  }

  lemma LeadingCountAll(s: string, k: CharClass)
    requires forall i :: 0 <= i < |s| ==> In(k, s[i])
    ensures LeadingCount(s, k) == |s|
  {
    RunFromExact(s, k, 0, |s|);
  }

  /** The leading run of the class ends at the first character outside it. */
  lemma LeadingCountExact(s: string, k: CharClass, n: nat)
    requires n <= |s|
    requires forall i :: 0 <= i < n ==> In(k, s[i])
    requires n == |s| || !In(k, s[n])
    ensures LeadingCount(s, k) == n
  {
    RunFromExact(s, k, 0, n);
  }

  /** Length of the run of characters of class `k` that ends just before
      index `j` of `s`. */
  function RunBefore(s: string, k: CharClass, j: nat): (n: nat)
    requires j <= |s|
    ensures n <= j
    ensures forall i :: j - n <= i < j ==> InAt(k, s, i)
    ensures n < j ==> !In(k, s[j - n - 1])
  {
    if j == 0 || !In(k, s[j - 1]) then 0 else 1 + RunBefore(s, k, j - 1)
  }

  /** Length of the longest suffix of `s` whose characters are all in class `k`. */
  function TrailingCount(s: string, k: CharClass): (n: nat)
    ensures n <= |s|
    ensures forall i :: |s| - n <= i < |s| ==> InAt(k, s, i)
    ensures n < |s| ==> !In(k, s[|s| - n - 1])
  {
    RunBefore(s, k, |s|)
  }

  /** Strips the leading run of class `k`. */
  function TrimLeftBy(s: string, k: CharClass): (r: string)
    ensures |r| <= |s| && r == s[|s| - |r|..]
    ensures r == [] || !In(k, r[0])
  {
    s[LeadingCount(s, k)..]
  }

  /** Strips the trailing run of class `k`. */
  function TrimRightBy(s: string, k: CharClass): (r: string)
    ensures |r| <= |s| && r == s[..|r|]
    ensures r == [] || !In(k, r[|r| - 1])
  {
    s[..|s| - TrailingCount(s, k)]
  }

  /** Strips both ends (the C++ `Lexer::trim` for spaces and tabs, Go
      `strings.TrimSpace`, Rust `str::trim`). */
  function TrimBy(s: string, k: CharClass): (r: string)
    ensures |r| <= |s|
    ensures r == [] || (!In(k, r[0]) && !In(k, r[|r| - 1]))
  {
    TrimRightBy(TrimLeftBy(s, k), k)
  }

  /** What the right trim removes is a run of the class, and the whole text
      goes exactly when it all belongs to the class. */
  lemma TrimRightBySpec(s: string, k: CharClass)
    ensures var r := TrimRightBy(s, k);
      (forall i :: |r| <= i < |s| ==> In(k, s[i])) &&
      (r == [] <==> forall i :: 0 <= i < |s| ==> In(k, s[i]))
  {
    var r := TrimRightBy(s, k);
    forall i | |r| <= i < |s|
      ensures In(k, s[i])
    {
      assert InAt(k, s, i);
    }
    if r != [] {
      assert s[|r| - 1] == r[|r| - 1];
    }
  }

  /** Trimming keeps the infix between the leading and the trailing run of
      the class. */
  lemma TrimBySpec(s: string, k: CharClass)
    ensures var r := TrimBy(s, k);
      var a := LeadingCount(s, k);
      a + |r| <= |s| && (forall i :: 0 <= i < |r| ==> r[i] == s[a + i]) &&
      forall i :: a + |r| <= i < |s| ==> In(k, s[i])
  {
    var a := LeadingCount(s, k);
    var l := TrimLeftBy(s, k);
    assert l == s[a..];
    var r := TrimRightBy(l, k);
    assert TrimBy(s, k) == r;
    TrimRightBySpec(l, k);
    PrefixOfSuffix(s, a, r);
    RunShift(s, a, |r|, k);
  }

  lemma PrefixOfSuffix(s: string, a: nat, r: string)
    requires a + |r| <= |s| && r == s[a..][..|r|]
    ensures forall i :: 0 <= i < |r| ==> r[i] == s[a + i]
  {
  }

  /** A run of the class at the end of `s[a..]` is a run at the end of `s`. */
  lemma RunShift(s: string, a: nat, m: nat, k: CharClass)
    requires a + m <= |s|
    requires forall i :: m <= i < |s[a..]| ==> In(k, s[a..][i])
    ensures forall i :: a + m <= i < |s| ==> In(k, s[i])
  {
    forall i | a + m <= i < |s|
      ensures In(k, s[i])
    {
      assert s[i] == s[a..][i - a];
    }
  }

  /** Trimming leaves nothing exactly when the whole text is of the class
      (so the C++ `trim` yields "" for a text of only spaces and tabs). */
  lemma TrimByEmpty(s: string, k: CharClass)
    ensures TrimBy(s, k) == [] <==> forall i :: 0 <= i < |s| ==> In(k, s[i])
  {
    var a := LeadingCount(s, k);
    var l := TrimLeftBy(s, k);
    assert l == s[a..];
    TrimRightBySpec(l, k);
    LeadingCountIn(s, k);
  }

  /** The C++ `Lexer::startsWith` (and Go `strings.HasPrefix`, Rust `starts_with`). */
  predicate StartsWith(s: string, prefix: string)
  {
    |prefix| <= |s| && s[..|prefix|] == prefix
  }

  /** The C++ `Lexer::endsWith` (and Go `strings.HasSuffix`, Rust `ends_with`). */
  predicate EndsWith(s: string, suffix: string)
  {
    |suffix| <= |s| && forall i :: 0 <= i < |suffix| ==> s[|s| - |suffix| + i] == suffix[i]
  }

  predicate OccursAt(s: string, pat: string, i: nat)
  {
    i + |pat| <= |s| && s[i..i + |pat|] == pat
  }

  /** The first position at or after `from` where `pat` occurs
      (`std::string::find`, `strings.Index`, `str::find`). */
  function FindFrom(s: string, pat: string, from: nat): (r: Option<nat>)
    requires from <= |s|
    ensures r.Some? ==> from <= r.value && OccursAt(s, pat, r.value) &&
                        forall j :: from <= j < r.value ==> !OccursAt(s, pat, j)
    ensures r.None? ==> forall j :: from <= j <= |s| ==> !OccursAt(s, pat, j)
    decreases |s| - from
  {
    if OccursAt(s, pat, from) then Some(from)
    else if from == |s| then None
    else FindFrom(s, pat, from + 1)
  }

  function Find(s: string, pat: string): (r: Option<nat>)
    ensures r.Some? ==> OccursAt(s, pat, r.value) && forall j :: 0 <= j < r.value ==> !OccursAt(s, pat, j)
    ensures r.None? ==> forall j :: 0 <= j <= |s| ==> !OccursAt(s, pat, j)
  {
    FindFrom(s, pat, 0)
  }

  /** Splits on every occurrence of `sep`, keeping empty parts, as Go's
      `strings.Split` and Rust's `str::split` do. */
  function Split(s: string, sep: char): (parts: seq<string>)
    ensures |parts| >= 1
    ensures forall i :: 0 <= i < |parts| ==> |parts[i]| <= |s| && sep !in parts[i]
    decreases |s|
  {
    if |s| == 0 then [""]
    else
      var rest := Split(s[1..], sep);
      if s[0] == sep then [""] + rest
      else [[s[0]] + rest[0]] + rest[1..]
  }

  /** Joins parts with `sep` between consecutive ones: the inverse of Split. */
  function Join(parts: seq<string>, sep: char): string
    requires |parts| >= 1
    decreases |parts|
  {
    if |parts| == 1 then parts[0] else parts[0] + [sep] + Join(parts[1..], sep)
  }

  lemma {:induction false} JoinSplit(s: string, sep: char)
    ensures Join(Split(s, sep), sep) == s
    decreases |s|
  {
    if |s| > 0 {
      JoinSplit(s[1..], sep);
      var rest := Split(s[1..], sep);
      if s[0] == sep {
        assert Split(s, sep) == [""] + rest;
        assert ([""] + rest)[1..] == rest;
      } else {
        var parts := Split(s, sep);
        assert parts == [[s[0]] + rest[0]] + rest[1..];
        if |rest| > 1 {
          assert parts[1..] == rest[1..];
          assert Join(rest, sep) == rest[0] + [sep] + Join(rest[1..], sep);
        }
      }
    }
  }

  lemma {:induction false} SplitJoin(parts: seq<string>, sep: char)
    requires |parts| >= 1
    requires forall i :: 0 <= i < |parts| ==> sep !in parts[i]
    ensures Split(Join(parts, sep), sep) == parts
    decreases |parts|, |parts[0]|
  {
    var p := parts[0];
    if |p| > 0 {
      // peel the first character of the first part
      var parts' := JoinPeel(parts, sep);
      SplitJoin(parts', sep);
      assert p[0] in p;
      SplitCons(p[0], Join(parts', sep), sep);
      assert [p[0]] + p[1..] == p;
      assert [[p[0]] + parts'[0]] + parts'[1..] == parts;
    } else if |parts| > 1 {
      SplitJoin(parts[1..], sep);
      assert Join(parts, sep) == [sep] + Join(parts[1..], sep);
      SplitCons(sep, Join(parts[1..], sep), sep);
      assert [""] + parts[1..] == parts;
    }
  }

  /** Taking the first character off the first part takes it off the join. */
  lemma JoinPeel(parts: seq<string>, sep: char) returns (parts': seq<string>)
    requires |parts| >= 1 && |parts[0]| > 0
    requires forall i :: 0 <= i < |parts| ==> sep !in parts[i]
    ensures parts' == [parts[0][1..]] + parts[1..] && parts'[1..] == parts[1..]
    ensures forall i :: 0 <= i < |parts'| ==> sep !in parts'[i]
    ensures Join(parts, sep) == [parts[0][0]] + Join(parts', sep)
  {
    var p := parts[0];
    parts' := [p[1..]] + parts[1..];
    assert parts'[1..] == parts[1..];
    forall i | 0 <= i < |parts'|
      ensures sep !in parts'[i]
    {
      if i == 0 {
        assert forall c :: c in p[1..] ==> c in p;
      } else {
        assert parts'[i] == parts[i];
      }
    }
    if |parts| == 1 {
      assert Join(parts', sep) == p[1..];
    } else {
      assert Join(parts', sep) == p[1..] + [sep] + Join(parts[1..], sep);
    }
    assert p == [p[0]] + p[1..];
  }

  /** Splitting a text that starts with `c`. */
  lemma SplitCons(c: char, t: string, sep: char)
    ensures var rest := Split(t, sep);
      Split([c] + t, sep) == if c == sep then [""] + rest else [[c] + rest[0]] + rest[1..]
  {
    assert ([c] + t)[1..] == t;
  }

  /** The segments `std::getline(stream, segment, sep)` yields in a loop:
      Split's parts, except that an empty last part is not produced. */
  function GetlineSplit(s: string, sep: char): (segs: seq<string>)
    ensures forall i :: 0 <= i < |segs| ==> |segs[i]| <= |s| && sep !in segs[i]
    ensures s == [] <==> segs == []
  {
    var parts := Split(s, sep);
    if parts[|parts| - 1] == [] then
      assert s != [] ==> parts[0] != [] || |parts| > 1 by {
        if s != [] && |parts| == 1 {
          JoinSplit(s, sep);
        }
      }
      parts[..|parts| - 1]
    else parts
  }

  /** Number of bytes of the UTF-8 encoding of `c`. */
  function Utf8Len(c: char): (n: nat)
    ensures 1 <= n <= 4
    ensures n == 1 <==> c as int < 0x80
  {
    if c as int < 0x80 then 1
    else if c as int < 0x800 then 2
    else if c as int < 0x10000 then 3
    else 4
  }

  /** Total UTF-8 byte length of `s`. */
  function Utf8Width(s: string): (n: nat)
    ensures |s| <= n <= 4 * |s|
    ensures (forall i :: 0 <= i < |s| ==> s[i] as int < 0x80) ==> n == |s|
  {
    if s == [] then 0 else Utf8Len(s[0]) + Utf8Width(s[1..])
  }
}
