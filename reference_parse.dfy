/** The parser's half of the valid document: the tokens the lexer makes of
    it are read, statement by statement, into the tree the tests expect, so
    that the whole frontend of every implementation returns that tree. */
module ReferenceParse {
  import opened Errors
  import opened Text
  import opened Numbers
  import opened Tokens
  import opened Lexical
  import opened Document
  import opened Structure
  import opened Frontend
  import opened ReadBack
  import opened ReferenceDocument

  // ---------------------------------------------------------------------
  // The tokens of each statement line

  function AppNameChunk(): seq<Token>
  {
    AssignTokens(3, 0, "app_name", [Token(StringLit, "Pokedex_API", 3, 0)])
  }

  function VersionChunk(): seq<Token>
  {
    AssignTokens(4, 0, "version", [Token(NumberLit, "1.5", 4, 0)])
  }

  function ProductionChunk(): seq<Token>
  {
    AssignTokens(5, 0, "is_production", [Token(BoolLit, "false", 5, 0)])
  }

  function MissingChunk(): seq<Token>
  {
    AssignTokens(6, 0, "missing_data", [Marker(NullLit, 6)])
  }

  function DatabaseChunk(d: Dialect): seq<Token>
  {
    SectionTokens(d, 9, 0, 1, "database")
  }

  function HostChunk(): seq<Token>
  {
    AssignTokens(10, 1, "host", [Token(StringLit, "127.0.0.1", 10, 0)])
  }

  function PoolChunk(d: Dialect): seq<Token>
  {
    SectionTokens(d, 13, 1, 2, "pool")
  }

  function MaxConnectionsChunk(): seq<Token>
  {
    AssignTokens(14, 2, "max_connections", [Token(NumberLit, "100", 14, 0)])
  }

  function KernelChunk(d: Dialect): seq<Token>
  {
    SectionTokens(d, 17, 2, 3, "KERNEL_FLAGS")
  }

  function PanicChunk(): seq<Token>
  {
    AssignTokens(18, 3, "panic_on_fail", [Token(BoolLit, "true", 18, 0)])
  }

  function WhitelistChunk(): seq<Token>
  {
    AssignTokens(21, 0, "whitelist", PairTokensOf(21, "Prof_Oak", "Mom"))
  }

  // ---------------------------------------------------------------------
  // Where each statement's tokens stand

  /** The body sits between the header token and the end-of-file token. */
  lemma BodyAt(d: Dialect)
    ensures var ts := DocumentTokens(d);
      |ts| == 50 && ts[0] == Token(Header, HeaderLine, 1, 0) && ts[49] == Marker(Eof, 21) &&
      TokensAt(ts, 1, Body(d))
  {
    var ts := DocumentTokens(d);
    var h := [Token(Header, HeaderLine, 1, 0)];
    var e := [Marker(Eof, 21)];
    assert |Body(d)| == 48;
    assert TokensAt(ts, 0, h + Body(d) + e);
    TokensAtSplit3(ts, 0, h, Body(d), e);
    TokenAt(ts, 0, h[0]);
    TokenAt(ts, 49, e[0]);
  }

  /** The first four assignments, the database section and the pool
      header. */
  function Opening(d: Dialect): seq<Token>
  {
    Head() + DatabaseChunk(d) + HostChunk() + PoolChunk(d)
  }

  /** The statements from the connection limit on. */
  lemma LaterAt(d: Dialect, ts: seq<Token>)
    requires TokensAt(ts, 1, Body(d))
    ensures TokensAt(ts, 1, Opening(d))
    ensures TokensAt(ts, 29, MaxConnectionsChunk())
    ensures TokensAt(ts, 33, KernelChunk(d)) && TokensAt(ts, 37, PanicChunk())
    ensures TokensAt(ts, 41, WhitelistChunk())
  {
    var b4 := Opening(d) + MaxConnectionsChunk();
    var b5 := b4 + KernelChunk(d);
    var b6 := b5 + PanicChunk();
    assert |Head()| == 16;
    TokensAtSplit(ts, 1, b6, WhitelistChunk());
    TokensAtSplit(ts, 1, b5, PanicChunk());
    TokensAtSplit(ts, 1, b4, KernelChunk(d));
    TokensAtSplit(ts, 1, Opening(d), MaxConnectionsChunk());
  }

  /** The database section and the pool header, after the first four
      assignments. */
  lemma OpeningAt(d: Dialect, ts: seq<Token>)
    requires TokensAt(ts, 1, Opening(d))
    ensures TokensAt(ts, 1, Head())
    ensures TokensAt(ts, 17, DatabaseChunk(d)) && TokensAt(ts, 21, HostChunk())
    ensures TokensAt(ts, 25, PoolChunk(d))
  {
    assert |Head()| == 16;
    TokensAtSplit(ts, 1, Head() + DatabaseChunk(d) + HostChunk(), PoolChunk(d));
    TokensAtSplit3(ts, 1, Head(), DatabaseChunk(d), HostChunk());
  }

  /** The first four assignments. */
  lemma HeadAt(ts: seq<Token>)
    requires TokensAt(ts, 1, Head())
    ensures TokensAt(ts, 1, AppNameChunk()) && TokensAt(ts, 5, VersionChunk())
    ensures TokensAt(ts, 9, ProductionChunk()) && TokensAt(ts, 13, MissingChunk())
  {
    TokensAtSplit(ts, 1, AppNameChunk() + VersionChunk() + ProductionChunk(), MissingChunk());
    TokensAtSplit3(ts, 1, AppNameChunk(), VersionChunk(), ProductionChunk());
  }

  /** An assignment's value tokens follow its indent, key and arrow. */
  lemma AssignValueAt(ts: seq<Token>, i: nat, n: nat, level: nat, key: string, v: seq<Token>)
    requires TokensAt(ts, i, AssignTokens(n, level, key, v))
    ensures TokensAt(ts, i + 3, v)
  {
    TokensAtSplit(ts, i, [Token(Indent, "", n, level)], [Token(Identifier, key, n, 0), Marker(VineWhip, n)] + v);
    TokensAtSplit(ts, i + 1, [Token(Identifier, key, n, 0), Marker(VineWhip, n)], v);
  }

  // ---------------------------------------------------------------------
  // One statement of the main loop

  /** The statement after an assignment line's indent sets the key, after
      cutting the stack back when the line is less indented than the current
      level, and ends after the value. */
  lemma AssignStatement(d: Dialect, ts: seq<Token>, i: nat, n: nat, level: nat, key: string, v: seq<Token>,
                        value: Value, st: State)
    requires Valid(st) && level <= st.level && key != ReservedKey
    requires TokensAt(ts, i, AssignTokens(n, level, key, v))
    requires ParseValue(d, ts, i + 3) == Ok(Parsed(value, i + 3 + |v|))
    ensures i + 1 < |ts| && ts[i].kind == Indent && ts[i].level == level
    ensures Statement(d, ts, i + 1, level, st) ==
      Ok(Step(Assign(if level < st.level then Dedent(st, level) else st, key, value), i + 3 + |v|))
  {
    AssignHeads(ts, i, n, level, key, v);
  }

  /** The indent, the key and the arrow of an assignment line. */
  lemma AssignHeads(ts: seq<Token>, i: nat, n: nat, level: nat, key: string, v: seq<Token>)
    requires TokensAt(ts, i, AssignTokens(n, level, key, v))
    ensures i + 2 < |ts| && ts[i] == Token(Indent, "", n, level)
    ensures ts[i + 1] == Token(Identifier, key, n, 0) && ts[i + 2] == Marker(VineWhip, n)
  {
    var a := AssignTokens(n, level, key, v);
    assert At(ts, i) == a[0];
    assert At(ts, i + 1) == a[1];
    assert At(ts, i + 2) == a[2];
  }

  /** An assignment line moves the main loop past its tokens, with the key
      set in the map on top of the stack. */
  lemma AssignRun(d: Dialect, ts: seq<Token>, i: nat, n: nat, level: nat, key: string, v: seq<Token>,
                  value: Value, st: State)
    requires Valid(st) && level <= st.level && key != ReservedKey
    requires TokensAt(ts, i, AssignTokens(n, level, key, v))
    requires ParseValue(d, ts, i + 3) == Ok(Parsed(value, i + 3 + |v|))
    ensures Run(d, ts, i, st) ==
      Run(d, ts, i + 3 + |v|, Assign(if level < st.level then Dedent(st, level) else st, key, value))
  {
    AssignStatement(d, ts, i, n, level, key, v, value, st);
  }

  /** A section header of stage `stage`, indented one level less than its
      stage, opens the section. */
  lemma SectionRun(d: Dialect, ts: seq<Token>, i: nat, n: nat, level: nat, stage: nat, name: string, st: State)
    requires Valid(st) && 1 <= stage <= |st.stack| && level + 1 == stage && name != ReservedKey
    requires TokensAt(ts, i, SectionTokens(d, n, level, stage, name))
    ensures Run(d, ts, i, st) == Run(d, ts, i + 4, OpenSection(st, stage, name))
  {
    var a := SectionTokens(d, n, level, stage, name);
    assert At(ts, i) == a[0];
    assert At(ts, i + 1) == a[1];
    assert At(ts, i + 2) == a[2];
    assert At(ts, i + 3) == a[3];
  }

  // ---------------------------------------------------------------------
  // The values

  lemma ReadString(d: Dialect, ts: seq<Token>, j: nat, s: string, n: nat)
    requires TokensAt(ts, j, [Token(StringLit, s, n, 0)])
    ensures ParseValue(d, ts, j) == Ok(Parsed(Str(s), j + 1))
  {
    TokenAt(ts, j, Token(StringLit, s, n, 0));
  }

  lemma ReadBool(d: Dialect, ts: seq<Token>, j: nat, s: string, n: nat)
    requires TokensAt(ts, j, [Token(BoolLit, s, n, 0)])
    ensures ParseValue(d, ts, j) == Ok(Parsed(Bool(s == "true"), j + 1))
  {
    TokenAt(ts, j, Token(BoolLit, s, n, 0));
  }

  lemma ReadNull(d: Dialect, ts: seq<Token>, j: nat, n: nat)
    requires TokensAt(ts, j, [Marker(NullLit, n)])
    ensures ParseValue(d, ts, j) == Ok(Parsed(Null, j + 1))
  {
    TokenAt(ts, j, Marker(NullLit, n));
  }

  lemma ReadNumber(d: Dialect, ts: seq<Token>, j: nat, s: string, n: nat)
    requires TokensAt(ts, j, [Token(NumberLit, s, n, 0)]) && NumberValue(d, s).Ok?
    ensures ParseValue(d, ts, j) == Ok(Parsed(NumberValue(d, s).value, j + 1))
  {
    TokenAt(ts, j, Token(NumberLit, s, n, 0));
  }

  /** A string element is added to the elements read so far. */
  lemma ElementString(d: Dialect, ts: seq<Token>, j: nat, acc: seq<Value>, s: string, n: nat)
    requires AllPlain(acc) && TokensAt(ts, j, [Token(StringLit, s, n, 0)])
    ensures AllPlain(acc + [Str(s)])
    ensures ParseElements(d, ts, j, acc) == ParseElements(d, ts, j + 1, acc + [Str(s)])
  {
    TokenAt(ts, j, Token(StringLit, s, n, 0));
    PlainAppend(acc, [Str(s)]);
  }

  /** A two-string array is read element by element, the comma skipped. */
  lemma ReadPair(d: Dialect, ts: seq<Token>, j: nat, n: nat, s1: string, s2: string)
    requires TokensAt(ts, j, PairTokensOf(n, s1, s2))
    ensures ParseValue(d, ts, j) == Ok(Parsed(Array([Str(s1), Str(s2)]), j + 5))
  {
    var a := PairTokensOf(n, s1, s2);
    assert At(ts, j) == a[0];
    assert At(ts, j + 2) == a[2];
    assert At(ts, j + 4) == a[4];
    assert TokensAt(ts, j + 1, [a[1]]) by { assert At(ts, j + 1) == a[1]; }
    assert TokensAt(ts, j + 3, [a[3]]) by { assert At(ts, j + 3) == a[3]; }
    var none: seq<Value> := [];
    ElementString(d, ts, j + 1, none, s1, n);
    assert none + [Str(s1)] == [Str(s1)];
    ElementString(d, ts, j + 3, [Str(s1)], s2, n);
    assert [Str(s1)] + [Str(s2)] == [Str(s1), Str(s2)];
  }

  /** A decimal fraction converts to a double in every implementation. */
  lemma FractionValue(d: Dialect, s: string)
    requires |s| == 3 && IsDigit(s[0]) && s[1] == '.' && IsDigit(s[2])
    ensures NumberValue(d, s) == Ok(Float(s))
  {
    FractionIsDecimal(s);
    RunFromExact(s, Digit, 0, 1);
    assert SignedDecimal(s, 0).None?;
    DecimalIsGoFloat(s);
  }

  /** The digits of `100` stand for 100. */
  lemma HundredValueOf()
    ensures AllDigits("100") && DecimalValue("100") == 100
  {
    var s := "100";
    assert s[..2] == "10" && "10"[..1] == "1" && "1"[..0] == [];
  }

  /** `100` is one run of digits, with no space before it. */
  lemma HundredRun()
    ensures LeadingCount("100", CSpace) == 0 && RunFrom("100", Digit, 0) == 3
  {
    var s := "100";
    assert !In(CSpace, s[0]);
    RunFromExact(s, CSpace, 0, 0);
    RunFromExact(s, Digit, 0, 3);
  }

  /** `100` read as a signed decimal is 100, and it is a decimal float. */
  lemma HundredDigits()
    ensures LeadingCount("100", CSpace) == 0 && SignedDecimal("100", 0) == Some(100)
    ensures IsDecimalFloat("100", 0)
  {
    HundredRun();
    HundredValueOf();
    assert "100"[0..] == "100";
  }

  /** `100` converts to the integer 100 in C++ and Go, to a double in
      Rust. */
  lemma HundredConverts(d: Dialect)
    ensures NumberValue(d, "100") == Ok(Hundred(d))
  {
    HundredDigits();
  }

  /** The pool's number token is read as `Hundred`. */
  lemma ReadHundred(d: Dialect, ts: seq<Token>, j: nat, n: nat)
    requires TokensAt(ts, j, [Token(NumberLit, "100", n, 0)])
    ensures ParseValue(d, ts, j) == Ok(Parsed(Hundred(d), j + 1))
  {
    HundredConverts(d);
    ReadNumber(d, ts, j, "100", n);
  }

  // ---------------------------------------------------------------------
  // The parser's states along the document

  /** The state with only the root on the stack. */
  function Top(root: map<string, Value>): State
  {
    State(root, [Frame([], 0)], 0)
  }

  /** The root after the four assignments at the top. */
  function Base(): map<string, Value>
  {
    map["app_name" := Str("Pokedex_API"), "version" := Float("1.5"), "is_production" := Bool(false),
        "missing_data" := Null]
  }

  /** The root with `fields` as the database section. */
  function InDatabase(fields: map<string, Value>): map<string, Value>
  {
    Base()["database" := Object(fields)]
  }

  /** Inside the database section, whose map is `fields`. */
  function DatabaseState(fields: map<string, Value>): State
  {
    State(InDatabase(fields), [Frame([], 0), Frame(["database"], 1)], 1)
  }

  /** Inside the pool section, whose map is `pool`. */
  function PoolState(pool: map<string, Value>): State
  {
    State(InDatabase(map["host" := Str("127.0.0.1"), "pool" := Object(pool)]),
      [Frame([], 0), Frame(["database"], 1), Frame(["database", "pool"], 2)], 2)
  }

  /** Inside the kernel flags section, whose map is `flags`. */
  function KernelState(d: Dialect, flags: map<string, Value>): State
  {
    State(InDatabase(map["host" := Str("127.0.0.1"),
                         "pool" := Object(map["max_connections" := Hundred(d), "KERNEL_FLAGS" := Object(flags)])]),
      [Frame([], 0), Frame(["database"], 1), Frame(["database", "pool"], 2),
       Frame(["database", "pool", "KERNEL_FLAGS"], 3)], 3)
  }

  /** Setting a key twice keeps the second value. */
  lemma Override(m: map<string, Value>, k: string, a: Value, b: Value)
    ensures m[k := a][k := b] == m[k := b]
  {
  }

  /** At the top, an assignment adds its key to the root. */
  lemma TopAssign(m: map<string, Value>, key: string, v: Value)
    ensures Valid(Top(m)) && Assign(Top(m), key, v) == Top(m[key := v])
  {
    assert Lookup(m, []) == Some(Object(m));
  }

  /** The database header pushes the database map. */
  lemma OpenDatabase()
    ensures Valid(Top(Base())) && OpenSection(Top(Base()), 1, "database") == DatabaseState(map[])
  {
    TopAssign(Base(), "database", Object(map[]));
    var st := Top(Base());
    assert st.stack[..1] == [Frame([], 0)];
    assert [] + ["database"] == ["database"];
  }

  /** The host goes into the database map. */
  lemma HostAssign()
    ensures Valid(DatabaseState(map[])) &&
      Assign(DatabaseState(map[]), "host", Str("127.0.0.1")) == DatabaseState(map["host" := Str("127.0.0.1")])
  {
    OpenDatabase();
    Override(Base(), "database", Object(map[]), Object(map["host" := Str("127.0.0.1")]));
  }

  /** The pool header, inside the database section, pushes the pool map. */
  lemma OpenPool()
    ensures var st := DatabaseState(map["host" := Str("127.0.0.1")]);
      Valid(st) && 2 <= |st.stack| && OpenSection(st, 2, "pool") == PoolState(map[])
  {
    HostAssign();
    var st := DatabaseState(map["host" := Str("127.0.0.1")]);
    assert st.stack[..2] == st.stack;
    assert ["database"] + ["pool"] == ["database", "pool"];
    Override(Base(), "database", Object(map["host" := Str("127.0.0.1")]),
      Object(map["host" := Str("127.0.0.1"), "pool" := Object(map[])]));
  }

  /** The connection limit goes into the pool map. */
  lemma MaxConnectionsAssign(d: Dialect)
    ensures Valid(PoolState(map[])) &&
      Assign(PoolState(map[]), "max_connections", Hundred(d)) == PoolState(map["max_connections" := Hundred(d)])
  {
    OpenPool();
    var host := map["host" := Str("127.0.0.1")];
    Override(host, "pool", Object(map[]), Object(map["max_connections" := Hundred(d)]));
    Override(Base(), "database", Object(host["pool" := Object(map[])]),
      Object(host["pool" := Object(map["max_connections" := Hundred(d)])]));
  }

  /** The kernel header, inside the pool section, pushes the kernel map. */
  lemma OpenKernel(d: Dialect)
    ensures var st := PoolState(map["max_connections" := Hundred(d)]);
      Valid(st) && 3 <= |st.stack| && OpenSection(st, 3, "KERNEL_FLAGS") == KernelState(d, map[])
  {
    MaxConnectionsAssign(d);
    var st := PoolState(map["max_connections" := Hundred(d)]);
    assert st.stack[..3] == st.stack;
    assert ["database", "pool"] + ["KERNEL_FLAGS"] == ["database", "pool", "KERNEL_FLAGS"];
    var host := map["host" := Str("127.0.0.1")];
    var pool := map["max_connections" := Hundred(d)];
    Override(host, "pool", Object(pool), Object(pool["KERNEL_FLAGS" := Object(map[])]));
    Override(Base(), "database", Object(host["pool" := Object(pool)]),
      Object(host["pool" := Object(pool["KERNEL_FLAGS" := Object(map[])])]));
  }

  /** The panic flag goes into the kernel map. */
  lemma PanicAssign(d: Dialect)
    ensures Valid(KernelState(d, map[])) &&
      Assign(KernelState(d, map[]), "panic_on_fail", Bool(true)) == KernelState(d, map["panic_on_fail" := Bool(true)])
  {
    OpenKernel(d);
    var host := map["host" := Str("127.0.0.1")];
    var pool := map["max_connections" := Hundred(d)];
    var flags := map["panic_on_fail" := Bool(true)];
    Override(pool, "KERNEL_FLAGS", Object(map[]), Object(flags));
    Override(host, "pool", Object(pool["KERNEL_FLAGS" := Object(map[])]), Object(pool["KERNEL_FLAGS" := Object(flags)]));
    Override(Base(), "database", Object(host["pool" := Object(pool["KERNEL_FLAGS" := Object(map[])])]),
      Object(host["pool" := Object(pool["KERNEL_FLAGS" := Object(flags)])]));
  }

  /** The whitelist, back at the top, closes the three sections and
      completes the tree the tests expect. */
  lemma WhitelistAssign(d: Dialect)
    ensures var st := KernelState(d, map["panic_on_fail" := Bool(true)]);
      Valid(st) && Assign(Dedent(st, 0), "whitelist", Array([Str("Prof_Oak"), Str("Mom")])) == Top(Expected(d))
  {
    PanicAssign(d);
    var st := KernelState(d, map["panic_on_fail" := Bool(true)]);
    assert st.stack[..1] == [Frame([], 0)];
    assert Dedent(st, 0) == Top(st.root);
    TopAssign(st.root, "whitelist", Array([Str("Prof_Oak"), Str("Mom")]));
  }

  // ---------------------------------------------------------------------
  // The main loop along the document

  /** An assignment at the top adds its key to the root. */
  lemma TopRun(d: Dialect, ts: seq<Token>, i: nat, n: nat, key: string, v: seq<Token>, value: Value,
               m: map<string, Value>)
    requires key != ReservedKey && TokensAt(ts, i, AssignTokens(n, 0, key, v))
    requires ParseValue(d, ts, i + 3) == Ok(Parsed(value, i + 3 + |v|))
    ensures Run(d, ts, i, Top(m)) == Run(d, ts, i + 3 + |v|, Top(m[key := value]))
  {
    TopAssign(m, key, value);
    AssignRun(d, ts, i, n, 0, key, v, value, Top(m));
  }

  /** The name and the version. */
  lemma RunAppName(d: Dialect, ts: seq<Token>)
    requires TokensAt(ts, 1, AppNameChunk()) && TokensAt(ts, 5, VersionChunk())
    ensures Run(d, ts, 1, Init()) ==
      Run(d, ts, 9, Top(map["app_name" := Str("Pokedex_API"), "version" := Float("1.5")]))
  {
    AssignValueAt(ts, 1, 3, 0, "app_name", [Token(StringLit, "Pokedex_API", 3, 0)]);
    ReadString(d, ts, 4, "Pokedex_API", 3);
    TopRun(d, ts, 1, 3, "app_name", [Token(StringLit, "Pokedex_API", 3, 0)], Str("Pokedex_API"), map[]);
    AssignValueAt(ts, 5, 4, 0, "version", [Token(NumberLit, "1.5", 4, 0)]);
    FractionValue(d, "1.5");
    ReadNumber(d, ts, 8, "1.5", 4);
    TopRun(d, ts, 5, 4, "version", [Token(NumberLit, "1.5", 4, 0)], Float("1.5"),
      map["app_name" := Str("Pokedex_API")]);
  }

  /** The production flag and the missing data. */
  lemma RunProduction(d: Dialect, ts: seq<Token>)
    requires TokensAt(ts, 9, ProductionChunk()) && TokensAt(ts, 13, MissingChunk())
    ensures Run(d, ts, 9, Top(map["app_name" := Str("Pokedex_API"), "version" := Float("1.5")])) ==
      Run(d, ts, 17, Top(Base()))
  {
    var m := map["app_name" := Str("Pokedex_API"), "version" := Float("1.5")];
    AssignValueAt(ts, 9, 5, 0, "is_production", [Token(BoolLit, "false", 5, 0)]);
    ReadBool(d, ts, 12, "false", 5);
    TopRun(d, ts, 9, 5, "is_production", [Token(BoolLit, "false", 5, 0)], Bool(false), m);
    AssignValueAt(ts, 13, 6, 0, "missing_data", [Marker(NullLit, 6)]);
    ReadNull(d, ts, 16, 6);
    TopRun(d, ts, 13, 6, "missing_data", [Marker(NullLit, 6)], Null, m["is_production" := Bool(false)]);
  }

  /** The database section and its host. */
  lemma RunDatabase(d: Dialect, ts: seq<Token>)
    requires TokensAt(ts, 17, DatabaseChunk(d)) && TokensAt(ts, 21, HostChunk())
    ensures Valid(Top(Base())) && Valid(DatabaseState(map["host" := Str("127.0.0.1")]))
    ensures Run(d, ts, 17, Top(Base())) == Run(d, ts, 25, DatabaseState(map["host" := Str("127.0.0.1")]))
  {
    OpenDatabase();
    HostAssign();
    SectionRun(d, ts, 17, 9, 0, 1, "database", Top(Base()));
    AssignValueAt(ts, 21, 10, 1, "host", [Token(StringLit, "127.0.0.1", 10, 0)]);
    ReadString(d, ts, 24, "127.0.0.1", 10);
    AssignRun(d, ts, 21, 10, 1, "host", [Token(StringLit, "127.0.0.1", 10, 0)], Str("127.0.0.1"),
      DatabaseState(map[]));
  }

  /** The pool header. */
  lemma RunPoolHeader(d: Dialect, ts: seq<Token>)
    requires TokensAt(ts, 25, PoolChunk(d))
    ensures Valid(DatabaseState(map["host" := Str("127.0.0.1")])) && Valid(PoolState(map[]))
    ensures Run(d, ts, 25, DatabaseState(map["host" := Str("127.0.0.1")])) == Run(d, ts, 29, PoolState(map[]))
  {
    OpenPool();
    SectionRun(d, ts, 25, 13, 1, 2, "pool", DatabaseState(map["host" := Str("127.0.0.1")]));
  }

  /** The pool section and its connection limit. */
  lemma RunPool(d: Dialect, ts: seq<Token>)
    requires TokensAt(ts, 25, PoolChunk(d)) && TokensAt(ts, 29, MaxConnectionsChunk())
    ensures Valid(DatabaseState(map["host" := Str("127.0.0.1")])) && Valid(PoolState(map["max_connections" := Hundred(d)]))
    ensures Run(d, ts, 25, DatabaseState(map["host" := Str("127.0.0.1")])) ==
      Run(d, ts, 33, PoolState(map["max_connections" := Hundred(d)]))
  {
    RunPoolHeader(d, ts);
    MaxConnectionsAssign(d);
    AssignValueAt(ts, 29, 14, 2, "max_connections", [Token(NumberLit, "100", 14, 0)]);
    ReadHundred(d, ts, 32, 14);
    AssignRun(d, ts, 29, 14, 2, "max_connections", [Token(NumberLit, "100", 14, 0)], Hundred(d),
      PoolState(map[]));
  }

  /** The kernel section and its flag. */
  lemma RunKernel(d: Dialect, ts: seq<Token>)
    requires TokensAt(ts, 33, KernelChunk(d)) && TokensAt(ts, 37, PanicChunk())
    ensures Valid(PoolState(map["max_connections" := Hundred(d)])) &&
      Valid(KernelState(d, map["panic_on_fail" := Bool(true)]))
    ensures Run(d, ts, 33, PoolState(map["max_connections" := Hundred(d)])) ==
      Run(d, ts, 41, KernelState(d, map["panic_on_fail" := Bool(true)]))
  {
    OpenKernel(d);
    PanicAssign(d);
    SectionRun(d, ts, 33, 17, 2, 3, "KERNEL_FLAGS", PoolState(map["max_connections" := Hundred(d)]));
    AssignValueAt(ts, 37, 18, 3, "panic_on_fail", [Token(BoolLit, "true", 18, 0)]);
    ReadBool(d, ts, 40, "true", 18);
    AssignRun(d, ts, 37, 18, 3, "panic_on_fail", [Token(BoolLit, "true", 18, 0)], Bool(true),
      KernelState(d, map[]));
  }

  /** The whitelist, back at the top, and the end of the document. */
  lemma RunWhitelist(d: Dialect, ts: seq<Token>)
    requires TokensAt(ts, 41, WhitelistChunk()) && |ts| == 50 && ts[49] == Marker(Eof, 21)
    ensures Valid(KernelState(d, map["panic_on_fail" := Bool(true)]))
    ensures Run(d, ts, 41, KernelState(d, map["panic_on_fail" := Bool(true)])) == Ok(Expected(d))
  {
    WhitelistAssign(d);
    var st := KernelState(d, map["panic_on_fail" := Bool(true)]);
    AssignValueAt(ts, 41, 21, 0, "whitelist", PairTokensOf(21, "Prof_Oak", "Mom"));
    ReadPair(d, ts, 44, 21, "Prof_Oak", "Mom");
    AssignRun(d, ts, 41, 21, 0, "whitelist", PairTokensOf(21, "Prof_Oak", "Mom"),
      Array([Str("Prof_Oak"), Str("Mom")]), st);
  }

  /** The parser reads the document's tokens as the tree the tests expect. */
  lemma ParseDocumentTokens(d: Dialect)
    ensures ParseTokens(d, DocumentTokens(d)) == Ok(Expected(d))
  {
    var ts := DocumentTokens(d);
    BodyAt(d);
    LaterAt(d, ts);
    OpeningAt(d, ts);
    HeadAt(ts);
    assert Init() == Top(map[]);
    RunAppName(d, ts);
    RunProduction(d, ts);
    RunDatabase(d, ts);
    RunPool(d, ts);
    RunKernel(d, ts);
    RunWhitelist(d, ts);
  }

  /** The valid document of the test suites gives, in every implementation,
      the tree the tests expect: the pool's connection limit an integer in
      C++ and Go and a double in Rust, the version a double, the whitelist
      an array of two strings. */
  lemma ParseDocument(d: Dialect)
    ensures Parse(d, Lines()) == Ok(Expected(d))
  {
    LexDocument(d);
    ParseDocumentTokens(d);
  }
}
