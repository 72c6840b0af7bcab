/** What the structural parser of each implementation makes of a token
    sequence (`BSONParser::parse` / `Parse` / `parse`): a tree of maps, or the
    first failure. This is the specification the `Parser` class is proved
    against. */
module Structure {
  import opened Errors
  import opened Numbers
  import opened Tokens
  import opened Document

  /** The one key `validateKey` refuses. */
  const ReservedKey: string := "Charizard"

  /** A stack entry: the map it designates, given by its path from the root,
      and the level it was opened at (C++ `{map, level}`). */
  datatype Frame = Frame(path: Path, level: nat)

  /** The parser's state between statements: the tree, the context stack and
      `currentLevel`. */
  datatype State = State(root: map<string, Value>, stack: seq<Frame>, level: nat)

  /** The stack and level before the first token: only the root, at level 0. */
  function Init(): (st: State)
    ensures Valid(st)
  {
    State(map[], [Frame([], 0)], 0)
  }

  /** The map on top of the stack, where assignments go. */
  function TopPath(st: State): Path
    requires |st.stack| > 0
  {
    st.stack[|st.stack| - 1].path
  }

  /** The invariant kept between statements: one frame per level up to the
      current one, frame `k` at level `k`, each frame the `k`-key prefix of
      the top frame's path, and the top frame a map of the tree. */
  predicate Valid(st: State)
  {
    |st.stack| == st.level + 1 &&
    (forall k :: 0 <= k < |st.stack| ==>
       st.stack[k].level == k && |st.stack[k].path| == k && IsPrefix(st.stack[k].path, TopPath(st))) &&
    IsObjectPath(st.root, TopPath(st))
  }

  /** The failures the parser can raise itself; the header and tab failures
      come only from the lexer. */
  predicate IsParserError(e: Error)
  {
    e != HeaderError && e != TabError
  }

  /** A value read from the tokens and the index after it. */
  datatype Parsed = Parsed(value: Value, next: nat)

  /** A statement's new state and the index after it. */
  datatype Step = Step(state: State, next: nat)

  /** No map inside: the values a value reader can return. */
  predicate IsPlain(v: Value)
  {
    match v
    case Array(es) => forall i :: 0 <= i < |es| ==> IsPlain(es[i])
    case Object(_) => false
    case _ => true
  }

  /** A number token's value: C++ tries `stoi` over the whole text and then
      `stod`; Go `Atoi` and then `ParseFloat`; Rust `parse::<f64>().unwrap()`,
      which panics on failure. */
  function NumberValue(d: Dialect, lit: string): (r: Result<Value>)
    ensures r.Ok? ==> r.value.Int? || r.value == Float(lit)
    ensures r.Ok? && r.value.Int? ==> d != Rust
    ensures r.Err? ==> (d == Rust && r.error == Crash) || (d != Rust && r.error == TypeError)
  {
    match d
    case Cpp =>
      (match Stoi(lit)
       case Some(v) => Ok(Int(v))
       case None => if StodPrefix(lit) then Ok(Float(lit)) else Err(TypeError))
    case Go =>
      (match Atoi(lit)
       case Some(v) => Ok(Int(v))
       case None => if GoParseFloat(lit) then Ok(Float(lit)) else Err(TypeError))
    case Rust =>
      if IsDecimalFloat(lit, 0) then Ok(Float(lit)) else Err(Crash)
  }

  /** `parseValueFromTokens`: the value starting at index `i` and the index
      after it. */
  function ParseValue(d: Dialect, ts: seq<Token>, i: nat): (r: Result<Parsed>)
    ensures r.Ok? ==> i < r.value.next <= |ts| && IsPlain(r.value.value)
    ensures r.Err? ==> r.error in {SyntaxError, TypeError} || (d == Rust && r.error == Crash)
    decreases |ts| - i, 0
  {
    if i >= |ts| then Err(SyntaxError)
    else
      var t := ts[i];
      match t.kind
      case StringLit => Ok(Parsed(Str(t.literal), i + 1))
      case NumberLit =>
        var v :- NumberValue(d, t.literal);
        Ok(Parsed(v, i + 1))
      case BoolLit => Ok(Parsed(Bool(t.literal == "true"), i + 1))
      case NullLit => Ok(Parsed(Null, i + 1))
      case ArrayStart => ParseElements(d, ts, i + 1, [])
      case _ => Err(TypeError)
  }

  /** The loop of the array case, from index `j` with the elements `acc`
      read so far: commas are skipped, the closing token ends the array, and
      anything else is read as the next element. Running out of tokens is a
      syntax failure, in Rust a type failure. */
  function ParseElements(d: Dialect, ts: seq<Token>, j: nat, acc: seq<Value>): (r: Result<Parsed>)
    requires forall k :: 0 <= k < |acc| ==> IsPlain(acc[k])
    ensures r.Ok? ==> j < r.value.next <= |ts| && IsPlain(r.value.value)
    ensures r.Err? ==> r.error in {SyntaxError, TypeError} || (d == Rust && r.error == Crash)
    decreases |ts| - j, 1
  {
    if j >= |ts| then Err(if d == Rust then TypeError else SyntaxError)
    else if ts[j].kind == ArrayEnd then Ok(Parsed(Array(acc), j + 1))
    else if ts[j].kind == Comma then ParseElements(d, ts, j + 1, acc)
    else
      var p :- ParseValue(d, ts, j);
      ParseElements(d, ts, p.next, acc + [p.value])
  }

  /** The new state after a section header of stage `h` named `key`, with
      its markers accepted: the stack cut to `h` frames, an empty map stored
      under the name in the map of frame `h - 1`, that map pushed. */
  function OpenSection(st: State, h: nat, key: string): (r: State)
    requires Valid(st) && 1 <= h <= |st.stack|
    ensures Valid(r) && r.level == h
  {
    var stack := st.stack[..h];
    var parent := stack[h - 1].path;
    assert parent == TopPath(st)[..h - 1];
    ObjectPathPrefix(st.root, TopPath(st), h - 1);
    var root := InsertAt(st.root, parent, key, Object(map[]));
    var r := State(root, stack + [Frame(parent + [key], h)], h);
    InsertAtLookup(st.root, parent, key, Object(map[]));
    assert TopPath(r) == parent + [key];
    assert forall k :: 0 <= k < h ==> IsPrefix(r.stack[k].path, TopPath(r)) by {
      forall k | 0 <= k < h
        ensures IsPrefix(r.stack[k].path, TopPath(r))
      {
        assert r.stack[k] == st.stack[k];
        assert IsPrefix(parent, TopPath(st));
        assert (parent + [key])[..k] == parent[..k];
      }
    }
    r
  }

  /** The state after cutting the stack back to level `e` (the pop loop of a
      dedenting assignment). */
  function Dedent(st: State, e: nat): (r: State)
    requires Valid(st) && e <= st.level
    ensures Valid(r) && r.level == e && r.root == st.root
  {
    var r := State(st.root, st.stack[..e + 1], e);
    assert TopPath(r) == TopPath(st)[..e];
    ObjectPathPrefix(st.root, TopPath(st), e);
    assert forall k :: 0 <= k <= e ==> IsPrefix(r.stack[k].path, TopPath(r)) by {
      forall k | 0 <= k <= e
        ensures IsPrefix(r.stack[k].path, TopPath(r))
      {
        assert TopPath(st)[..e][..k] == TopPath(st)[..k];
      }
    }
    r
  }

  /** The state after `key` is set to `v` in the map on top of the stack. */
  function Assign(st: State, key: string, v: Value): (r: State)
    requires Valid(st)
    ensures Valid(r) && r.stack == st.stack && r.level == st.level
  {
    InsertAtKeepsObject(st.root, TopPath(st), key, v);
    State(InsertAt(st.root, TopPath(st), key, v), st.stack, st.level)
  }

  /** A section header statement: the opening marker at index `i`, indented
      to level `e`. Rust computes `h - 1` on an unsigned stage and panics for
      stage 0; the lexer never produces that stage. */
  function Section(d: Dialect, ts: seq<Token>, i: nat, e: nat, st: State): (r: Result<Step>)
    requires i < |ts| && ts[i].kind == SectionOpen && Valid(st)
    ensures r.Ok? ==> r.value.next == i + 3 <= |ts| && Valid(r.value.state)
    ensures r.Err? ==> IsParserError(r.error)
    decreases |ts| - i
  {
    var h := ts[i].level;
    if d == Rust && h == 0 then Err(Crash)
    else if e != h - 1 then Err(IndentationError)
    else if |st.stack| < h then Err(BadgesError)
    else if i + 1 >= |ts| || ts[i + 1].kind != Identifier then Err(SyntaxError)
    else if ts[i + 1].literal == ReservedKey then Err(ReservedKeyError)
    else if i + 2 >= |ts| || ts[i + 2].kind != SectionClose then Err(SyntaxError)
    else Ok(Step(OpenSection(st, h, ts[i + 1].literal), i + 3))
  }

  /** An assignment statement: the key at index `i`, indented to level `e`.
      A shallower indent closes sections first; a deeper one fails. */
  function Assignment(d: Dialect, ts: seq<Token>, i: nat, e: nat, st: State): (r: Result<Step>)
    requires i < |ts| && ts[i].kind == Identifier && Valid(st)
    ensures r.Ok? ==> i + 2 < r.value.next <= |ts| && Valid(r.value.state)
    ensures r.Err? ==> IsParserError(r.error)
    decreases |ts| - i
  {
    if e > st.level then Err(IndentationError)
    else
      var st1 := if e < st.level then Dedent(st, e) else st;
      var key := ts[i].literal;
      if key == ReservedKey then Err(ReservedKeyError)
      else if i + 1 >= |ts| || ts[i + 1].kind != VineWhip then Err(SyntaxError)
      else
        var p :- ParseValue(d, ts, i + 2);
        Ok(Step(Assign(st1, key, p.value), p.next))
  }

  /** What follows an indent token at index `i - 1` whose level is `e`. */
  function Statement(d: Dialect, ts: seq<Token>, i: nat, e: nat, st: State): (r: Result<Step>)
    requires i < |ts| && Valid(st)
    ensures r.Ok? ==> i < r.value.next <= |ts| && Valid(r.value.state)
    ensures r.Err? ==> IsParserError(r.error)
  {
    match ts[i].kind
    case SectionOpen => Section(d, ts, i, e, st)
    case Identifier => Assignment(d, ts, i, e, st)
    case _ => Err(SyntaxError)
  }

  /** The main loop from index `i` in state `st`: it stops at the end-of-file
      token or at the end of the tokens, and skips every token that starts
      no statement. */
  function Run(d: Dialect, ts: seq<Token>, i: nat, st: State): (r: Result<map<string, Value>>)
    requires Valid(st)
    ensures r.Err? ==> IsParserError(r.error)
    decreases |ts| - i
  {
    if i >= |ts| then Ok(st.root)
    else match ts[i].kind
      case Eof => Ok(st.root)
      case Indent =>
        if i + 1 >= |ts| then Ok(st.root)
        else
          var s :- Statement(d, ts, i + 1, ts[i].level, st);
          Run(d, ts, s.next, s.state)
      case _ => Run(d, ts, i + 1, st)
  }

  /** The parser proper, on a token sequence. */
  function ParseTokens(d: Dialect, ts: seq<Token>): (r: Result<map<string, Value>>)
    ensures r.Err? ==> IsParserError(r.error)
  {
    Run(d, ts, 0, Init())
  }
}
