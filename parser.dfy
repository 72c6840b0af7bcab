/** The structural parser as the implementations write it (`BSONParser`, Go
    `Parse`, Rust `parse`): a loop over the tokens with a cursor, a context
    stack and `currentLevel` held in fields, and stack frames popped one at a
    time. Each method is proved to do what the functions of module
    `Structure` say. */
module Parsing {
  import opened Errors
  import opened Tokens
  import opened Document
  import opened Structure
  import opened StructureProps
  import Frontend
  import Tokenizer
  import Lexical

  class Parser {
    /** Which implementation's behaviour this parser follows. */
    const dialect: Dialect
    /** The tree being built (`root` / `result` / `state`). */
    var root: map<string, Value>
    /** The context stack; a frame designates its map by its path of keys. */
    var stack: seq<Frame>
    var currentLevel: nat

    /** The fields as a parser state. */
    ghost function Snapshot(): State
      reads this
    {
      State(root, stack, currentLevel)
    }

    /** C++ `BSONParser()`: no stack yet, level 0. */
    constructor(d: Dialect)
      ensures dialect == d && root == map[] && stack == [] && currentLevel == 0
    {
      dialect := d;
      root := map[];
      stack := [];
      currentLevel := 0;
    }

    /** `parseValueFromTokens`: the value starting at index `i` and the
        index after it. The array case loops with its own cursor. */
    method ParseValueFromTokens(ts: seq<Token>, i: nat) returns (r: Result<Parsed>)
      ensures r == ParseValue(dialect, ts, i)
      decreases |ts| - i
    {
      if i >= |ts| {
        return Err(SyntaxError);
      }
      var t := ts[i];
      match t.kind {
        case StringLit =>
          return Ok(Parsed(Str(t.literal), i + 1));
        case NumberLit =>
          var v := NumberValue(dialect, t.literal);
          if v.Err? {
            return Err(v.error);
          }
          return Ok(Parsed(v.value, i + 1));
        case BoolLit =>
          return Ok(Parsed(Bool(t.literal == "true"), i + 1));
        case NullLit =>
          return Ok(Parsed(Null, i + 1));
        case ArrayStart =>
          var arr: seq<Value> := [];
          var cur := i + 1;
          while cur < |ts|
            invariant i < cur <= |ts|
            invariant forall k :: 0 <= k < |arr| ==> IsPlain(arr[k])
            invariant ParseElements(dialect, ts, cur, arr) == ParseValue(dialect, ts, i)
            decreases |ts| - cur
          {
            if ts[cur].kind == ArrayEnd {
              return Ok(Parsed(Array(arr), cur + 1));
            }
            if ts[cur].kind == Comma {
              cur := cur + 1;
              continue;
            }
            var p := ParseValueFromTokens(ts, cur);
            if p.Err? {
              return Err(p.error);
            }
            arr := arr + [p.value.value];
            cur := p.value.next;
          }
          return Err(if dialect == Rust then TypeError else SyntaxError);
        case _ =>
          return Err(TypeError);
      }
    }

    /** The pop loop shared by both statements: frames are removed from the
        top until `n` remain. */
    method PopTo(n: nat)
      requires n <= |stack|
      modifies this
      ensures stack == old(stack)[..n] && root == old(root) && currentLevel == old(currentLevel)
    {
      while |stack| > n
        invariant n <= |stack| <= |old(stack)|
        invariant stack == old(stack)[..|stack|]
        invariant root == old(root) && currentLevel == old(currentLevel)
        decreases |stack|
      {
        stack := stack[..|stack| - 1];
      }
    }

    /** The section-header branch of the loop, at the opening marker `i`
        after an indent of level `e`: the checks, the pops down to `h`
        frames, the new map stored in the parent and pushed. Returns the
        index after the closing marker. */
    method ParseSection(ts: seq<Token>, i: nat, e: nat) returns (r: Result<nat>)
      requires i < |ts| && ts[i].kind == SectionOpen && Valid(Snapshot())
      modifies this
      ensures var spec := Section(dialect, ts, i, e, old(Snapshot()));
        (spec.Ok? ==> r == Ok(spec.value.next) && Snapshot() == spec.value.state) &&
        (spec.Err? ==> r == Err(spec.error))
    {
      ghost var st0 := Snapshot();
      var h: int := ts[i].level;
      if dialect == Rust && h == 0 {
        return Err(Crash);
      }
      if e != h - 1 {
        return Err(IndentationError);
      }
      if |stack| < h {
        return Err(BadgesError);
      }
      if i + 1 >= |ts| || ts[i + 1].kind != Identifier {
        return Err(SyntaxError);
      }
      var key := ts[i + 1].literal;
      if key == ReservedKey {
        return Err(ReservedKeyError);
      }
      if i + 2 >= |ts| || ts[i + 2].kind != SectionClose {
        return Err(SyntaxError);
      }
      PopTo(h);
      ghost var spec := OpenSection(st0, h, key);
      assert stack == st0.stack[..h];
      var parent := stack[h - 1].path;
      assert parent == TopPath(st0)[..h - 1];
      ObjectPathPrefix(st0.root, TopPath(st0), h - 1);
      root := InsertAt(root, parent, key, Object(map[]));
      stack := stack + [Frame(parent + [key], h)];
      currentLevel := h;
      assert Snapshot() == spec;
      return Ok(i + 3);
    }

    /** The assignment branch of the loop, at the key `i` after an indent of
        level `e`: the indentation check and the pops of a dedent, the key
        check, the arrow, the value, and the write into the map on top of
        the stack. Returns the index after the value. */
    method ParseAssignment(ts: seq<Token>, i: nat, e: nat) returns (r: Result<nat>)
      requires i < |ts| && ts[i].kind == Identifier && Valid(Snapshot())
      modifies this
      ensures var spec := Assignment(dialect, ts, i, e, old(Snapshot()));
        (spec.Ok? ==> r == Ok(spec.value.next) && Snapshot() == spec.value.state) &&
        (spec.Err? ==> r == Err(spec.error))
    {
      ghost var st0 := Snapshot();
      if e > currentLevel {
        return Err(IndentationError);
      }
      if e < currentLevel {
        PopTo(e + 1);
        currentLevel := e;
        assert Snapshot() == Dedent(st0, e);
      }
      ghost var st1 := Snapshot();
      assert Valid(st1);
      var key := ts[i].literal;
      if key == ReservedKey {
        return Err(ReservedKeyError);
      }
      if i + 1 >= |ts| || ts[i + 1].kind != VineWhip {
        return Err(SyntaxError);
      }
      var p := ParseValueFromTokens(ts, i + 2);
      if p.Err? {
        return Err(p.error);
      }
      root := InsertAt(root, stack[|stack| - 1].path, key, p.value.value);
      assert Snapshot() == Assign(st1, key, p.value.value);
      return Ok(p.value.next);
    }

    /** The statement after an indent token: a section header or an
        assignment; any other token there is a syntax error. */
    method ParseStatement(ts: seq<Token>, i: nat, e: nat) returns (r: Result<nat>)
      requires i < |ts| && Valid(Snapshot())
      modifies this
      ensures var spec := Statement(dialect, ts, i, e, old(Snapshot()));
        (spec.Ok? ==> r == Ok(spec.value.next) && Snapshot() == spec.value.state) &&
        (spec.Err? ==> r == Err(spec.error))
    {
      if ts[i].kind == SectionOpen {
        r := ParseSection(ts, i, e);
      } else if ts[i].kind == Identifier {
        r := ParseAssignment(ts, i, e);
      } else {
        r := Err(SyntaxError);
      }
    }

    /** The parse loop (`parse` after lexing): from a fresh root and a stack
        holding only it, every indent token starts a statement, the
        end-of-file token stops, any other token is skipped. */
    method ParseTokens(ts: seq<Token>) returns (r: Result<map<string, Value>>)
      modifies this
      ensures r == Structure.ParseTokens(dialect, ts)
      ensures r.Ok? ==> r.value == root && Valid(Snapshot())
      ensures r.Ok? && StagesBounded(ts) ==> currentLevel <= 3 && |stack| <= 4
    {
      root := map[];
      stack := [Frame([], 0)];
      currentLevel := 0;
      var i := 0;
      while i < |ts|
        invariant Valid(Snapshot())
        invariant Run(dialect, ts, i, Snapshot()) == Structure.ParseTokens(dialect, ts)
        invariant StagesBounded(ts) ==> currentLevel <= 3
        decreases |ts| - i
      {
        if ts[i].kind == Eof {
          break;
        }
        if ts[i].kind == Indent {
          var e := ts[i].level;
          if i + 1 >= |ts| {
            break;
          }
          ghost var before := Snapshot();
          var next := ParseStatement(ts, i + 1, e);
          if next.Err? {
            return Err(next.error);
          }
          if StagesBounded(ts) {
            StatementDepth(dialect, ts, i + 1, e, before);
          }
          i := next.value;
        } else {
          i := i + 1;
        }
      }
      return Ok(root);
    }

    /** `parse(content)`: lexing, then the parse loop; a lexer failure is
        returned as it is. */
    method Parse(lines: seq<string>) returns (r: Result<map<string, Value>>)
      modifies this
      ensures r == Frontend.Parse(dialect, lines)
      ensures r.Ok? ==> currentLevel <= 3 && |stack| <= 4
    {
      var lexer := new Tokenizer.Lexer(dialect);
      var ts := lexer.Tokenize(lines);
      ghost var lexed := Lexical.Lex(dialect, lines);
      if ts.Err? {
        assert lexed.Err? && ts.error == lexed.error;
        return Err(ts.error);
      }
      assert lexed.Ok? && ts.value == [] + lexed.value;
      assert [] + lexed.value == lexed.value;
      Frontend.LexStages(dialect, lines);
      r := ParseTokens(ts.value);
    }
  }
}
