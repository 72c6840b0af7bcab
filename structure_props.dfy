/** Properties of the parser specification: the effect of each statement
    on the tree and the stack, the failures each rule raises, and what holds
    of every tree the parser returns. */
module StructureProps {
  import opened Errors
  import opened Tokens
  import opened Document
  import opened Structure

  // ---------------------------------------------------------------------
  // Section headers

  /** Evolution rules. A stage-`h` header fails with the indentation
      failure unless it is indented to level `h - 1`, and with the badges
      failure when the stack holds fewer than `h` frames, that is when it is
      more than one stage deeper than the current level. */
  lemma SectionChecks(d: Dialect, ts: seq<Token>, i: nat, e: nat, st: State)
    requires i < |ts| && ts[i].kind == SectionOpen && Valid(st) && ts[i].level >= 1
    ensures e != ts[i].level - 1 ==> Section(d, ts, i, e, st) == Err(IndentationError)
    ensures e == ts[i].level - 1 && st.level + 1 < ts[i].level ==>
      Section(d, ts, i, e, st) == Err(BadgesError)
    ensures Section(d, ts, i, e, st).Ok? ==> e == ts[i].level - 1 && ts[i].level <= st.level + 1
  {
  }

  /** An accepted section header of stage `h` named `name`: the first `h`
      frames stay, the new top frame is level `h` and designates an empty
      map stored under `name` in the map of frame `h - 1`, and every part of
      the tree off that entry's path is as before. */
  lemma SectionEffect(d: Dialect, ts: seq<Token>, i: nat, e: nat, st: State)
    requires i < |ts| && ts[i].kind == SectionOpen && Valid(st)
    requires Section(d, ts, i, e, st).Ok?
    ensures var h := ts[i].level;
      var name := ts[i + 1].literal;
      var parent := st.stack[h - 1].path;
      var st' := Section(d, ts, i, e, st).value.state;
      1 <= h <= st.level + 1 && ts[i + 1].kind == Identifier && ts[i + 2].kind == SectionClose &&
      name != ReservedKey &&
      st'.level == h && st'.stack[..h] == st.stack[..h] &&
      TopPath(st') == parent + [name] &&
      Lookup(st'.root, TopPath(st')) == Some(Object(map[])) &&
      forall q :: !IsPrefix(q, parent + [name]) && !IsPrefix(parent + [name], q) ==>
        Lookup(st'.root, q) == Lookup(st.root, q)
  {
    var h := ts[i].level;
    var name := ts[i + 1].literal;
    var parent := st.stack[h - 1].path;
    assert parent == TopPath(st)[..h - 1];
    ObjectPathPrefix(st.root, TopPath(st), h - 1);
    InsertAtLookup(st.root, parent, name, Object(map[]));
    forall q | !IsPrefix(q, parent + [name]) && !IsPrefix(parent + [name], q)
      ensures Lookup(InsertAt(st.root, parent, name, Object(map[])), q) == Lookup(st.root, q)
    {
      InsertAtFrame(st.root, parent, name, Object(map[]), q);
    }
  }

  // ---------------------------------------------------------------------
  // Assignments

  /** Vine Whip with indentation. An assignment indented deeper than the
      current level fails with the indentation failure. An accepted one cuts
      the stack back to its indent level, stores the value read after the
      arrow under the key in the map now on top, and leaves every part of
      the tree off that entry's path as it was. */
  lemma AssignmentEffect(d: Dialect, ts: seq<Token>, i: nat, e: nat, st: State)
    requires i < |ts| && ts[i].kind == Identifier && Valid(st)
    ensures e > st.level ==> Assignment(d, ts, i, e, st) == Err(IndentationError)
    ensures var r := Assignment(d, ts, i, e, st);
      r.Ok? ==>
        var key := ts[i].literal;
        var st' := r.value.state;
        var top := TopPath(st)[..e];
        e <= st.level && key != ReservedKey && i + 1 < |ts| && ts[i + 1].kind == VineWhip &&
        ParseValue(d, ts, i + 2).Ok? && r.value.next == ParseValue(d, ts, i + 2).value.next &&
        st'.level == e && st'.stack == st.stack[..e + 1] && TopPath(st') == top &&
        Lookup(st'.root, top + [key]) == Some(ParseValue(d, ts, i + 2).value.value) &&
        forall q :: !IsPrefix(q, top + [key]) && !IsPrefix(top + [key], q) ==>
          Lookup(st'.root, q) == Lookup(st.root, q)
  {
    var r := Assignment(d, ts, i, e, st);
    if r.Ok? {
      var key := ts[i].literal;
      var top := TopPath(st)[..e];
      var v := ParseValue(d, ts, i + 2).value.value;
      var st1 := if e < st.level then Dedent(st, e) else st;
      assert TopPath(st1) == top;
      InsertAtLookup(st.root, top, key, v);
      forall q | !IsPrefix(q, top + [key]) && !IsPrefix(top + [key], q)
        ensures Lookup(InsertAt(st.root, top, key, v), q) == Lookup(st.root, q)
      {
        InsertAtFrame(st.root, top, key, v, q);
      }
    }
  }

  /** A statement is a section header or an assignment; an indent followed
      by anything else is a syntax failure. */
  lemma StatementSyntax(d: Dialect, ts: seq<Token>, i: nat, e: nat, st: State)
    requires i < |ts| && Valid(st)
    requires ts[i].kind != SectionOpen && ts[i].kind != Identifier
    ensures Statement(d, ts, i, e, st) == Err(SyntaxError)
  {
  }

  // ---------------------------------------------------------------------
  // The reserved key

  /** A statement that succeeds never brings the reserved key into a tree
      free of it: the key check runs before every write, and values read
      from tokens hold no maps. */
  lemma StatementKeyFree(d: Dialect, ts: seq<Token>, i: nat, e: nat, st: State)
    requires i < |ts| && Valid(st) && KeyFree(Object(st.root), ReservedKey)
    requires Statement(d, ts, i, e, st).Ok?
    ensures KeyFree(Object(Statement(d, ts, i, e, st).value.state.root), ReservedKey)
  {
    if ts[i].kind == SectionOpen {
      var h := ts[i].level;
      var parent := st.stack[h - 1].path;
      assert parent == TopPath(st)[..h - 1];
      ObjectPathPrefix(st.root, TopPath(st), h - 1);
      InsertAtKeyFree(st.root, parent, ts[i + 1].literal, Object(map[]), ReservedKey);
    } else {
      var st1 := if e < st.level then Dedent(st, e) else st;
      var v := ParseValue(d, ts, i + 2).value.value;
      PlainKeyFree(v, ReservedKey);
      InsertAtKeyFree(st1.root, TopPath(st1), ts[i].literal, v, ReservedKey);
    }
  }

  lemma {:induction false} PlainKeyFree(v: Value, key: string)
    requires IsPlain(v)
    ensures KeyFree(v, key)
    decreases v
  {
    if v.Array? {
      forall k | 0 <= k < |v.elems|
        ensures KeyFree(v.elems[k], key)
      {
        PlainKeyFree(v.elems[k], key);
      }
    }
  }

  /** It burns the bulb: no map of a parsed tree, at any depth, has the
      reserved key. */
  lemma {:induction false} RunKeyFree(d: Dialect, ts: seq<Token>, i: nat, st: State)
    requires Valid(st) && KeyFree(Object(st.root), ReservedKey)
    requires Run(d, ts, i, st).Ok?
    ensures KeyFree(Object(Run(d, ts, i, st).value), ReservedKey)
    decreases |ts| - i
  {
    if i < |ts| {
      match ts[i].kind
      case Eof =>
      case Indent =>
        if i + 1 < |ts| {
          var s := Statement(d, ts, i + 1, ts[i].level, st).value;
          StatementKeyFree(d, ts, i + 1, ts[i].level, st);
          RunKeyFree(d, ts, s.next, s.state);
        }
      case _ => RunKeyFree(d, ts, i + 1, st);
    }
  }

  lemma NoReservedKey(d: Dialect, ts: seq<Token>)
    requires ParseTokens(d, ts).Ok?
    ensures KeyFree(Object(ParseTokens(d, ts).value), ReservedKey)
  {
    RunKeyFree(d, ts, 0, Init());
  }

  // ---------------------------------------------------------------------
  // Depth of the stack

  /** Every section header among the tokens has a stage of at most 3, as
      the lexer guarantees. */
  predicate StagesBounded(ts: seq<Token>)
  {
    forall k :: 0 <= k < |ts| && ts[k].kind == SectionOpen ==> ts[k].level <= 3
  }

  /** With stages of at most 3 the current level never exceeds 3, so the
      stack never holds more than four frames. */
  lemma StatementDepth(d: Dialect, ts: seq<Token>, i: nat, e: nat, st: State)
    requires i < |ts| && Valid(st) && st.level <= 3 && StagesBounded(ts)
    requires Statement(d, ts, i, e, st).Ok?
    ensures Statement(d, ts, i, e, st).value.state.level <= 3
  {
  }
}
