/** Tokens passed from the lexer to the parser, and the implementation whose
    behaviour a function follows where the three differ. */
module Tokens {

  /** The C++, Go and Rust implementations of the same frontend. */
  datatype Dialect = Cpp | Go | Rust

  datatype TokenKind =
    | Header        // the "BULBA!" line
    | Indent        // a line's indentation; `level` is spaces / 4
    | SectionOpen   // (o), (O), (@); `level` is the stage 1, 2, 3
    | SectionClose
    | Identifier    // a key or a section name, in `literal`
    | VineWhip      // the assignment arrow ~~~>
    | StringLit
    | NumberLit
    | BoolLit       // `literal` is "true" or "false"
    | NullLit
    | ArrayStart    // <|
    | ArrayEnd      // |>
    | Comma
    | Eof

  /** `line` is the 1-based source line, kept for error reporting only. */
  datatype Token = Token(kind: TokenKind, literal: string, line: nat, level: nat)

  /** A token that carries no text and no level. */
  function Marker(kind: TokenKind, line: nat): Token
  {
    Token(kind, "", line, 0)
  }

  /** The kinds a value's tokens can have. */
  predicate IsValueKind(k: TokenKind)
  {
    k.StringLit? || k.NumberLit? || k.BoolLit? || k.NullLit? ||
    k.ArrayStart? || k.ArrayEnd? || k.Comma?
  }

  predicate AllValueKinds(ts: seq<Token>)
  {
    forall i :: 0 <= i < |ts| ==> IsValueKind(ts[i].kind)
  }

  /** No closing or separating token at the head: the tokens start a value. */
  predicate StartsValue(ts: seq<Token>)
  {
    ts != [] ==> !ts[0].kind.ArrayEnd? && !ts[0].kind.Comma?
  }

  /** No header and no end-of-file token: what the lines after the first yield. */
  predicate InBody(ts: seq<Token>)
  {
    forall i :: 0 <= i < |ts| ==> ts[i].kind != Header && ts[i].kind != Eof
  }

  lemma InBodyAppend(a: seq<Token>, b: seq<Token>)
    requires InBody(a) && InBody(b)
    ensures InBody(a + b)
  {
    assert forall i :: |a| <= i < |a + b| ==> (a + b)[i] == b[i - |a|];
  }

  function CountKind(ts: seq<Token>, k: TokenKind): nat
  {
    if ts == [] then 0
    else (if ts[0].kind == k then 1 else 0) + CountKind(ts[1..], k)
  }

  lemma {:induction false} CountKindAppend(a: seq<Token>, b: seq<Token>, k: TokenKind)
    ensures CountKind(a + b, k) == CountKind(a, k) + CountKind(b, k)
    decreases |a|
  {
    if a != [] {
      assert (a + b)[1..] == a[1..] + b;
      CountKindAppend(a[1..], b, k);
    } else {
      assert a + b == b;
    }
  }

  lemma {:induction false} CountKindNone(ts: seq<Token>, k: TokenKind)
    requires forall i :: 0 <= i < |ts| ==> ts[i].kind != k
    ensures CountKind(ts, k) == 0
    decreases |ts|
  {
    if ts != [] {
      CountKindNone(ts[1..], k);
    }
  }
}
