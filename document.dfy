/** The tree a document parses to (`BSONValue` / `interface{}` / `BsonValue`),
    and updates of a map nested at a path of keys. The source builds the tree
    through shared map references (`shared_ptr`, Go map values, `Rc<RefCell>`)
    held on the parser's stack; here a stack frame holds the path of keys from
    the root to its map, and a write to that map is an update at that path. */
module Document {
  import opened Errors

  datatype Value =
    | Str(s: string)
    | Int(i: int)
    | Float(text: string)   // the literal; the conversion to a double is not modelled
    | Bool(b: bool)
    | Null
    | Array(elems: seq<Value>)
    | Object(fields: map<string, Value>)

  type Path = seq<string>

  /** The value reached from the map `m` by following the keys of `p`; the
      empty path reaches `m` itself. */
  function Lookup(m: map<string, Value>, p: Path): (r: Option<Value>)
    ensures p == [] ==> r == Some(Object(m))
    decreases |p|
  {
    if p == [] then Some(Object(m))
    else if p[0] !in m then None
    else if |p| == 1 then Some(m[p[0]])
    else match m[p[0]]
      case Object(f) => Lookup(f, p[1..])
      case _ => None
  }

  /** `p` leads to a map. */
  predicate IsObjectPath(m: map<string, Value>, p: Path)
  {
    Lookup(m, p).Some? && Lookup(m, p).value.Object?
  }

  /** The map at path `p`. */
  function MapAt(m: map<string, Value>, p: Path): map<string, Value>
    requires IsObjectPath(m, p)
  {
    Lookup(m, p).value.fields
  }

  /** `m` with `key` set to `x` in the map at path `p` (the assignment
      `(*map)[key] = value` through a stack frame). */
  function InsertAt(m: map<string, Value>, p: Path, key: string, x: Value): (r: map<string, Value>)
    requires IsObjectPath(m, p)
    ensures p != [] ==> r.Keys == m.Keys
    ensures p == [] ==> r.Keys == m.Keys + {key}
    decreases |p|
  {
    if p == [] then m[key := x]
    else if |p| == 1 then m[p[0] := Object(m[p[0]].fields[key := x])]
    else m[p[0] := Object(InsertAt(m[p[0]].fields, p[1..], key, x))]
  }

  predicate IsPrefix(p: Path, q: Path)
  {
    |p| <= |q| && q[..|p|] == p
  }

  /** Each path on the way to a map leads to a map. */
  lemma {:induction false} ObjectPathPrefix(m: map<string, Value>, p: Path, n: nat)
    requires IsObjectPath(m, p) && n <= |p|
    ensures IsObjectPath(m, p[..n])
    decreases |p|
  {
    if n > 0 {
      assert p[..n][0] == p[0];
      if |p| > 1 {
        var f := m[p[0]].fields;
        assert Lookup(m, p) == Lookup(f, p[1..]);
        ObjectPathPrefix(f, p[1..], n - 1);
        if n > 1 {
          assert p[..n][1..] == p[1..][..n - 1];
        }
      }
    }
  }

  /** After the write, `key` in the map at `p` holds `x`. */
  lemma {:induction false} InsertAtLookup(m: map<string, Value>, p: Path, key: string, x: Value)
    requires IsObjectPath(m, p)
    ensures Lookup(InsertAt(m, p, key, x), p + [key]) == Some(x)
    decreases |p|
  {
    var r := InsertAt(m, p, key, x);
    if p == [] {
      assert p + [key] == [key];
    } else if |p| == 1 {
      assert (p + [key])[1..] == [key];
    } else {
      assert (p + [key])[1..] == p[1..] + [key];
      InsertAtLookup(m[p[0]].fields, p[1..], key, x);
    }
  }

  /** The write changes nothing the path `p + [key]` does not pass through:
      every path that neither leads to that entry nor lies below it reaches
      the same value as before, except the maps on the way, which are
      rebuilt. */
  lemma {:induction false} InsertAtFrame(m: map<string, Value>, p: Path, key: string, x: Value, q: Path)
    requires IsObjectPath(m, p)
    requires !IsPrefix(q, p + [key]) && !IsPrefix(p + [key], q)
    ensures Lookup(InsertAt(m, p, key, x), q) == Lookup(m, q)
    decreases |p|
  {
    var r := InsertAt(m, p, key, x);
    var t := p + [key];
    assert q != [];
    if q[0] != t[0] {
      if |q| > 1 {
        assert Lookup(r, q) == (if q[0] in r then (match r[q[0]] case Object(f) => Lookup(f, q[1..]) case _ => None) else None);
      }
    } else {
      assert p != [] && |q| > 1;
      assert t[1..] == p[1..] + [key];
      var f := m[p[0]].fields;
      if |p| == 1 {
        assert Lookup(r, q) == Lookup(f[key := x], q[1..]);
        assert q[1] != key;
        assert Lookup(f[key := x], q[1..]) == Lookup(f, q[1..]);
      } else {
        InsertAtFrame(f, p[1..], key, x, q[1..]);
      }
    }
  }

  /** The map written to stays a map, so the frame that holds its path is
      still valid after the write. */
  lemma {:induction false} InsertAtKeepsObject(m: map<string, Value>, p: Path, key: string, x: Value)
    requires IsObjectPath(m, p)
    ensures IsObjectPath(InsertAt(m, p, key, x), p)
    ensures MapAt(InsertAt(m, p, key, x), p) == MapAt(m, p)[key := x]
    decreases |p|
  {
    if |p| > 1 {
      InsertAtKeepsObject(m[p[0]].fields, p[1..], key, x);
    }
  }

  /** No map anywhere in the value has `key` as a key. */
  predicate KeyFree(v: Value, key: string)
  {
    match v
    case Array(es) => forall i :: 0 <= i < |es| ==> KeyFree(es[i], key)
    case Object(f) => key !in f && forall k :: k in f ==> KeyFree(f[k], key)
    case _ => true
  }

  lemma {:induction false} InsertAtKeyFree(m: map<string, Value>, p: Path, k: string, x: Value, key: string)
    requires IsObjectPath(m, p) && KeyFree(Object(m), key)
    requires k != key && KeyFree(x, key)
    ensures KeyFree(Object(InsertAt(m, p, k, x)), key)
    decreases |p|
  {
    if |p| > 1 {
      InsertAtKeyFree(m[p[0]].fields, p[1..], k, x, key);
    }
  }
}
