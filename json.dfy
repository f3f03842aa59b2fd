/**
 * The form document: a JavaScript value as react-hook-form holds it.
 * An object is a map from key to value; a key that is absent reads as `undefined`.
 * A browser `File` is a value of its own: its name, type and size are read through getters,
 * and it has no own enumerable keys, so spreading or stringifying it gives `{}`.
 */
module Json {

  datatype Value =
    | Undefined
    | Null
    | Bool(b: bool)
    | Num(n: real)
    | Str(s: string)
    | Arr(items: seq<Value>)
    | Obj(fields: map<string, Value>)
    | File(name: string, mime: string, size: nat)

  /** JavaScript truthiness (NaN is not modelled). */
  predicate Truthy(v: Value) {
    match v
    case Undefined => false
    case Null => false
    case Bool(b) => b
    case Num(n) => n != 0.0
    case Str(s) => s != ""
    case _ => true
  }

  /** `a || b` */
  function Or(a: Value, b: Value): Value {
    if Truthy(a) then a else b
  }

  /** `v?.[k]` for an own key of an object; any other value has no own keys here. */
  function Prop(v: Value, k: string): Value {
    if v.Obj? && k in v.fields then v.fields[k] else Undefined
  }

  /** The property read `v?.k`: an own key, or on a file one of the getters `name`, `type` and
      `size`. */
  function Get(v: Value, k: string): Value {
    if v.File? then
      if k == "name" then Str(v.name)
      else if k == "type" then Str(v.mime)
      else if k == "size" then Num(v.size as real)
      else Undefined
    else Prop(v, k)
  }

  /** The own fields of a value as spread by `{...v}`; a non-object contributes nothing. */
  function FieldsOf(v: Value): map<string, Value> {
    if v.Obj? then v.fields else map[]
  }

  /** `path.reduce((obj, key) => obj?.[key], v)` */
  function GetPath(v: Value, path: seq<string>): Value
    decreases |path|
  {
    if path == [] then v else GetPath(Prop(v, path[0]), path[1..])
  }

  /**
   * `setValue(path, x)`: writes `x` at the path, creating an empty object for every
   * missing or non-object step on the way.
   */
  function SetPath(v: Value, path: seq<string>, x: Value): Value
    decreases |path|
  {
    if path == [] then x
    else Obj(FieldsOf(v)[path[0] := SetPath(Prop(v, path[0]), path[1..], x)])
  }

  /** `{...a, ...b}`: a shallow merge in which the keys of `b` win. */
  function Spread(a: Value, b: Value): Value {
    Obj(FieldsOf(a) + FieldsOf(b))
  }

  /** Two paths that part ways: neither is a prefix of the other. */
  predicate Diverge(p: seq<string>, q: seq<string>) {
    exists i :: 0 <= i < |p| && i < |q| && p[i] != q[i] && p[..i] == q[..i]
  }

  /** Every path of `undefined` reads `undefined`. */
  lemma {:induction false} UndefinedPath(p: seq<string>)
    ensures GetPath(Undefined, p) == Undefined
    decreases |p|
  {
    if p != [] {
      UndefinedPath(p[1..]);
    }
  }

  /** Walking `p + q` is walking `p`, then `q` from there. */
  lemma {:induction false} GetPathAppend(v: Value, p: seq<string>, q: seq<string>)
    ensures GetPath(v, p + q) == GetPath(GetPath(v, p), q)
    decreases |p|
  {
    if p == [] {
      assert p + q == q;
    } else {
      assert (p + q)[0] == p[0] && (p + q)[1..] == p[1..] + q;
      GetPathAppend(Prop(v, p[0]), p[1..], q);
    }
  }

  /** Once a walk reaches `undefined`, every longer walk does too. */
  lemma MissingSegment(v: Value, p: seq<string>, i: nat)
    requires i <= |p| && GetPath(v, p[..i]) == Undefined
    ensures GetPath(v, p) == Undefined
  {
    assert p == p[..i] + p[i..];
    GetPathAppend(v, p[..i], p[i..]);
    UndefinedPath(p[i..]);
  }

  /** Reading back a path just written gives the written value. */
  lemma {:induction false} GetSetSame(v: Value, p: seq<string>, x: Value)
    ensures GetPath(SetPath(v, p, x), p) == x
    decreases |p|
  {
    if p != [] {
      GetSetSame(Prop(v, p[0]), p[1..], x);
    }
  }

  /** Writing one path leaves every path that parts ways with it as it was. */
  lemma {:induction false} GetSetOther(v: Value, p: seq<string>, q: seq<string>, x: Value)
    requires Diverge(p, q)
    ensures GetPath(SetPath(v, p, x), q) == GetPath(v, q)
    decreases |p|
  {
    var i :| 0 <= i < |p| && i < |q| && p[i] != q[i] && p[..i] == q[..i];
    SetPathStep(v, p, x);
    if i > 0 {
      DivergeTail(p, q, i);
      GetSetOther(Prop(v, p[0]), p[1..], q[1..], x);
    }
  }

  /** Writing a non-empty path writes the rest of it under its first key and leaves the other keys. */
  lemma SetPathStep(v: Value, p: seq<string>, x: Value)
    requires p != []
    ensures Prop(SetPath(v, p, x), p[0]) == SetPath(Prop(v, p[0]), p[1..], x)
    ensures forall k :: k != p[0] ==> Prop(SetPath(v, p, x), k) == Prop(v, k)
  {
  }

  /** Paths that part ways after their first key share that key and part ways after it. */
  lemma DivergeTail(p: seq<string>, q: seq<string>, i: nat)
    requires 0 < i < |p| && i < |q| && p[i] != q[i] && p[..i] == q[..i]
    ensures p[0] == q[0] && Diverge(p[1..], q[1..])
  {
    assert p[0] == q[0] by { assert p[..i][0] == q[..i][0]; }
    assert p[1..][..i - 1] == p[..i][1..] == q[..i][1..] == q[1..][..i - 1];
    assert p[1..][i - 1] != q[1..][i - 1];
  }

  /** A second write to the same path overrides the first. */
  lemma {:induction false} SetPathTwice(v: Value, p: seq<string>, x: Value, y: Value)
    ensures SetPath(SetPath(v, p, x), p, y) == SetPath(v, p, y)
    decreases |p|
  {
    if p != [] {
      SetPathTwice(Prop(v, p[0]), p[1..], x, y);
      assert FieldsOf(v)[p[0] := SetPath(Prop(v, p[0]), p[1..], x)][p[0] := SetPath(Prop(v, p[0]), p[1..], y)]
          == FieldsOf(v)[p[0] := SetPath(Prop(v, p[0]), p[1..], y)];
    }
  }

  /** Writing a path of an object changes only its first key at the top level. */
  lemma SetPathFrame(v: Value, p: seq<string>, x: Value, k: string)
    requires v.Obj? && p != [] && k != p[0]
    ensures Prop(SetPath(v, p, x), k) == Prop(v, k)
    ensures SetPath(v, p, x).Obj? && SetPath(v, p, x).fields.Keys == v.fields.Keys + {p[0]}
  {
  }

  /** A two-key path reads the key of the key. */
  lemma GetPathTwo(v: Value, a: string, b: string)
    ensures GetPath(v, [a, b]) == Prop(Prop(v, a), b)
  {
    assert [a, b][1..] == [b] && [b][1..] == [];
    assert GetPath(Prop(v, a), [b]) == Prop(Prop(v, a), b);
  }

  /** A two-key path writes the key of the key. */
  lemma SetPathTwo(v: Value, a: string, b: string, x: Value)
    ensures SetPath(v, [a, b], x) == Obj(FieldsOf(v)[a := Obj(FieldsOf(Prop(v, a))[b := x])])
  {
    assert [a, b][1..] == [b] && [b][1..] == [];
    assert SetPath(Prop(v, a), [b], x) == Obj(FieldsOf(Prop(v, a))[b := x]);
  }

  /** A key of the spread comes from the right operand when it has it, and from the left otherwise. */
  lemma SpreadProp(a: Value, b: Value, k: string)
    ensures Prop(Spread(a, b), k) == if b.Obj? && k in b.fields then b.fields[k] else Prop(a, k)
  {
  }

  // ---- JSON.stringify followed by JSON.parse ----

  /** `JSON.parse(JSON.stringify(v))`: keys holding `undefined` disappear, `undefined` items of an
      array become `null`, and a file becomes an empty object. A bare `undefined`, which does not
      stringify, is kept as it is. */
  function Reparsed(v: Value): Value
    decreases v
  {
    match v
    case File(_, _, _) => Obj(map[])
    case Arr(items) =>
      Arr(seq(|items|, i requires 0 <= i < |items| => if items[i] == Undefined then Null else Reparsed(items[i])))
    case Obj(fs) => Obj(map k | k in fs && fs[k] != Undefined :: Reparsed(fs[k]))
    case _ => v
  }

  /** A value JSON carries unchanged: no file anywhere, and no `undefined` inside an object or an
      array. */
  predicate Plain(v: Value)
    decreases v
  {
    match v
    case File(_, _, _) => false
    case Arr(items) => forall i :: 0 <= i < |items| ==> items[i] != Undefined && Plain(items[i])
    case Obj(fs) => forall k :: k in fs ==> fs[k] != Undefined && Plain(fs[k])
    case _ => true
  }

  /** A value comes back from JSON unchanged exactly when it is plain. */
  lemma {:induction false} ReparsedFixesExactlyPlain(v: Value)
    ensures Reparsed(v) == v <==> Plain(v)
    decreases v
  {
    match v
    case File(_, _, _) =>
    case Arr(items) =>
      var r := Reparsed(v).items;
      if Plain(v) {
        forall i | 0 <= i < |items| ensures r[i] == items[i] {
          ReparsedFixesExactlyPlain(items[i]);
        }
        assert r == items;
      } else {
        var i :| 0 <= i < |items| && !(items[i] != Undefined && Plain(items[i]));
        if items[i] != Undefined {
          ReparsedFixesExactlyPlain(items[i]);
        }
        assert r[i] != items[i];
      }
    case Obj(fs) =>
      var r := Reparsed(v).fields;
      if Plain(v) {
        forall k | k in fs ensures k in r && r[k] == fs[k] {
          ReparsedFixesExactlyPlain(fs[k]);
        }
        assert r == fs;
      } else {
        var k :| k in fs && !(fs[k] != Undefined && Plain(fs[k]));
        if fs[k] != Undefined {
          ReparsedFixesExactlyPlain(fs[k]);
          assert r[k] != fs[k];
        } else {
          assert k !in r;
        }
      }
    case _ =>
  }

  /** A second round trip through JSON changes nothing more. */
  lemma ReparsedIdempotent(v: Value)
    ensures Reparsed(Reparsed(v)) == Reparsed(v)
  {
    ReparsedIsPlain(v);
    ReparsedFixesExactlyPlain(Reparsed(v));
  }

  /** What comes back from JSON is plain. */
  lemma {:induction false} ReparsedIsPlain(v: Value)
    ensures Plain(Reparsed(v))
    decreases v
  {
    match v
    case File(_, _, _) =>
    case Arr(items) =>
      var r := Reparsed(v).items;
      forall i | 0 <= i < |r| ensures r[i] != Undefined && Plain(r[i]) {
        if items[i] != Undefined {
          ReparsedIsPlain(items[i]);
        }
      }
    case Obj(fs) =>
      var r := Reparsed(v).fields;
      forall k | k in r ensures r[k] != Undefined && Plain(r[k]) {
        ReparsedIsPlain(fs[k]);
      }
    case _ =>
  }
}
