/** JavaScript values as far as the plugin looks at them: the plugin options,
    the option objects handed to and returned by the compiler engine, and the
    syntax trees the engine's parser returns. Objects keep their own
    properties in insertion order. That is the order `for…in` and
    `JSON.stringify` visit them in for keys that are not array indices,
    which are the only keys these option objects and tree nodes have;
    integer-like keys, which JavaScript lists first in ascending order, are
    not modelled. */
module JsValues {

  datatype Option<+T> = None | Some(value: T)

  datatype Value =
    | Undefined
    | Null
    | Bool(b: bool)
    | Num(n: int)
    | Str(s: string)
    | Arr(items: seq<Value>)
    | Obj(props: seq<Prop>)

  datatype Prop = Prop(key: string, val: Value)

  /** JavaScript truthiness (`if (v)`, `v || w`, `!v`). */
  predicate Truthy(v: Value) {
    match v
    case Undefined => false
    case Null => false
    case Bool(b) => b
    case Num(n) => n != 0
    case Str(s) => s != ""
    case Arr(_) => true
    case Obj(_) => true
  }

  /** The keys of an object, in insertion order. */
  function Keys(ps: seq<Prop>): (ks: seq<string>)
    ensures |ks| == |ps|
    ensures forall i :: 0 <= i < |ps| ==> ks[i] == ps[i].key
  {
    if ps == [] then [] else [ps[0].key] + Keys(ps[1..])
  }

  lemma KeysAppend(ps: seq<Prop>, qs: seq<Prop>)
    ensures Keys(ps + qs) == Keys(ps) + Keys(qs)
  {
  }

  /** `k in obj` for an object whose own properties are `ps`. */
  predicate HasKey(ps: seq<Prop>, k: string) {
    k in Keys(ps)
  }

  /** `obj[k]` when `k in obj`, or None when it is not. */
  function Lookup(ps: seq<Prop>, k: string): (r: Option<Value>)
    ensures r.Some? <==> HasKey(ps, k)
  {
    if ps == [] then None
    else if ps[0].key == k then Some(ps[0].val)
    else Lookup(ps[1..], k)
  }

  /** A property read `v[k]` on a value the plugin knows to be an object:
      missing properties read as `undefined`. */
  function Get(v: Value, k: string): (r: Value)
    ensures v.Obj? && !HasKey(v.props, k) ==> r == Undefined
    ensures v.Obj? && HasKey(v.props, k) ==> Lookup(v.props, k) == Some(r)
  {
    if v.Obj? then
      match Lookup(v.props, k)
      case Some(w) => w
      case None => Undefined
    else Undefined
  }

  /** The assignment `obj[k] = v`: an existing property keeps its place and
      takes the new value, a new one is added at the end. */
  function SetProp(ps: seq<Prop>, k: string, v: Value): (r: seq<Prop>)
    ensures Keys(r) == if HasKey(ps, k) then Keys(ps) else Keys(ps) + [k]
  {
    if ps == [] then [Prop(k, v)]
    else if ps[0].key == k then [Prop(k, v)] + ps[1..]
    else [ps[0]] + SetProp(ps[1..], k, v)
  }

  /** After `obj[k] = v`, reading `k` gives `v` and every other key reads
      as before. */
  lemma {:induction false} SetPropLookup(ps: seq<Prop>, k: string, v: Value, j: string)
    ensures Lookup(SetProp(ps, k, v), j) == if j == k then Some(v) else Lookup(ps, j)
  {
    if ps != [] && ps[0].key != k {
      var r := SetProp(ps, k, v);
      assert r[1..] == SetProp(ps[1..], k, v);
      SetPropLookup(ps[1..], k, v, j);
    } else if ps != [] {
      assert SetProp(ps, k, v)[1..] == ps[1..];
    }
  }

  /** Reading a property of an object extended at the end: earlier
      properties win, the new one is found only where the key was absent. */
  lemma {:induction false} LookupAppend(ps: seq<Prop>, p: Prop, k: string)
    ensures Lookup(ps + [p], k) ==
      if HasKey(ps, k) then Lookup(ps, k)
      else if p.key == k then Some(p.val)
      else None
  {
    if ps == [] {
      assert [] + [p] == [p];
    } else {
      assert (ps + [p])[1..] == ps[1..] + [p];
      if ps[0].key != k {
        LookupAppend(ps[1..], p, k);
      }
    }
  }
}
