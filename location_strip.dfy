/** The location scrub in `getRuntime` (plugin.js:20-22): the parsed
    statement goes through `JSON.stringify` with a replacer that drops every
    property named `start` or `end`, and back through `JSON.parse`. Only the
    replacer's effect is modelled: a recursive copy that omits those two
    keys at every depth. The replacer sees array elements under their index
    ("0", "1", ...), which is never a location key, so arrays keep every
    element. */
module LocationStrip {
  import opened JsValues

  /** The two property names the replacer drops. */
  predicate IsLocationKey(k: string) {
    k == "start" || k == "end"
  }

  /** The copy the `JSON.stringify`/`JSON.parse` round trip makes: arrays
      and objects are copied with their contents scrubbed, everything else
      is kept. */
  function Strip(v: Value): (r: Value)
    ensures r.Arr? <==> v.Arr?
    ensures r.Obj? <==> v.Obj?
    ensures v.Arr? ==> |r.items| == |v.items|
    ensures !v.Arr? && !v.Obj? ==> r == v
    decreases v, 1
  {
    match v
    case Arr(items) => Arr(StripItems(items))
    case Obj(props) => Obj(StripProps(props))
    case _ => v
  }

  function StripItems(items: seq<Value>): (r: seq<Value>)
    ensures |r| == |items|
    decreases items, 0
  {
    if items == [] then [] else [Strip(items[0])] + StripItems(items[1..])
  }

  /** One object's own properties: location keys are dropped, the others
      keep their order and have their values scrubbed. */
  function StripProps(ps: seq<Prop>): (r: seq<Prop>)
    ensures |r| <= |ps|
    ensures forall i :: 0 <= i < |r| ==> !IsLocationKey(r[i].key)
    decreases ps, 0
  {
    if ps == [] then []
    else if IsLocationKey(ps[0].key) then StripProps(ps[1..])
    else [Prop(ps[0].key, Strip(ps[0].val))] + StripProps(ps[1..])
  }

  /** Element `i` of a scrubbed array is the scrubbed element `i`. */
  lemma {:induction false} StripItemsAt(items: seq<Value>, i: nat)
    requires i < |items|
    ensures StripItems(items)[i] == Strip(items[i])
    decreases items
  {
    if i > 0 {
      StripItemsAt(items[1..], i - 1);
    }
  }

  /** The keys that are not location keys, in their order. */
  function NonLocationKeys(ks: seq<string>): (r: seq<string>)
    ensures forall i :: 0 <= i < |r| ==> !IsLocationKey(r[i])
  {
    if ks == [] then []
    else if IsLocationKey(ks[0]) then NonLocationKeys(ks[1..])
    else [ks[0]] + NonLocationKeys(ks[1..])
  }

  /** The scrubbed object has exactly the non-location keys, in the order
      they had. */
  lemma {:induction false} StripPropsKeys(ps: seq<Prop>)
    ensures Keys(StripProps(ps)) == NonLocationKeys(Keys(ps))
  {
    if ps != [] {
      StripPropsKeys(ps[1..]);
      assert Keys(ps)[1..] == Keys(ps[1..]);
      if !IsLocationKey(ps[0].key) {
        assert StripProps(ps)[1..] == StripProps(ps[1..]);
        assert Keys(StripProps(ps))[1..] == Keys(StripProps(ps[1..]));
      }
    }
  }

  /** No object anywhere in `v` has a `start` or `end` property. */
  predicate NoLocations(v: Value)
    decreases v, 1
  {
    match v
    case Arr(items) => NoLocationsInItems(items)
    case Obj(props) => NoLocationsInProps(props)
    case _ => true
  }

  predicate NoLocationsInItems(items: seq<Value>)
    decreases items, 0
  {
    items != [] ==> NoLocations(items[0]) && NoLocationsInItems(items[1..])
  }

  predicate NoLocationsInProps(ps: seq<Prop>)
    decreases ps, 0
  {
    ps != [] ==>
      && !IsLocationKey(ps[0].key)
      && NoLocations(ps[0].val)
      && NoLocationsInProps(ps[1..])
  }

  /** The scrubbed tree carries no location property at any depth. */
  lemma {:induction false} StripRemovesLocations(v: Value)
    ensures NoLocations(Strip(v))
    decreases v, 1
  {
    match v
    case Arr(items) => StripItemsRemovesLocations(items);
    case Obj(props) => StripPropsRemovesLocations(props);
    case _ =>
  }

  lemma {:induction false} StripItemsRemovesLocations(items: seq<Value>)
    ensures NoLocationsInItems(StripItems(items))
    decreases items, 0
  {
    if items != [] {
      StripRemovesLocations(items[0]);
      StripItemsRemovesLocations(items[1..]);
      assert StripItems(items)[1..] == StripItems(items[1..]);
    }
  }

  lemma {:induction false} StripPropsRemovesLocations(ps: seq<Prop>)
    ensures NoLocationsInProps(StripProps(ps))
    decreases ps, 0
  {
    if ps != [] {
      StripPropsRemovesLocations(ps[1..]);
      if !IsLocationKey(ps[0].key) {
        StripRemovesLocations(ps[0].val);
        assert StripProps(ps)[1..] == StripProps(ps[1..]);
      }
    }
  }

  /** A tree that has no location property comes through the scrub
      unchanged. */
  lemma {:induction false} StripKeepsClean(v: Value)
    requires NoLocations(v)
    ensures Strip(v) == v
    decreases v, 1
  {
    match v
    case Arr(items) => StripItemsKeepsClean(items);
    case Obj(props) => StripPropsKeepsClean(props);
    case _ =>
  }

  lemma {:induction false} StripItemsKeepsClean(items: seq<Value>)
    requires NoLocationsInItems(items)
    ensures StripItems(items) == items
    decreases items, 0
  {
    if items != [] {
      StripKeepsClean(items[0]);
      StripItemsKeepsClean(items[1..]);
    }
  }

  lemma {:induction false} StripPropsKeepsClean(ps: seq<Prop>)
    requires NoLocationsInProps(ps)
    ensures StripProps(ps) == ps
    decreases ps, 0
  {
    if ps != [] {
      StripKeepsClean(ps[0].val);
      StripPropsKeepsClean(ps[1..]);
    }
  }

  /** Scrubbing twice is scrubbing once. */
  lemma StripIdempotent(v: Value)
    ensures Strip(Strip(v)) == Strip(v)
  {
    StripRemovesLocations(v);
    StripKeepsClean(Strip(v));
  }

  /** At one level of an object: a location key is gone, and every other key
      reads as the scrubbed version of what it read before. */
  lemma {:induction false} StripPropsLookup(ps: seq<Prop>, k: string)
    ensures IsLocationKey(k) ==> !HasKey(StripProps(ps), k)
    ensures !IsLocationKey(k) ==>
      Lookup(StripProps(ps), k) == (match Lookup(ps, k)
                                    case Some(w) => Some(Strip(w))
                                    case None => None)
  {
    if ps != [] {
      StripPropsLookup(ps[1..], k);
      if !IsLocationKey(ps[0].key) {
        assert StripProps(ps)[1..] == StripProps(ps[1..]);
      }
    }
  }
}
