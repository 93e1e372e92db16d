/**
 * `prepareForStorage`: the client's walk over a JavaScript value that turns every
 * BigInt into a Number before the value is stringified into local storage. Only
 * the shape is modelled: a Number holds the integer it was converted from.
 */
module StorageJson {

  /** A JavaScript value as far as the walk distinguishes it; object entries keep `Object.entries` order. */
  datatype JsValue =
    | JsNull
    | JsUndefined
    | JsBool(b: bool)
    | JsNumber(n: int)
    | JsBigInt(big: int)
    | JsString(s: string)
    | JsArray(items: seq<JsValue>)
    | JsObject(entries: seq<(string, JsValue)>)

  /** No BigInt anywhere inside `v`: the value `JSON.stringify` accepts. */
  predicate BigIntFree(v: JsValue)
  {
    match v
    case JsBigInt(_) => false
    case JsArray(items) => forall i :: 0 <= i < |items| ==> BigIntFree(items[i])
    case JsObject(entries) => forall i :: 0 <= i < |entries| ==> BigIntFree(entries[i].1)
    case _ => true
  }

  /** `a` and `b` agree everywhere except that a BigInt in `a` may be a Number in `b`. */
  predicate SameShape(a: JsValue, b: JsValue)
  {
    match a
    case JsBigInt(n) => b == JsNumber(n)
    case JsArray(xs) =>
      b.JsArray? && |b.items| == |xs| && forall i :: 0 <= i < |xs| ==> SameShape(xs[i], b.items[i])
    case JsObject(es) =>
      && b.JsObject? && |b.entries| == |es|
      && forall i :: 0 <= i < |es| ==> b.entries[i].0 == es[i].0 && SameShape(es[i].1, b.entries[i].1)
    case _ => b == a
  }

  /** The converted value, defined by the shape of the input. */
  function Prepared(v: JsValue): (r: JsValue)
    ensures BigIntFree(r)
    ensures SameShape(v, r)
  {
    match v
    case JsBigInt(n) => JsNumber(n)
    case JsArray(items) => JsArray(seq(|items|, i requires 0 <= i < |items| => Prepared(items[i])))
    case JsObject(entries) =>
      JsObject(seq(|entries|, i requires 0 <= i < |entries| => (entries[i].0, Prepared(entries[i].1))))
    case _ => v
  }

  /** The walk itself: arrays element by element, objects by an accumulator loop over their entries. */
  method PrepareForStorage(v: JsValue) returns (r: JsValue)
    ensures r == Prepared(v)
    decreases v
  {
    match v {
      case JsBigInt(n) =>
        r := JsNumber(n);
      case JsArray(items) =>
        var converted: seq<JsValue> := [];
        for i := 0 to |items|
          invariant |converted| == i
          invariant forall k :: 0 <= k < i ==> converted[k] == Prepared(items[k])
        {
          var item := PrepareForStorage(items[i]);
          converted := converted + [item];
        }
        r := JsArray(converted);
      case JsObject(entries) =>
        var converted: seq<(string, JsValue)> := [];
        for i := 0 to |entries|
          invariant |converted| == i
          invariant forall k :: 0 <= k < i ==> converted[k] == (entries[k].0, Prepared(entries[k].1))
        {
          assert entries[i] in entries;
          var value := PrepareForStorage(entries[i].1);
          converted := converted + [(entries[i].0, value)];
        }
        r := JsObject(converted);
      case _ =>
        r := v;
    }
  }

  /** A value without BigInts comes back unchanged. */
  lemma {:induction false} PreparedKeepsBigIntFree(v: JsValue)
    requires BigIntFree(v)
    ensures Prepared(v) == v
    decreases v
  {
    match v {
      case JsArray(items) =>
        forall i | 0 <= i < |items| ensures Prepared(items[i]) == items[i] {
          PreparedKeepsBigIntFree(items[i]);
        }
        assert Prepared(v).items == items;
      case JsObject(entries) =>
        forall i | 0 <= i < |entries| ensures (entries[i].0, Prepared(entries[i].1)) == entries[i] {
          assert entries[i] in entries;
          PreparedKeepsBigIntFree(entries[i].1);
        }
        assert Prepared(v).entries == entries;
      case _ =>
    }
  }

  /** Preparing twice is preparing once. */
  lemma PreparedIdempotent(v: JsValue)
    ensures Prepared(Prepared(v)) == Prepared(v)
  {
    PreparedKeepsBigIntFree(Prepared(v));
  }
}
