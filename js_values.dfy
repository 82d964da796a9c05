/** JavaScript values as the services see them: plain objects with their
    key order, JSON-like values with `undefined`, and truthiness. */
module JsValues {

  import opened Outcomes

  /** A plain object: its own keys in insertion order and their values. */
  datatype Dict<V> = Dict(keys: seq<string>, entries: map<string, V>)

  /** The keys are listed once each and are exactly the keys that have a value. */
  predicate WellFormed<V>(d: Dict<V>) {
    && (forall k :: k in d.entries ==> k in d.keys)
    && (forall i :: 0 <= i < |d.keys| ==> d.keys[i] in d.entries)
    && (forall i, j :: 0 <= i < j < |d.keys| ==> d.keys[i] != d.keys[j])
  }

  type JsObject<V> = d: Dict<V> | WellFormed(d) witness Dict([], map[])

  function EmptyObject<V>(): JsObject<V> {
    Dict([], map[])
  }

  /** `o[k]`, with `None` for `undefined`. */
  function Get<V>(o: Dict<V>, k: string): Option<V> {
    if k in o.entries then Some(o.entries[k]) else None
  }

  /** `o[k] = v`: an existing key keeps its position, a new key goes last. */
  function Put<V>(o: JsObject<V>, k: string, v: V): (r: JsObject<V>)
    ensures Get(r, k) == Some(v)
    ensures forall k' :: k' != k ==> Get(r, k') == Get(o, k')
    ensures k in o.entries ==> r.keys == o.keys
    ensures k !in o.entries ==> r.keys == o.keys + [k]
  {
    if k in o.entries then Dict(o.keys, o.entries[k := v])
    else Dict(o.keys + [k], o.entries[k := v])
  }

  /** `o[k] = v` only ever appends to the key list. */
  lemma PutExtendsKeys<V>(o: JsObject<V>, k: string, v: V)
    ensures o.keys <= Put(o, k, v).keys && |Put(o, k, v).keys| <= |o.keys| + 1
  {
  }

  lemma PrefixTransitive<T>(a: seq<T>, b: seq<T>, c: seq<T>)
    requires a <= b && b <= c
    ensures a <= c
  {
    assert c[..|b|][..|a|] == c[..|a|];
  }

  datatype Value =
    | Undefined
    | Null
    | Bool(b: bool)
    | Num(n: real)
    | Str(s: string)
    | Arr(items: seq<Value>)
    | Obj(fields: Dict<Value>)

  /** JavaScript truthiness (NaN is not modelled). */
  predicate Truthy(v: Value) {
    match v
    case Undefined => false
    case Null => false
    case Bool(b) => b
    case Num(n) => n != 0.0
    case Str(s) => s != ""
    case Arr(_) => true
    case Obj(_) => true
  }

  /** `a || b`. */
  function Or(a: Value, b: Value): Value {
    if Truthy(a) then a else b
  }

  /** `o.k`, with `undefined` for a missing key. */
  function Field(o: Dict<Value>, k: string): Value {
    Get(o, k).GetOr(Undefined)
  }
}
