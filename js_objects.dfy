/**
 * Plain JavaScript objects with string keys, as the application uses them for
 * parsed blurb files: a value per key, and the keys in the order in which they
 * were first inserted, which is the order `Object.keys` and `for ... in` report.
 */
module JsObjects {
  import opened Options

  /** The representation: the key order and the key-to-value mapping. */
  datatype RawObject<V> = RawObject(keys: seq<string>, entries: map<string, V>) {

    /** Every key is listed exactly once, and the listed keys are those of the mapping. */
    predicate WellFormed() {
      && (forall i, j :: 0 <= i < j < |keys| ==> keys[i] != keys[j])
      && (forall k :: k in keys ==> k in entries)
      && (forall k :: k in entries ==> k in keys)
    }
  }

  /** A well-formed object. */
  type Object<V> = o: RawObject<V> | o.WellFormed() witness RawObject([], map[])

  /** `{}` */
  function Empty<V>(): (o: Object<V>)
    ensures o.keys == [] && o.entries == map[]
  {
    RawObject([], map[])
  }

  /** `o[k]`, where a missing key reads as `undefined`. */
  function Get<V>(o: Object<V>, k: string): (r: Option<V>)
    ensures r.Some? <==> k in o.keys
    ensures r.Some? ==> r.value == o.entries[k]
  {
    if k in o.entries then Some(o.entries[k]) else None
  }

  /**
   * `o[k] = v`: a new key goes to the end of the key order, an existing key
   * keeps its position and only its value changes.
   */
  function Put<V>(o: Object<V>, k: string, v: V): (r: Object<V>)
    ensures r.entries == o.entries[k := v]
    ensures k in o.keys ==> r.keys == o.keys
    ensures k !in o.keys ==> r.keys == o.keys + [k]
  {
    if k in o.entries then RawObject(o.keys, o.entries[k := v])
    else RawObject(o.keys + [k], o.entries[k := v])
  }

  /** An object has keys exactly when it has entries. */
  lemma NoKeysNoEntries<V>(o: Object<V>)
    ensures o.keys == [] <==> o.entries == map[]
  {
    if o.keys != [] {
      assert o.keys[0] in o.entries;
    }
  }

  /** `Object.keys(o)[0]`: the first key, `undefined` for an empty object. */
  function FirstKey<V>(o: Object<V>): (r: Option<string>)
    ensures r.None? <==> o.entries == map[]
    ensures r.Some? ==> r.value in o.entries && r.value == o.keys[0]
  {
    if |o.keys| == 0 then None else assert o.keys[0] in o.entries; Some(o.keys[0])
  }
}
