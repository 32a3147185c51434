/**
 * The values an `Encoder` receives, and the keyed container that
 * `encode(to:)` writes into. A keyed container is a map from the type's
 * `CodingKeys` to values; key order, pretty printing and the ISO 8601 text
 * of dates belong to `JSONEncoder` and are not modelled.
 */
module Json {
  import opened Wrappers
  import opened Foundation

  datatype Json =
    | JNumber(text: string)          // a Double, kept opaque
    | JInt(n: int)
    | JString(str: string)
    | JBool(flag: bool)
    | JDate(instant: Instant)
    | JArray(items: seq<Json>)

  /** `container.encodeIfPresent(v, forKey: key)`: a write when `v` is present, nothing otherwise. */
  function EncodeIfPresent<K, V>(c: map<K, V>, key: K, v: Option<V>): (r: map<K, V>)
    ensures v.Some? ==> r == c[key := v.value]
    ensures v.None? ==> r == c
  {
    match v
    case Some(x) => c[key := x]
    case None => c
  }

  /** The object holding exactly the keys of `keys` whose value is present, each with that value. */
  function PresentAmong<K(!new), V>(keys: seq<K>, value: K -> Option<V>): (r: map<K, V>)
    ensures forall k :: k in r <==> k in keys && value(k).Some?
    ensures forall k :: k in r ==> r[k] == value(k).value
  {
    map k | k in keys && value(k).Some? :: value(k).value
  }

  /** Two objects that agree on every key outside `drop` are equal once `drop` is removed. */
  lemma AgreeAway<K(!new), V>(a: map<K, V>, b: map<K, V>, drop: set<K>)
    requires forall k :: k !in drop ==> (k in a <==> k in b)
    requires forall k :: k !in drop && k in a ==> a[k] == b[k]
    ensures a - drop == b - drop
  {
    assert forall k :: k in a - drop <==> k in b - drop;
  }

  /** Listing one more key is one more `encodeIfPresent`. */
  lemma PresentAmongStep<K(!new), V>(keys: seq<K>, k: K, value: K -> Option<V>)
    ensures PresentAmong(keys + [k], value) == EncodeIfPresent(PresentAmong(keys, value), k, value(k))
  {
    var r, c := PresentAmong(keys + [k], value), EncodeIfPresent(PresentAmong(keys, value), k, value(k));
    assert forall j :: j in keys + [k] <==> j in keys || j == k;
    assert forall j :: j in r <==> j in c;
  }

  /**
   * `encodeIfPresent` for each key of `keys` in turn, writing `value(k)`
   * when it is present. The object holds exactly the listed keys with a
   * present value, each with that value.
   */
  method EncodeEachIfPresent<K, V>(keys: seq<K>, value: K -> Option<V>) returns (c: map<K, V>)
    ensures forall k :: k in c <==> k in keys && value(k).Some?
    ensures forall k :: k in c ==> c[k] == value(k).value
  {
    c := map[];
    var i := 0;
    while i < |keys|
      invariant 0 <= i <= |keys|
      invariant forall k :: k in c <==> k in keys[..i] && value(k).Some?
      invariant forall k :: k in c ==> c[k] == value(k).value
    {
      assert keys[..i + 1] == keys[..i] + [keys[i]];
      c := EncodeIfPresent(c, keys[i], value(keys[i]));
      i := i + 1;
    }
    assert keys[..i] == keys;
  }
}
