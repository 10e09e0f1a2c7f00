/**
 * The string-to-string store that backs the sender IDs, the receiver IDs and
 * the attributes of a partnership. A stored value is never null: removing a
 * key is the only way to say "no value", so the store is a finite map from
 * strings to strings. Keys passed to lookups may be null (`Option<string>`);
 * keys passed to updates may not (`string`).
 */
module StringMaps {
  import opened Wrappers

  type StringMap = map<string, string>

  /** The value stored under `key`; null when the key is null or absent. */
  function Get(m: StringMap, key: Option<string>): (r: Option<string>)
    ensures r.Some? <==> key.Some? && key.value in m
    ensures r.Some? ==> r.value == m[key.value]
  {
    if key.Some? && key.value in m then Some(m[key.value]) else None
  }

  /** Whether a value is stored under `key`; false for a null key. */
  predicate Contains(m: StringMap, key: Option<string>)
    ensures Contains(m, key) <==> Get(m, key).Some?
  {
    key.Some? && key.value in m
  }

  /** The stored value, or `default` when the key is null or absent. */
  function GetOr(m: StringMap, key: Option<string>, default: Option<string>): (r: Option<string>)
    ensures Contains(m, key) ==> r == Some(m[key.value])
    ensures !Contains(m, key) ==> r == default
  {
    match Get(m, key)
    case Some(v) => Some(v)
    case None => default
  }

  /**
   * Store `value` under `key`. A null value removes the key. Every other key
   * keeps its presence and its value.
   */
  function Set(m: StringMap, key: string, value: Option<string>): (r: StringMap)
    ensures Get(r, Some(key)) == value
    ensures Contains(r, Some(key)) <==> value.Some?
    ensures r.Keys - {key} == m.Keys - {key}
    ensures forall k :: k in r && k != key ==> k in m && r[k] == m[k]
  {
    if value.None? then m - {key} else m[key := value.value]
  }

  /**
   * An update changes the store exactly when the value it writes differs from
   * what a lookup of the key gave before: removing an absent key and writing
   * the value already stored are no-ops.
   */
  lemma SetChangesIff(m: StringMap, key: string, value: Option<string>)
    ensures Set(m, key, value) != m <==> Get(m, Some(key)) != value
  {
  }

  /** The second of two updates of one key wins. */
  lemma SetSetSameKey(m: StringMap, key: string, v1: Option<string>, v2: Option<string>)
    ensures Set(Set(m, key, v1), key, v2) == Set(m, key, v2)
  {
  }

  /** Updates of two different keys commute. */
  lemma SetSetCommute(m: StringMap, k1: string, v1: Option<string>, k2: string, v2: Option<string>)
    requires k1 != k2
    ensures Set(Set(m, k1, v1), k2, v2) == Set(Set(m, k2, v2), k1, v1)
  {
  }

  /**
   * Bulk addition. Every incoming entry is applied as `Set` applies it: a
   * non-null value is stored, overwriting any previous value, and a null
   * value removes the key. Keys the incoming map does not name keep their
   * values, and a null incoming map changes nothing.
   */
  function AddAll(m: StringMap, incoming: Option<map<string, Option<string>>>): (r: StringMap)
    ensures incoming.None? ==> r == m
    ensures incoming.Some? ==>
      forall k :: k !in incoming.value ==> Get(r, Some(k)) == Get(m, Some(k))
    ensures incoming.Some? ==>
      forall k :: k in incoming.value ==> Get(r, Some(k)) == incoming.value[k]
  {
    match incoming
    case None => m
    case Some(inc) =>
      map k | k in m.Keys + inc.Keys && (k in inc ==> inc[k].Some?) ::
        if k in inc then inc[k].value else m[k]
  }

  /**
   * Bulk addition is the same as setting the entries one at a time, in any
   * order: the result of adding a map equals adding it without one of its
   * keys and then setting that key last.
   */
  lemma AddAllOneAtATime(m: StringMap, inc: map<string, Option<string>>, key: string)
    requires key in inc
    ensures AddAll(m, Some(inc)) == Set(AddAll(m, Some(inc - {key})), key, inc[key])
  {
  }

  /** Adding an empty map changes nothing. */
  lemma AddAllEmpty(m: StringMap)
    ensures AddAll(m, Some(map[])) == m
  {
  }
}
