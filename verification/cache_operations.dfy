/**
 * The shared-store port of the cache (operations/CacheOperations): a
 * key/value map with get, set, delete, batch delete and prefix scan.
 */
module CacheOperations {
  import opened Wrappers
  import opened CacheKeys

  /** The shared tier: string keys to values. */
  type Store = map<string, Value>

  /** get: the stored value, or empty when the key is absent. */
  function Get(s: Store, key: string): (r: Option<Value>)
    ensures r.Some? <==> key in s
    ensures r.Some? ==> r.value == s[key]
  {
    if key in s then Some(s[key]) else None
  }

  /** set: stores the value under the key; every other key keeps its value. */
  function Set(s: Store, key: string, v: Value): (r: Store)
    ensures r.Keys == s.Keys + {key}
    ensures r[key] == v
    ensures forall k :: k in s && k != key ==> r[k] == s[k]
  {
    s[key := v]
  }

  /** The outcome of a delete: how many keys were removed, and the store after. */
  datatype Deleted = Deleted(count: nat, store: Store)

  /** delete(key): the key is absent afterwards; the count says whether it was present. */
  function Delete(s: Store, key: string): (r: Deleted)
    ensures r.store.Keys == s.Keys - {key}
    ensures forall k :: k in r.store ==> r.store[k] == s[k]
    ensures r.count == |s| - |r.store|
    ensures r.count == 1 <==> key in s
  {
    if key in s then Deleted(1, s - {key}) else Deleted(0, s)
  }

  /** delete(keys): none of the listed keys remains; the count is how many were removed. */
  function DeleteAll(s: Store, keys: set<string>): (r: Deleted)
    ensures r.store.Keys == s.Keys - keys
    ensures forall k :: k in r.store ==> r.store[k] == s[k]
    ensures r.count == |s| - |r.store|
    ensures r.count == |keys * s.Keys|
  {
    var rest := s - keys;
    SplitCardinality(s.Keys, keys);
    Deleted(|s.Keys * keys|, rest)
  }

  /** Cutting a set by another splits its size into the two parts. */
  lemma SplitCardinality<K>(a: set<K>, b: set<K>)
    ensures |a| == |a - b| + |a * b|
  {
    assert a == (a - b) + (a * b);
    assert (a - b) !! (a * b);
  }

  /**
   * keys(pattern) for a pattern of the form `prefix*`: exactly the stored
   * keys that start with the prefix.
   */
  function KeysWithPrefix(s: Store, prefix: string): (r: set<string>)
    ensures forall k :: k in r <==> k in s && prefix <= k
  {
    set k | k in s && prefix <= k
  }

  /** The store's own TTL running out for one key. */
  function Expire(s: Store, key: string): (r: Store)
    ensures key !in r
    ensures forall k :: k in r <==> k in s && k != key
    ensures forall k :: k in r ==> r[k] == s[k]
  {
    s - {key}
  }
}
