/**
 * Cache keys, cached values and the layout of a named cache's keys in the
 * shared store (MultiLevelCacheManager.buildRedisKey).
 */
module CacheKeys {
  import opened Wrappers

  /**
   * A key handed to a cache. The local tier compares keys with Java's
   * equals(): a String key never equals a key of another class, even one
   * whose toString() reads the same. A String key is always StringKey;
   * ObjectKey stands for a key of any other class.
   */
  datatype CacheKey =
    | StringKey(text: string)
    | ObjectKey(className: string, repr: string)

  /** The runtime class of a StringKey, which no ObjectKey carries. */
  const StringClass: string := "java.lang.String"

  /** What key.toString() yields. */
  function KeyString(k: CacheKey): string
  {
    match k
    case StringKey(t) => t
    case ObjectKey(_, r) => r
  }

  /** An opaque cached payload together with its runtime class name. */
  datatype Value = Value(typeName: string, payload: string)

  /** The part of the shared-store key space that belongs to cache `name`. */
  function Namespace(name: string): string
  {
    name + ":"
  }

  /** The shared-store key under which cache `name` keeps key `k`. */
  function RedisKey(name: string, k: CacheKey): (r: string)
    ensures Namespace(name) <= r
    ensures |r| == |name| + 1 + |KeyString(k)|
  {
    name + ":" + KeyString(k)
  }

  /** Recovers the key text from a shared-store key of cache `name`, if it is one. */
  function StripNamespace(name: string, redisKey: string): (r: Option<string>)
    ensures r.Some? <==> Namespace(name) <= redisKey
  {
    if Namespace(name) <= redisKey then Some(redisKey[|name| + 1..]) else None
  }

  /** Stripping the namespace off a cache's shared-store key gives back key.toString(). */
  lemma StripRedisKey(name: string, k: CacheKey)
    ensures StripNamespace(name, RedisKey(name, k)) == Some(KeyString(k))
  {
    var r := RedisKey(name, k);
    assert r[|name| + 1..] == KeyString(k);
  }

  /**
   * Within one cache, two keys share a shared-store entry exactly when their
   * toString() agree.
   */
  lemma RedisKeyCollides(name: string, k1: CacheKey, k2: CacheKey)
    ensures RedisKey(name, k1) == RedisKey(name, k2) <==> KeyString(k1) == KeyString(k2)
  {
    if RedisKey(name, k1) == RedisKey(name, k2) {
      StripRedisKey(name, k1);
      StripRedisKey(name, k2);
    }
  }

  /**
   * Across caches the layout is not injective: a cache whose name contains
   * ':' shares keys with the cache named by its prefix.
   */
  lemma NamespacesOverlap()
    ensures RedisKey("a", StringKey("b:c")) == RedisKey("a:b", StringKey("c"))
    ensures Namespace("a") <= RedisKey("a:b", StringKey("c"))
  {
  }
}
