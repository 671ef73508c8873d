/**
 * One named two-tier cache (MultiLevelCacheManager.MultiLevelCache).
 *
 * The local tier is the cache's own map; the shared tier and the
 * invalidation outbox are shared with every other cache. Every operation is
 * one atomic step, except the miss path of `get`, which is split into a
 * fetch from the shared tier and a re-check-and-populate of the local tier
 * so that other operations can run in between (see ClearRaceReinsertsStale).
 * Whether a shared-tier call succeeds, and whether a message serializes, are
 * inputs (`Io` for writes, `readOk` for reads); a shared-tier read that fails
 * or times out is raised to the caller of get.
 */
module MultiLevelCache {
  import opened Wrappers
  import opened CacheKeys
  import opened InvalidationPublisher
  import L2 = CacheOperations

  /** A cache: its name and its local tier. */
  datatype Cache = Cache(name: string, l1: map<CacheKey, Value>)

  /** What the cache shares with the rest of the system: the shared tier and the channel. */
  datatype Shared = Shared(l2: L2.Store, outbox: Outbox)

  /** The environment's verdicts for one mutating call. */
  datatype Io = Io(l2Ok: bool, encodeOk: bool)

  /** The state after a mutating call. */
  datatype Step = Step(cache: Cache, shared: Shared)

  datatype CacheError =
    | UpstreamFailure(redisKey: string)
    | TypeMismatch(expected: string, actual: Value)
    | ValueRetrieval(key: CacheKey, cause: string)

  /** The state of the cache after a read, and what the read returned or raised. */
  datatype Read = Read(cache: Cache, result: Result<Option<Value>, CacheError>)

  /** The outcome of a read with a loader: the state after it, and its answer. */
  datatype Answer = Answer(step: Step, result: Result<Option<Value>, CacheError>)

  /** What a value loader did: produced a value (possibly null) or threw. */
  datatype Loaded = LoadedValue(value: Option<Value>) | LoaderThrew(cause: string)

  // ---------------------------------------------------------------- reads

  datatype Probe = LocalHit(value: Value) | LocalMiss

  /** First step of get, under the read lock: look in the local tier only. */
  function ProbeLocal(c: Cache, k: CacheKey): (r: Probe)
    ensures r.LocalHit? <==> k in c.l1
    ensures r.LocalHit? ==> r.value == c.l1[k]
  {
    if k in c.l1 then LocalHit(c.l1[k]) else LocalMiss
  }

  /** What a shared-tier read produced: a value, nothing, or an error (a timeout among them). */
  datatype Fetched = Hit(value: Value) | Miss | ReadFailed

  /** Second step of get on a local miss: read `name:key` from the shared tier. */
  function FetchRemote(c: Cache, l2: L2.Store, k: CacheKey, readOk: bool): (r: Fetched)
    ensures r.ReadFailed? <==> !readOk
    ensures r.Hit? <==> readOk && RedisKey(c.name, k) in l2
    ensures r.Hit? ==> r.value == l2[RedisKey(c.name, k)]
  {
    if !readOk then ReadFailed
    else match L2.Get(l2, RedisKey(c.name, k))
      case Some(v) => Hit(v)
      case None => Miss
  }

  /**
   * Third step of get, after a shared-tier hit, under the write lock:
   * re-check the local tier; store the fetched value only if the key is
   * still absent, and answer whichever value is now present.
   */
  function Populate(c: Cache, k: CacheKey, fetched: Value): (r: Read)
    ensures r.cache.name == c.name
    ensures k in c.l1 ==> r == Read(c, Success(Some(c.l1[k])))
    ensures k !in c.l1 ==>
      r.result == Success(Some(fetched)) && r.cache.l1.Keys == c.l1.Keys + {k} && r.cache.l1[k] == fetched
    ensures forall j :: j in c.l1 ==> j in r.cache.l1 && r.cache.l1[j] == c.l1[j]
  {
    if k in c.l1 then Read(c, Success(Some(c.l1[k])))
    else Read(c.(l1 := c.l1[k := fetched]), Success(Some(fetched)))
  }

  /**
   * get(key) with the three steps run back to back. A failed or timed-out
   * shared-tier read is raised to the caller.
   */
  function Get(c: Cache, l2: L2.Store, k: CacheKey, readOk: bool): (r: Read)
    ensures r.cache.name == c.name
    ensures k in c.l1 ==> r == Read(c, Success(Some(c.l1[k])))
    ensures k !in c.l1 && !readOk ==> r == Read(c, Failure(UpstreamFailure(RedisKey(c.name, k))))
    ensures k !in c.l1 && readOk && RedisKey(c.name, k) !in l2 ==> r == Read(c, Success(None))
    ensures k !in c.l1 && readOk && RedisKey(c.name, k) in l2 ==>
      r.result == Success(Some(l2[RedisKey(c.name, k)])) && r.cache.l1 == c.l1[k := l2[RedisKey(c.name, k)]]
    ensures r.result.Success? && r.result.value.Some? ==>
      k in r.cache.l1 && r.cache.l1[k] == r.result.value.value
  {
    match ProbeLocal(c, k)
    case LocalHit(v) => Read(c, Success(Some(v)))
    case LocalMiss =>
      match FetchRemote(c, l2, k, readOk)
      case ReadFailed => Read(c, Failure(UpstreamFailure(RedisKey(c.name, k))))
      case Miss => Read(c, Success(None))
      case Hit(v) => Populate(c, k, v)
  }

  /**
   * get(key, type): a present value of another type than the one asked for
   * is a TypeMismatch error (the local tier has already been populated).
   */
  function GetTyped(c: Cache, l2: L2.Store, k: CacheKey, ty: Option<string>, readOk: bool): (r: Read)
    ensures r.cache == Get(c, l2, k, readOk).cache
    ensures var g := Get(c, l2, k, readOk).result;
      r.result.Failure? && r.result.error.TypeMismatch? <==>
        g.Success? && g.value.Some? && ty.Some? && g.value.value.typeName != ty.value
    ensures var g := Get(c, l2, k, readOk).result;
      !(g.Success? && g.value.Some? && ty.Some? && g.value.value.typeName != ty.value) ==> r.result == g
    ensures var g := Get(c, l2, k, readOk).result;
      g.Success? && g.value.Some? && ty.Some? && g.value.value.typeName != ty.value ==>
        r.result == Failure(TypeMismatch(ty.value, g.value.value))
  {
    var g := Get(c, l2, k, readOk);
    if g.result.Success? && g.result.value.Some? && ty.Some? && g.result.value.value.typeName != ty.value then
      Read(g.cache, Failure(TypeMismatch(ty.value, g.result.value.value)))
    else
      g
  }

  // ---------------------------------------------------------------- writes

  /**
   * evict(key): remove the key from the local tier, delete `name:key` from
   * the shared tier, and broadcast EVICT only if that delete succeeded.
   */
  function Evict(c: Cache, sh: Shared, id: string, k: CacheKey, io: Io): (r: Step)
    ensures r.cache.name == c.name
    ensures r.cache.l1.Keys == c.l1.Keys - {k}
    ensures forall j :: j in r.cache.l1 ==> r.cache.l1[j] == c.l1[j]
    ensures !io.l2Ok ==> r.shared == sh
    ensures io.l2Ok ==> r.shared.l2 == L2.Delete(sh.l2, RedisKey(c.name, k)).store
    ensures io.l2Ok ==> r.shared.outbox == PublishEvict(sh.outbox, id, c.name, Some(k), io.encodeOk)
  {
    var c' := c.(l1 := c.l1 - {k});
    if io.l2Ok then
      var d := L2.Delete(sh.l2, RedisKey(c.name, k));
      Step(c', Shared(d.store, PublishEvict(sh.outbox, id, c.name, Some(k), io.encodeOk)))
    else
      Step(c', sh)
  }

  /**
   * put(key, value): a null value evicts instead. Otherwise the local tier
   * takes the value at once, the shared tier stores it under `name:key`, and
   * EVICT is broadcast only if that write succeeded.
   */
  function Put(c: Cache, sh: Shared, id: string, k: CacheKey, v: Option<Value>, io: Io): (r: Step)
    ensures r.cache.name == c.name
    ensures v.None? ==> r == Evict(c, sh, id, k, io)
    ensures v.Some? ==> r.cache.l1.Keys == c.l1.Keys + {k} && r.cache.l1[k] == v.value
    ensures v.Some? ==> forall j :: j in c.l1 && j != k ==> r.cache.l1[j] == c.l1[j]
    ensures v.Some? && !io.l2Ok ==> r.shared == sh
    ensures v.Some? && io.l2Ok ==> r.shared.l2 == L2.Set(sh.l2, RedisKey(c.name, k), v.value)
    ensures v.Some? && io.l2Ok ==> r.shared.outbox == PublishEvict(sh.outbox, id, c.name, Some(k), io.encodeOk)
  {
    match v
    case None => Evict(c, sh, id, k, io)
    case Some(x) =>
      var c' := c.(l1 := c.l1[k := x]);
      if io.l2Ok then
        Step(c', Shared(L2.Set(sh.l2, RedisKey(c.name, k), x),
                        PublishEvict(sh.outbox, id, c.name, Some(k), io.encodeOk)))
      else
        Step(c', sh)
  }

  /**
   * The shared-tier half of clear: scan for `name:*` and delete what it
   * finds; an empty scan deletes nothing and counts 0.
   */
  function ClearShared(l2: L2.Store, name: string): (r: L2.Deleted)
    ensures forall key :: key in r.store <==> key in l2 && !(Namespace(name) <= key)
    ensures forall key :: key in r.store ==> r.store[key] == l2[key]
    ensures r.count == |l2| - |r.store|
    ensures r.count == 0 <==> forall key :: key in l2 ==> !(Namespace(name) <= key)
  {
    var keys := L2.KeysWithPrefix(l2, Namespace(name));
    if keys == {} then L2.Deleted(0, l2) else L2.DeleteAll(l2, keys)
  }

  /**
   * clear(): empty the local tier, delete every `name:*` key from the shared
   * tier, and broadcast CLEAR only if the scan and delete succeeded.
   */
  function Clear(c: Cache, sh: Shared, id: string, io: Io): (r: Step)
    ensures r.cache == Cache(c.name, map[])
    ensures !io.l2Ok ==> r.shared == sh
    ensures io.l2Ok ==> r.shared.l2 == ClearShared(sh.l2, c.name).store
    ensures io.l2Ok ==> r.shared.outbox == PublishClear(sh.outbox, id, c.name, io.encodeOk)
  {
    var c' := c.(l1 := map[]);
    if io.l2Ok then
      Step(c', Shared(ClearShared(sh.l2, c.name).store, PublishClear(sh.outbox, id, c.name, io.encodeOk)))
    else
      Step(c', sh)
  }

  /**
   * get(key, loader): answer a present value; otherwise run the loader once,
   * put what it produced (a null result evicts) and answer it. A loader that
   * throws is surfaced as ValueRetrieval and nothing is stored; a failed
   * shared-tier read is raised before the loader is reached.
   */
  function GetOrLoad(c: Cache, sh: Shared, id: string, k: CacheKey, readOk: bool,
                     loader: Loaded, io: Io): (r: Answer)
    ensures var g := Get(c, sh.l2, k, readOk);
      g.result.Failure? || g.result.value.Some? ==> r == Answer(Step(g.cache, sh), g.result)
    ensures var g := Get(c, sh.l2, k, readOk);
      g.result == Success(None) && loader.LoaderThrew? ==>
        r == Answer(Step(c, sh), Failure(ValueRetrieval(k, loader.cause)))
    ensures var g := Get(c, sh.l2, k, readOk);
      g.result == Success(None) && loader.LoadedValue? ==>
        r == Answer(Put(c, sh, id, k, loader.value, io), Success(loader.value))
  {
    var g := Get(c, sh.l2, k, readOk);
    if g.result.Failure? || g.result.value.Some? then Answer(Step(g.cache, sh), g.result)
    else
      match loader
      case LoaderThrew(e) => Answer(Step(g.cache, sh), Failure(ValueRetrieval(k, e)))
      case LoadedValue(v) => Answer(Put(g.cache, sh, id, k, v, io), Success(v))
  }

  // ------------------------------------------------------ remote handlers

  /**
   * handleRemoteEvict as written: a null key is ignored, otherwise the
   * message's key text is evicted as a String key. Entries stored under
   * keys of any other class are left in place (see RemoteEvictMissesObjectKeys).
   */
  function HandleRemoteEvictAsWritten(c: Cache, key: Option<string>): (r: Cache)
    ensures r.name == c.name
    ensures key.None? ==> r == c
    ensures key.Some? ==> r.l1.Keys == c.l1.Keys - {StringKey(key.value)}
    ensures forall j :: j in r.l1 ==> r.l1[j] == c.l1[j]
  {
    match key
    case None => c
    case Some(t) => c.(l1 := c.l1 - {StringKey(t)})
  }

  /**
   * handleRemoteEvict, corrected: a null key is ignored, otherwise every
   * local entry whose key's toString() equals the message's key is removed,
   * which is every entry that shares the evicted shared-tier key.
   */
  function HandleRemoteEvict(c: Cache, key: Option<string>): (r: Cache)
    ensures r.name == c.name
    ensures key.None? ==> r == c
    ensures key.Some? ==> forall j :: j in r.l1 <==> j in c.l1 && KeyString(j) != key.value
    ensures forall j :: j in r.l1 ==> r.l1[j] == c.l1[j]
  {
    match key
    case None => c
    case Some(t) => c.(l1 := map j | j in c.l1 && KeyString(j) != t :: c.l1[j])
  }

  /** handleRemoteClear: empties the local tier. */
  function HandleRemoteClear(c: Cache): (r: Cache)
    ensures r.name == c.name && r.l1 == map[]
  {
    c.(l1 := map[])
  }

  /**
   * The local tier's own size- or time-based eviction of one entry; which
   * entry goes is the library's choice, so any key may be dropped.
   */
  function DropLocal(c: Cache, k: CacheKey): (r: Cache)
    ensures r.name == c.name
    ensures r.l1.Keys == c.l1.Keys - {k}
    ensures forall j :: j in r.l1 ==> r.l1[j] == c.l1[j]
  {
    c.(l1 := c.l1 - {k})
  }

  // ------------------------------------------------------------ properties

  /** A get that hits the local tier answers without consulting the shared tier. */
  lemma LocalHitIgnoresSharedTier(c: Cache, l2a: L2.Store, l2b: L2.Store, k: CacheKey, ok1: bool, ok2: bool)
    requires k in c.l1
    ensures Get(c, l2a, k, ok1) == Get(c, l2b, k, ok2) == Read(c, Success(Some(c.l1[k])))
  {
  }

  /** put(k, v) followed by get(k) answers v from the local tier, whatever the shared tier does. */
  lemma PutThenGetHits(c: Cache, sh: Shared, id: string, k: CacheKey, v: Value, io: Io,
                       l2: L2.Store, readOk: bool)
    ensures var s := Put(c, sh, id, k, Some(v), io);
      ProbeLocal(s.cache, k) == LocalHit(v) && Get(s.cache, l2, k, readOk).result == Success(Some(v))
  {
  }

  /** evict(k) whose shared delete succeeded, followed by a successful get(k), answers absent. */
  lemma EvictThenGetMisses(c: Cache, sh: Shared, id: string, k: CacheKey, encodeOk: bool)
    ensures var s := Evict(c, sh, id, k, Io(true, encodeOk));
      Get(s.cache, s.shared.l2, k, true) == Read(s.cache, Success(None))
  {
  }

  /** clear() whose shared delete succeeded, followed by a successful get of any key, answers absent. */
  lemma ClearThenGetMisses(c: Cache, sh: Shared, id: string, encodeOk: bool, k: CacheKey)
    ensures var s := Clear(c, sh, id, Io(true, encodeOk));
      Get(s.cache, s.shared.l2, k, true) == Read(s.cache, Success(None))
  {
    var s := Clear(c, sh, id, Io(true, encodeOk));
    assert Namespace(c.name) <= RedisKey(c.name, k);
    assert RedisKey(c.name, k) !in s.shared.l2;
  }

  /** clear() never touches a shared-tier key outside the cache's namespace. */
  lemma ClearKeepsOtherNamespaces(c: Cache, sh: Shared, id: string, io: Io, key: string)
    requires key in sh.l2 && !(Namespace(c.name) <= key)
    ensures var s := Clear(c, sh, id, io);
      key in s.shared.l2 && s.shared.l2[key] == sh.l2[key]
  {
  }

  /**
   * A value written through to the shared tier survives the local tier
   * dropping it: the next successful get reads it back and repopulates.
   */
  lemma LocalDropRefetches(c: Cache, sh: Shared, id: string, k: CacheKey, v: Value, encodeOk: bool)
    ensures var s := Put(c, sh, id, k, Some(v), Io(true, encodeOk));
      var dropped := DropLocal(s.cache, k);
      var g := Get(dropped, s.shared.l2, k, true);
      g.result == Success(Some(v)) && g.cache.l1 == s.cache.l1
  {
    var s := Put(c, sh, id, k, Some(v), Io(true, encodeOk));
    assert DropLocal(s.cache, k).l1[k := v] == s.cache.l1;
  }

  /**
   * A value the loader produced on a miss is what the next get answers,
   * from the local tier and whatever the shared tier did with the write.
   */
  lemma LoadedThenGetHits(c: Cache, sh: Shared, id: string, k: CacheKey, v: Value, io: Io,
                          l2: L2.Store, readOk: bool)
    requires Get(c, sh.l2, k, true).result == Success(None)
    ensures var a := GetOrLoad(c, sh, id, k, true, LoadedValue(Some(v)), io);
      a.result == Success(Some(v)) && Get(a.step.cache, l2, k, readOk).result == Success(Some(v))
  {
  }

  /**
   * Once the shared tier's TTL removes `name:k` and the local tier no longer
   * holds k, a successful get answers absent and populates nothing.
   */
  lemma ExpiredEntryMisses(c: Cache, l2: L2.Store, k: CacheKey)
    requires k !in c.l1
    ensures Get(c, L2.Expire(l2, RedisKey(c.name, k)), k, true) == Read(c, Success(None))
  {
  }

  /** A put of null and an evict of the same key are the same step. */
  lemma PutNullIsEvict(c: Cache, sh: Shared, id: string, k: CacheKey, io: Io)
    ensures Put(c, sh, id, k, None, io) == Evict(c, sh, id, k, io)
  {
  }

  /**
   * The known race: a get miss that fetched a value before a clear, and
   * re-checks after it, reinserts that value into the local tier although the
   * shared tier no longer holds it.
   */
  lemma ClearRaceReinsertsStale(c: Cache, sh: Shared, id: string, k: CacheKey, encodeOk: bool)
    requires k !in c.l1 && RedisKey(c.name, k) in sh.l2
    ensures var fetched := FetchRemote(c, sh.l2, k, true);
      var cleared := Clear(c, sh, id, Io(true, encodeOk));
      && fetched == Hit(sh.l2[RedisKey(c.name, k)])
      && RedisKey(c.name, k) !in cleared.shared.l2
      && var late := Populate(cleared.cache, k, fetched.value);
         late.result == Success(Some(sh.l2[RedisKey(c.name, k)]))
         && late.cache.l1 == map[k := sh.l2[RedisKey(c.name, k)]]
  {
    var cleared := Clear(c, sh, id, Io(true, encodeOk));
    assert Namespace(c.name) <= RedisKey(c.name, k);
    assert RedisKey(c.name, k) !in cleared.shared.l2;
  }

  /** The corrected remote evict removes the key whatever its class. */
  lemma RemoteEvictRemovesKey(c: Cache, k: CacheKey)
    ensures k !in HandleRemoteEvict(c, Some(KeyString(k))).l1
  {
  }

  /**
   * The remote evict as written leaves a non-String key in place although
   * the message names exactly that key's toString().
   */
  lemma RemoteEvictMissesObjectKeys(c: Cache, cls: string, repr: string)
    requires cls != StringClass
    requires ObjectKey(cls, repr) in c.l1
    ensures var r := HandleRemoteEvictAsWritten(c, Some(KeyString(ObjectKey(cls, repr))));
      ObjectKey(cls, repr) in r.l1 && r.l1[ObjectKey(cls, repr)] == c.l1[ObjectKey(cls, repr)]
  {
  }
}
