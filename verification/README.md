# Multi-level cache, invalidation bus and distributed lock — a Dafny model

This project models the core of a two-tier read-through cache library.
- The local tier (L1) is a per-cache, in-process map.
- The shared tier (L2) is a Redis-like key/value store shared by every process.
- Processes keep their local tiers coherent by broadcasting EVICT and CLEAR messages on a pub/sub channel.
- A token-based distributed lock uses a store of the same kind.

Every operation is a pure transition over immutable values. These are:
- the local tier, a `map<CacheKey, Value>`;
- the shared tier, a `map<string, Value>`;
- the channel, the sequence of messages handed to the publisher;
- the lock store, a `map<string, Entry>`.

Whatever the environment decides is an explicit input. That covers whether a shared-tier call succeeds, whether a message serializes, what the clock reads, and, at each polling attempt, what the lock store looks like or which error the store call signals.

The lock token and the instance id stand for the random UUIDs the library generates, and are inputs too. Lemmas that need two of them to differ, such as `DistributedLock.ExpiredHolderCannotReleaseSuccessor`, require it, on the strength of UUID uniqueness.

Modules, following the source's structure:

| module | file | models |
|---|---|---|
| `CacheKeys` | cache_keys.dfy | cache keys (Java `equals` vs `toString`), values, the `name:key` layout |
| `InvalidationMessage` | invalidation_message.dfy | the four-field message bean and its `Action` enum |
| `CacheOperations` | cache_operations.dfy | the shared-tier port |
| `LockOperations` | lock_operations.dfy | the lock-store port, including the compare-token-then-delete script |
| `InvalidationPublisher` | invalidation_publisher.dfy | `publishEvict` / `publishClear` / `publish` |
| `MultiLevelCache` | multi_level_cache.dfy | one cache: get (in three steps), typed get, get with loader, put, evict, clear, remote handlers |
| `InvalidationBus` | invalidation_bus.dfy | the registry and `handleMessage` |
| `CacheManager` | cache_manager.dfy | `getCache` and cross-process coherence |
| `TimeUnits` | time_units.dfy | `TimeUnit.toMillis` on 64-bit longs (truncation and saturation) |
| `DistributedLock` | distributed_lock.dfy | lock handles: create, tryLock, polling tryLock, unlock, isLocked |
| `LockManager` | lock_manager.dfy | `executeWithLock` overloads and `createLock` |

Key modelling choices:
- **Cache objects live in a heap.** A cache is shared by reference between the manager and the bus registry. So cache objects live in a heap `map<Ref, Cache>`, and both the manager and the registry map names to references.
- **The `get` miss path is three steps.** `ProbeLocal` looks in the local tier. `FetchRemote` reads the shared tier. `Populate` re-checks and fills the local tier. Other operations may run between the second and the third step, so the known reinsert-after-clear race can be stated (`ClearRaceReinsertsStale`). It is not patched.
- **Nullable bean fields are `Option`s.** Every field of the message bean is an `Option`, and a null message is `None`. A null cache name makes the registry lookup throw. That exception is only logged, so it is modelled as "nothing changes".
- **Remote handlers touch only the local tier.** They take and return a `Cache`, so by their type they cannot touch the shared tier or the channel.

A failed or timed-out shared-tier read is not a miss. The reactive read signals an error, and `get(key)` rethrows it, so `Get` answers `Failure(UpstreamFailure(..))`.

## Model

| member | source | states |
|---|---|---|
| `CacheKeys.RedisKey` | src/main/java/io/github/wangjx/multilevelcache/MultiLevelCacheManager.java:359-361 | a cache's shared-tier key lies in the namespace `name:` and is exactly as long as name, separator and key text |
| `CacheKeys.StripRedisKey` | src/main/java/io/github/wangjx/multilevelcache/MultiLevelCacheManager.java:359-361 | stripping the namespace off a cache's shared-tier key gives back `key.toString()` |
| `CacheKeys.RedisKeyCollides` | src/main/java/io/github/wangjx/multilevelcache/MultiLevelCacheManager.java:359-361 | within one cache, two keys share a shared-tier entry iff their `toString()` agree |
| `CacheKeys.NamespacesOverlap` | src/main/java/io/github/wangjx/multilevelcache/MultiLevelCacheManager.java:336-338 | the layout is not injective across caches whose names contain `:`; cache `a`'s clear pattern covers keys of cache `a:b` |
| `InvalidationMessage.EmptyMessage` | src/main/java/io/github/wangjx/multilevelcache/model/CacheInvalidationMessage.java:19-20 | the no-argument constructor leaves every field null |
| `InvalidationMessage.SetInstanceId` | src/main/java/io/github/wangjx/multilevelcache/model/CacheInvalidationMessage.java:33-35 | the setter sets its own field and leaves the other three unchanged |
| `InvalidationMessage.SetCacheName` | src/main/java/io/github/wangjx/multilevelcache/model/CacheInvalidationMessage.java:41-43 | the setter sets its own field and leaves the other three unchanged |
| `InvalidationMessage.SetAction` | src/main/java/io/github/wangjx/multilevelcache/model/CacheInvalidationMessage.java:49-51 | the setter sets its own field and leaves the other three unchanged |
| `InvalidationMessage.SetKey` | src/main/java/io/github/wangjx/multilevelcache/model/CacheInvalidationMessage.java:57-59 | the setter sets its own field and leaves the other three unchanged |
| `InvalidationMessage.SettersRebuildMessage` | src/main/java/io/github/wangjx/multilevelcache/model/CacheInvalidationMessage.java:19-59 | the no-argument constructor followed by the four setters builds the same message as the four-argument constructor |
| `CacheOperations.Get` | src/main/java/io/github/wangjx/multilevelcache/operations/CacheOperations.java:14-19 | the stored value, or empty exactly when the key is absent |
| `CacheOperations.Set` | src/main/java/io/github/wangjx/multilevelcache/operations/CacheOperations.java:21-28 | the key maps to the value afterwards; every other key keeps its value |
| `CacheOperations.Delete` | src/main/java/io/github/wangjx/multilevelcache/operations/CacheOperations.java:30-35 | the key is absent afterwards, nothing else changes, and the count is the number of keys removed (1 iff it was present) |
| `CacheOperations.DeleteAll` | src/main/java/io/github/wangjx/multilevelcache/operations/CacheOperations.java:37-42 | none of the listed keys remain, the others are untouched, and the count equals both the number removed and the number of listed keys that were stored |
| `CacheOperations.KeysWithPrefix` | src/main/java/io/github/wangjx/multilevelcache/operations/CacheOperations.java:44-49 | for a `prefix*` pattern, exactly the stored keys starting with the prefix |
| `CacheOperations.Expire` | src/main/java/io/github/wangjx/multilevelcache/operations/CacheOperations.java:21-28 | the TTL of one key running out removes that key and no other, and every other key keeps its value |
| `LockOperations.SetIfAbsent` | src/main/java/io/github/wangjx/multilevelcache/operations/LockOperations.java:14-21 | true iff the key was absent; on true the key maps to the new record; on false the store is unchanged |
| `LockOperations.CompareAndDelete` | src/main/java/io/github/wangjx/multilevelcache/DistributedLock.java:101-115 | the release script answers 1 iff the stored value equals the token, and then deletes exactly that key; 0 leaves the store unchanged |
| `LockOperations.HasKey` | src/main/java/io/github/wangjx/multilevelcache/operations/LockOperations.java:32-37 | true iff the key exists |
| `LockOperations.Expire` | src/main/java/io/github/wangjx/multilevelcache/operations/LockOperations.java:14-21 | a lock record's TTL running out removes that record only |
| `InvalidationPublisher.EvictMessage` | src/main/java/io/github/wangjx/multilevelcache/CacheInvalidationService.java:53-58 | the EVICT message carries this instance's id, the cache name, EVICT and `key.toString()` |
| `InvalidationPublisher.ClearMessage` | src/main/java/io/github/wangjx/multilevelcache/CacheInvalidationService.java:64-68 | the CLEAR message carries this instance's id, the cache name, CLEAR and no key |
| `InvalidationPublisher.Publish` | src/main/java/io/github/wangjx/multilevelcache/CacheInvalidationService.java:72-80 | a message that serializes is appended to the channel; one that does not sends nothing, and the caller sees no error |
| `InvalidationPublisher.PublishEvict` | src/main/java/io/github/wangjx/multilevelcache/CacheInvalidationService.java:49-60 | a null key publishes nothing; otherwise exactly the EVICT message is appended |
| `InvalidationPublisher.PublishClear` | src/main/java/io/github/wangjx/multilevelcache/CacheInvalidationService.java:62-70 | exactly the CLEAR message is appended |
| `InvalidationPublisher.PublishedAreStamped` | src/main/java/io/github/wangjx/multilevelcache/CacheInvalidationService.java:49-70 | every message an instance publishes carries its own instance id |
| `MultiLevelCache.ProbeLocal` | src/main/java/io/github/wangjx/multilevelcache/MultiLevelCacheManager.java:135-145 | a hit iff the key is in the local tier, with the local value |
| `MultiLevelCache.FetchRemote` | src/main/java/io/github/wangjx/multilevelcache/MultiLevelCacheManager.java:149-153 | a failed read is reported as failed; otherwise the read hits iff `name:key` is stored, with the stored value |
| `MultiLevelCache.Populate` | src/main/java/io/github/wangjx/multilevelcache/MultiLevelCacheManager.java:159-177 | the double check: if the key appeared meanwhile, that value is answered and nothing changes; otherwise the fetched value is stored and answered; existing entries are never altered |
| `MultiLevelCache.Get` | src/main/java/io/github/wangjx/multilevelcache/MultiLevelCacheManager.java:121-181 | full case analysis of get: local hit; read failure raised; shared miss leaves the cache unchanged; shared hit answered and written back; a present answer is what the local tier then holds |
| `MultiLevelCache.GetTyped` | src/main/java/io/github/wangjx/multilevelcache/MultiLevelCacheManager.java:226-237 | a present value whose type differs from the requested one gives TypeMismatch carrying the requested type and that value; otherwise (well typed, absent, no type asked, or read failure) the answer is exactly get's; the local tier is populated either way |
| `MultiLevelCache.GetOrLoad` | src/main/java/io/github/wangjx/multilevelcache/MultiLevelCacheManager.java:245-259 | a present value or read failure is answered without the loader; on absence a throwing loader gives ValueRetrieval and stores nothing, and a loaded value (even null) is put and answered |
| `MultiLevelCache.Put` | src/main/java/io/github/wangjx/multilevelcache/MultiLevelCacheManager.java:262-292 | null acts as evict; otherwise L1[k] := v at once, and only if the shared write succeeds is `name:k` set and EVICT(k) published; on failure the shared state is untouched |
| `MultiLevelCache.Evict` | src/main/java/io/github/wangjx/multilevelcache/MultiLevelCacheManager.java:295-318 | removes only k from L1; deletes `name:k` and publishes EVICT(k) only when that delete succeeds |
| `MultiLevelCache.ClearShared` | src/main/java/io/github/wangjx/multilevelcache/MultiLevelCacheManager.java:336-346 | deletes exactly the keys under `name:`, keeps all others, and counts the removed keys, 0 iff none matched |
| `MultiLevelCache.Clear` | src/main/java/io/github/wangjx/multilevelcache/MultiLevelCacheManager.java:321-354 | empties L1; on success clears the namespace and publishes CLEAR; on failure the shared state is untouched |
| `MultiLevelCache.HandleRemoteEvictAsWritten` | src/main/java/io/github/wangjx/multilevelcache/MultiLevelCacheManager.java:369-382 | as written: a null key is ignored; otherwise only the String key equal to the message key is removed |
| `MultiLevelCache.HandleRemoteEvict` | src/main/java/io/github/wangjx/multilevelcache/MultiLevelCacheManager.java:369-382 | corrected: a null key is ignored; otherwise exactly the entries whose key's `toString()` equals the message key are removed, and nothing else changes |
| `MultiLevelCache.HandleRemoteClear` | src/main/java/io/github/wangjx/multilevelcache/MultiLevelCacheManager.java:384-393 | empties the local tier and keeps the name |
| `MultiLevelCache.DropLocal` | src/main/java/io/github/wangjx/multilevelcache/MultiLevelCacheManager.java:65-70 | the local tier's own eviction removes one entry and nothing else |
| `MultiLevelCache.LocalHitIgnoresSharedTier` | src/main/java/io/github/wangjx/multilevelcache/MultiLevelCacheManager.java:135-142 | on a local hit the answer does not depend on the shared tier or its health |
| `MultiLevelCache.PutThenGetHits` | src/main/java/io/github/wangjx/multilevelcache/MultiLevelCacheManager.java:274-281 | put(k, v) then get(k) answers v from the local tier, whatever the shared tier did |
| `MultiLevelCache.EvictThenGetMisses` | src/main/java/io/github/wangjx/multilevelcache/MultiLevelCacheManager.java:295-318 | after an evict whose delete succeeded, get(k) answers absent |
| `MultiLevelCache.ClearThenGetMisses` | src/main/java/io/github/wangjx/multilevelcache/MultiLevelCacheManager.java:321-354 | after a clear that succeeded, get of every key answers absent |
| `MultiLevelCache.ClearKeepsOtherNamespaces` | src/main/java/io/github/wangjx/multilevelcache/MultiLevelCacheManager.java:336-345 | clear never touches a shared key outside `name:` |
| `MultiLevelCache.LocalDropRefetches` | src/main/java/io/github/wangjx/multilevelcache/MultiLevelCacheManager.java:149-177 | a written-through value dropped by the local tier is read back from the shared tier and written back |
| `MultiLevelCache.LoadedThenGetHits` | src/main/java/io/github/wangjx/multilevelcache/MultiLevelCacheManager.java:245-259 | a value the loader produced on a miss is answered, and the next get answers it from the local tier whatever the shared tier does |
| `MultiLevelCache.ExpiredEntryMisses` | src/main/java/io/github/wangjx/multilevelcache/MultiLevelCacheManager.java:149-157 | once the shared tier's TTL removes `name:k` and the local tier lacks k, a successful get answers absent and populates nothing |
| `MultiLevelCache.PutNullIsEvict` | src/main/java/io/github/wangjx/multilevelcache/MultiLevelCacheManager.java:263-267 | put(k, null) is exactly evict(k) |
| `MultiLevelCache.ClearRaceReinsertsStale` | src/main/java/io/github/wangjx/multilevelcache/MultiLevelCacheManager.java:149-177 | a fetch before a clear, re-checked after it, puts back a value the shared tier no longer holds |
| `MultiLevelCache.RemoteEvictRemovesKey` | src/main/java/io/github/wangjx/multilevelcache/MultiLevelCacheManager.java:369-382 | the corrected remote evict removes the key whatever its class |
| `MultiLevelCache.RemoteEvictMissesObjectKeys` | src/main/java/io/github/wangjx/multilevelcache/MultiLevelCacheManager.java:369-382 | the remote evict as written leaves a non-String key and its value in place |
| `InvalidationBus.RegisterCache` | src/main/java/io/github/wangjx/multilevelcache/CacheInvalidationService.java:44-47 | maps the name to the cache and replaces an earlier registration; other names are unchanged |
| `InvalidationBus.HandleMessage` | src/main/java/io/github/wangjx/multilevelcache/CacheInvalidationService.java:96-124 | null, self-originated, nameless and unknown-name messages change nothing; otherwise CLEAR or EVICT is applied to the named cache alone, and a message without an action changes nothing |
| `InvalidationBus.SelfMessageChangesNothing` | src/main/java/io/github/wangjx/multilevelcache/CacheInvalidationService.java:101-104 | a message carrying this instance's id changes no cache |
| `InvalidationBus.UnknownCacheChangesNothing` | src/main/java/io/github/wangjx/multilevelcache/CacheInvalidationService.java:109-114 | a message naming no registered cache changes no cache |
| `InvalidationBus.OwnBroadcastsIgnored` | src/main/java/io/github/wangjx/multilevelcache/CacheInvalidationService.java:96-104 | whatever this instance publishes, read back from the channel, changes no cache (no feedback loop) |
| `InvalidationBus.DispatchKeepsNames` | src/main/java/io/github/wangjx/multilevelcache/CacheInvalidationService.java:116-123 | dispatch changes local tiers only, never a cache's identity |
| `CacheManager.Start` | src/main/java/io/github/wangjx/multilevelcache/MultiLevelCacheManager.java:44-50 | a new manager has no caches and satisfies the manager invariant |
| `CacheManager.GetCache` | src/main/java/io/github/wangjx/multilevelcache/MultiLevelCacheManager.java:58-78 | an existing name answers its cache unchanged; a new name gets a fresh cache with an empty local tier, registered with the bus at creation; the invariant is kept |
| `CacheManager.GetCacheIdempotent` | src/main/java/io/github/wangjx/multilevelcache/MultiLevelCacheManager.java:58-78 | repeated getCache answers the same cache and changes nothing |
| `CacheManager.GetCacheKeepsOthers` | src/main/java/io/github/wangjx/multilevelcache/MultiLevelCacheManager.java:58-78 | getCache never alters another cache |
| `CacheManager.Deliver` | src/main/java/io/github/wangjx/multilevelcache/CacheInvalidationService.java:96-124 | delivering a message applies the bus's handler to this process's caches, and only to them: the manager invariant, every registration and the set of live caches stay as they were |
| `CacheManager.PeerPutInvalidates` | src/main/java/io/github/wangjx/multilevelcache/MultiLevelCacheManager.java:283-291 | after A's successful put(k, v) reaches B, B holds no local k and B's next get answers v |
| `CacheManager.PeerPutMissedAsWritten` | src/main/java/io/github/wangjx/multilevelcache/MultiLevelCacheManager.java:369-382 | with the remote evict as written, B keeps and serves its stale value for a non-String key |
| `TimeUnits.ToMillis` | src/main/java/io/github/wangjx/multilevelcache/DistributedLock.java:55-61 | a long result; identity for milliseconds; sign kept; exact product for coarse units when it fits, saturation otherwise |
| `TimeUnits.ToMillisMonotone` | src/main/java/io/github/wangjx/multilevelcache/DistributedLock.java:70-72 | a longer duration never converts to fewer milliseconds |
| `DistributedLock.Create` | src/main/java/io/github/wangjx/multilevelcache/DistributedLock.java:23-32 | the store key is `lock:` followed by the lock key; the token is the one given; the TTL is the expiry in milliseconds |
| `DistributedLock.CreateSeparatesKeys` | src/main/java/io/github/wangjx/multilevelcache/DistributedLock.java:28 | two handles share a store key iff their lock keys are equal |
| `DistributedLock.TryLock` | src/main/java/io/github/wangjx/multilevelcache/DistributedLock.java:55-61 | succeeds iff the key is absent, and the store is then exactly the old one plus this token with this TTL under the key; a failure changes nothing |
| `DistributedLock.Unlock` | src/main/java/io/github/wangjx/multilevelcache/DistributedLock.java:101-115 | answers 1 and removes the key iff the stored token is this handle's; otherwise 0 and no change; other keys are untouched |
| `DistributedLock.IsLocked` | src/main/java/io/github/wangjx/multilevelcache/DistributedLock.java:122-124 | true iff the namespaced key exists |
| `DistributedLock.AcquireThenRelease` | src/main/java/io/github/wangjx/multilevelcache/DistributedLock.java:55-115 | after a successful tryLock the lock is held; the owner's unlock answers 1 and frees it |
| `DistributedLock.NonOwnerUnlockKeepsRecord` | src/main/java/io/github/wangjx/multilevelcache/DistributedLock.java:101-115 | unlock by a non-owner answers 0 and leaves the store exactly as it was |
| `DistributedLock.ExpiredHolderCannotReleaseSuccessor` | src/main/java/io/github/wangjx/multilevelcache/DistributedLock.java:101-115 | X's record expires, Y acquires, X unlocks: 0 is answered and Y still holds the lock |
| `DistributedLock.HeldKeyRejectsAll` | src/main/java/io/github/wangjx/multilevelcache/DistributedLock.java:55-61 | once the key is held, every further tryLock on it fails and the store is unchanged |
| `DistributedLock.ExactlyOneContenderWins` | src/main/java/io/github/wangjx/multilevelcache/DistributedLock.java:55-61 | of N handles racing for a free key, exactly the first succeeds and holds it |
| `DistributedLock.TryLockRecursive` | src/main/java/io/github/wangjx/multilevelcache/DistributedLock.java:78-94 | at least one attempt; every attempt before the last was answered, found the key held, and had elapsed < wait; acquired means the last attempt was answered, found the key free and stored this token; timed out means it was answered, found the key held and had elapsed >= wait; a store error on the last attempt is passed on as the result |
| `DistributedLock.TryLockWaiting` | src/main/java/io/github/wangjx/multilevelcache/DistributedLock.java:70-76 | polls exactly as tryLockRecursive does with the wait converted by `TimeUnits.ToMillis` as the budget; so at least one attempt, exactly one with a non-positive wait, a free key on the first attempt acquired at once, and a store error on the first attempt as the result |
| `DistributedLock.PollForLock` | src/main/java/io/github/wangjx/multilevelcache/DistributedLock.java:78-94 | the polling loop decides exactly as the recursive definition |
| `LockManager.ExecuteWithLockAsWritten` | src/main/java/io/github/wangjx/multilevelcache/LockManager.java:74-98 | as written: an action that throws while being applied is followed by no release |
| `LockManager.ExecuteWithLock` | src/main/java/io/github/wangjx/multilevelcache/LockManager.java:74-98 | a fresh handle for the key and expiry; on timeout, the error "Failed to acquire lock: key" with no action and no release; on a store error while acquiring, that error with no action and no release; on acquisition, the action runs once with the handle, then exactly one release, and the action's outcome is the result |
| `LockManager.ExecuteWithLockDefaults` | src/main/java/io/github/wangjx/multilevelcache/LockManager.java:41-44 | uses the default expiry and the default wait |
| `LockManager.ExecuteWithLockExpiring` | src/main/java/io/github/wangjx/multilevelcache/LockManager.java:55-61 | uses the given expiry and the default wait |
| `LockManager.CreateLock` | src/main/java/io/github/wangjx/multilevelcache/LockManager.java:106-108 | a handle with the default expiry, nothing acquired |
| `LockManager.CreateLockExpiring` | src/main/java/io/github/wangjx/multilevelcache/LockManager.java:118-120 | a handle with the given expiry, nothing acquired |
| `LockManager.ReleaseNeverMasksOutcome` | src/main/java/io/github/wangjx/multilevelcache/LockManager.java:89-96 | whether or not the release succeeds, the caller receives the same result |
| `LockManager.ReleaseFreesOnlyOwnRecord` | src/main/java/io/github/wangjx/multilevelcache/LockManager.java:89-96 | the release frees the key if this handle still owns it, and leaves another holder's record in place |
| `LockManager.ThrowingActionLeaksLock` | src/main/java/io/github/wangjx/multilevelcache/LockManager.java:88-96 | as written, a throwing action leaves this handle's record held |
| `LockManager.AsWrittenAgreesWithoutThrow` | src/main/java/io/github/wangjx/multilevelcache/LockManager.java:88-96 | for an action that never throws on apply, the as-written and the corrected executions are identical |
| `LockManager.StoreErrorSkipsAction` | src/main/java/io/github/wangjx/multilevelcache/LockManager.java:82-97 | a lock-store error while acquiring reaches the caller unchanged, not as "Failed to acquire lock"; the action never runs and nothing is released |
| `LockManager.ThrowingActionReleases` | src/main/java/io/github/wangjx/multilevelcache/LockManager.java:88-96 | corrected, the same action is followed by the release; the key is freed and the action's error is the result |

## Left out

- Concurrency is left out: the read/write lock, reactive schedulers and fire-and-forget subscriptions. Each operation is one atomic step. The only interleaving kept is the split miss path of get.
- Caffeine's size- and time-bounded eviction is left out. It appears only as the arbitrary removal `DropLocal`.
- Shared-store TTLs and wall-clock time are left out. Expiry is the explicit transitions `CacheOperations.Expire` and `LockOperations.Expire`. Time is the supplied clock readings. Shared-tier values carry no TTL field, since only lock records are asked about theirs.
- JSON serialization is left out. Publishing takes an "encodes" flag. Inbound deserialization failure is the same as a null message: nothing changes.
- The concrete store adapters, the subscription plumbing and lifecycle (`destroy`), auto-configuration and properties are left out. Configuration values are parameters.
- Logging is left out, and so is `getLockInfo` with its `LockInfo`.
- `getObject` / `lookup` and `retrieve` are left out. The overridden `get` paths never call the first two, and `retrieve` is the same read as `getReactive`, which `Get` models.
- The timeout of `block` itself is folded into the `readOk` flag.
- `CacheOperations.KeysWithPrefix`: only the `prefix*` form of a glob pattern is modelled. A cache name containing `*`, `?` or `[` would widen the real pattern.
- `TimeUnits.ToMillis`: for nanoseconds and microseconds the contract states only the sign and the range, not the exact truncated quotient.
- `DistributedLock.TryLockRecursive`: the elapsed time `now - start` is computed on unbounded integers, not as a 64-bit subtraction. The fixed 100 ms pause between attempts shows only through the supplied clock readings. Polling that runs out of readings answers `StillPolling`, which the source never returns.
- `MultiLevelCache.FetchRemote`: a value read back from the shared tier is assumed to be exactly the value written. The values are stored as JSON with type tags only for non-final classes (src/main/java/io/github/wangjx/multilevelcache/config/MultiLevelCacheNonReactiveAutoConfiguration.java:73-80). So a final-class value such as a `Long` can decode as another class, such as an `Integer`. That would make a typed get on another process, or after a local drop, report a type mismatch. The model does not represent this.
- `DistributedLock.TryLock`: the single-attempt acquire models a store call that answers. A store error there propagates to the caller unchanged. The polling acquire and `executeWithLock` do model that error, through the `error` field of each attempt.
- `DistributedLock.Unlock`: a store error from the release script or from `isLocked` is not modelled on the handle itself. Inside `executeWithLock` it is the `releaseOk` input. `isLocked` would propagate the error unchanged.
- One keyspace: the model keeps the shared tier and the lock records (`LockOperations.LockStore`) in two separate maps. In the library both templates use one Redis connection and one keyspace (src/main/java/io/github/wangjx/multilevelcache/config/MultiLevelCacheNonReactiveAutoConfiguration.java:57, :95, :142). So a cache named `lock` would, on `clear()`, scan `lock:*` and delete every lock record. The model does not represent that interaction. It is of the same kind as the namespace overlap shown by `CacheKeys.NamespacesOverlap`.
- `MultiLevelCache.GetTyped`: `Class.isInstance` is modelled as equality of class names, without subclassing.
- `LockManager.ExecuteWithLock`: a release whose call fails is assumed to leave the store as the action left it. An action that completes empty is treated like one that completes with a value.

## Findings

| source | as written | input that shows it | evidently intended | confidence | as-written member | corrected member |
|---|---|---|---|---|---|---|
| src/main/java/io/github/wangjx/multilevelcache/MultiLevelCacheManager.java:369-382 | `handleRemoteEvict` evicts the message's key text as a String key. The local tier compares keys with `equals`, so an entry stored under a non-String key is never removed. | Process B caches key `Long 42` ↦ w. Process A puts `Long 42` ↦ v, and `EVICT "42"` reaches B. B keeps w and serves it on its next get. | Every local entry that shares the evicted shared-tier key leaves B's local tier. | high, not executed | `MultiLevelCache.HandleRemoteEvictAsWritten` | `MultiLevelCache.HandleRemoteEvict` |
| src/main/java/io/github/wangjx/multilevelcache/LockManager.java:88-96 | The release is attached with `doFinally` to the publisher that `action.apply(lock)` returns. An action that throws inside `apply` never returns one, so no release happens. | An action that throws on apply after the lock was acquired. The record stays until its TTL runs out. | Release after every way the action ends, as the comment on the release states. | medium, not executed | `LockManager.ExecuteWithLockAsWritten` | `LockManager.ExecuteWithLock` |

Each finding is exhibited and proved as follows:
- **Remote evict.** The as-written behaviour is exhibited by `MultiLevelCache.RemoteEvictMissesObjectKeys` and `CacheManager.PeerPutMissedAsWritten`. The corrected behaviour is proved by `MultiLevelCache.RemoteEvictRemovesKey` and `CacheManager.PeerPutInvalidates`.
- **Lock release.** The as-written behaviour is exhibited by `LockManager.ThrowingActionLeaksLock`. The corrected behaviour is proved by `LockManager.ThrowingActionReleases`.

The dispatcher `InvalidationBus.HandleMessage` and the `executeWithLock` overloads use the corrected definitions.
