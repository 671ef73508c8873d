/**
 * The receiving half of CacheInvalidationService: the registry of caches by
 * name and the dispatcher for incoming messages. Caches are objects shared
 * between the manager and the registry, so they live in a heap indexed by
 * reference; the dispatcher changes only the local tier of the one cache the
 * message names.
 */
module InvalidationBus {
  import opened Wrappers
  import opened CacheKeys
  import opened InvalidationMessage
  import opened InvalidationPublisher
  import opened MultiLevelCache

  /** A reference to a cache object. */
  type Ref = nat

  type Heap = map<Ref, Cache>

  /** This process's instance id and the registry of caches by name. */
  datatype Bus = Bus(instanceId: string, registry: map<string, Ref>)

  /** Every registered reference names a live cache. */
  ghost predicate RegistryLive(b: Bus, heap: Heap)
  {
    forall n :: n in b.registry ==> b.registry[n] in heap
  }

  /** registerCache: maps the cache's name to it, replacing an earlier registration. */
  function RegisterCache(b: Bus, name: string, ref: Ref): (r: Bus)
    ensures r.instanceId == b.instanceId
    ensures r.registry.Keys == b.registry.Keys + {name}
    ensures r.registry[name] == ref
    ensures forall n :: n in b.registry && n != name ==> r.registry[n] == b.registry[n]
  {
    b.(registry := b.registry[name := ref])
  }

  /** Whether a message is addressed to a registered cache of this process by another process. */
  predicate Routed(b: Bus, m: Message)
  {
    && m.instanceId != Some(b.instanceId)
    && m.cacheName.Some?
    && m.cacheName.value in b.registry
  }

  /**
   * handleMessage: drop a null message, drop one this instance sent, drop
   * one naming no registered cache (a null name makes the registry lookup
   * throw, which is logged: the same effect), then apply CLEAR or EVICT to
   * the registered cache's local tier.
   */
  function HandleMessage(b: Bus, heap: Heap, msg: Option<Message>): (r: Heap)
    requires RegistryLive(b, heap)
    ensures r.Keys == heap.Keys
    ensures msg.None? || !Routed(b, msg.value) ==> r == heap
    ensures msg.Some? && Routed(b, msg.value) ==>
      var ref := b.registry[msg.value.cacheName.value];
      && (forall o :: o in heap && o != ref ==> r[o] == heap[o])
      && r[ref] == match msg.value.action
                   case Some(CLEAR) => HandleRemoteClear(heap[ref])
                   case Some(EVICT) => HandleRemoteEvict(heap[ref], msg.value.key)
                   case None => heap[ref]
  {
    match msg
    case None => heap
    case Some(m) =>
      if m.instanceId == Some(b.instanceId) then heap
      else if m.cacheName.None? then heap
      else if m.cacheName.value !in b.registry then heap
      else
        var ref := b.registry[m.cacheName.value];
        match m.action
        case Some(CLEAR) => heap[ref := HandleRemoteClear(heap[ref])]
        case Some(EVICT) => heap[ref := HandleRemoteEvict(heap[ref], m.key)]
        case None => heap
  }

  /** A message this instance sent itself changes no cache. */
  lemma SelfMessageChangesNothing(b: Bus, heap: Heap, m: Message)
    requires RegistryLive(b, heap)
    requires m.instanceId == Some(b.instanceId)
    ensures HandleMessage(b, heap, Some(m)) == heap
  {
  }

  /** A message naming a cache this process has not registered changes no cache. */
  lemma UnknownCacheChangesNothing(b: Bus, heap: Heap, m: Message)
    requires RegistryLive(b, heap)
    requires m.cacheName.None? || m.cacheName.value !in b.registry
    ensures HandleMessage(b, heap, Some(m)) == heap
  {
  }

  /**
   * No feedback loop: whatever this instance publishes and then reads back
   * from the channel leaves every local tier as it was.
   */
  lemma OwnBroadcastsIgnored(b: Bus, heap: Heap, out: Outbox, name: string,
                             key: Option<CacheKey>, clear: bool, encoded: bool)
    requires RegistryLive(b, heap)
    ensures var sent := if clear then PublishClear(out, b.instanceId, name, encoded)
                        else PublishEvict(out, b.instanceId, name, key, encoded);
      forall i :: |out| <= i < |sent| ==> HandleMessage(b, heap, Some(sent[i])) == heap
  {
  }

  /** Messages are applied to the local tier only: the cache's name never changes. */
  lemma DispatchKeepsNames(b: Bus, heap: Heap, msg: Option<Message>, ref: Ref)
    requires RegistryLive(b, heap)
    requires ref in heap
    ensures HandleMessage(b, heap, msg)[ref].name == heap[ref].name
  {
  }
}
