/**
 * The cache manager of one process (MultiLevelCacheManager.getCache) and
 * the cross-process coherence that the invalidation protocol provides.
 */
module CacheManager {
  import opened Wrappers
  import opened CacheKeys
  import opened InvalidationMessage
  import opened InvalidationPublisher
  import opened MultiLevelCache
  import opened InvalidationBus

  /**
   * One process: its cache objects, the manager's name-to-cache map, its
   * invalidation bus, and the next unused reference.
   */
  datatype Process = Process(heap: Heap, wrappers: map<string, Ref>, bus: Bus, nextRef: Ref)

  /**
   * The invariant every reachable process keeps: each managed name maps to a
   * live cache of that name, the bus knows exactly the managed caches, and
   * no live reference is at or past nextRef.
   */
  ghost predicate Valid(p: Process)
  {
    && (forall n :: n in p.wrappers ==> p.wrappers[n] in p.heap && p.heap[p.wrappers[n]].name == n)
    && p.bus.registry == p.wrappers
    && (forall r :: r in p.heap ==> r < p.nextRef)
  }

  /** A freshly started process with no caches. */
  function Start(instanceId: string): (p: Process)
    ensures Valid(p)
    ensures p.bus.instanceId == instanceId && p.wrappers == map[]
  {
    Process(map[], map[], Bus(instanceId, map[]), 0)
  }

  datatype Lookup = Lookup(process: Process, ref: Ref)

  /**
   * getCache(name): the existing cache for the name, or a new one with an
   * empty local tier, which is registered with the bus at creation.
   */
  function GetCache(p: Process, name: string): (r: Lookup)
    requires Valid(p)
    ensures Valid(r.process)
    ensures r.process.bus.instanceId == p.bus.instanceId
    ensures r.ref in r.process.heap && r.process.heap[r.ref].name == name
    ensures name in r.process.wrappers && r.process.wrappers[name] == r.ref
    ensures name in p.wrappers ==> r == Lookup(p, p.wrappers[name])
    ensures name !in p.wrappers ==>
      && r.ref !in p.heap
      && r.process.heap == p.heap[r.ref := Cache(name, map[])]
      && r.process.bus == RegisterCache(p.bus, name, r.ref)
  {
    if name in p.wrappers then Lookup(p, p.wrappers[name])
    else
      var ref := p.nextRef;
      var bus := RegisterCache(p.bus, name, ref);
      Lookup(Process(p.heap[ref := Cache(name, map[])], p.wrappers[name := ref], bus, ref + 1), ref)
  }

  /** Repeated getCache calls answer the same cache and change nothing more. */
  lemma GetCacheIdempotent(p: Process, name: string)
    requires Valid(p)
    ensures var first := GetCache(p, name);
      GetCache(first.process, name) == first
  {
  }

  /** getCache never disturbs another cache's object. */
  lemma GetCacheKeepsOthers(p: Process, name: string, ref: Ref)
    requires Valid(p)
    requires ref in p.heap
    ensures var r := GetCache(p, name);
      ref in r.process.heap && r.process.heap[ref] == p.heap[ref]
  {
  }

  /** Delivering a message from the channel to this process. */
  function Deliver(p: Process, msg: Option<Message>): (r: Process)
    requires Valid(p)
    ensures Valid(r)
    ensures r.wrappers == p.wrappers && r.bus == p.bus && r.nextRef == p.nextRef
    ensures r.heap.Keys == p.heap.Keys
    ensures r == p.(heap := HandleMessage(p.bus, p.heap, msg))
  {
    var h := HandleMessage(p.bus, p.heap, msg);
    DeliverKeepsNames(p, msg);
    p.(heap := h)
  }

  /** Helper for Deliver: dispatch keeps every cache's name. */
  lemma DeliverKeepsNames(p: Process, msg: Option<Message>)
    requires Valid(p)
    ensures var h := HandleMessage(p.bus, p.heap, msg);
      forall r :: r in p.heap ==> r in h && h[r].name == p.heap[r].name
  {
    forall r | r in p.heap
      ensures HandleMessage(p.bus, p.heap, msg)[r].name == p.heap[r].name
    {
      DispatchKeepsNames(p.bus, p.heap, msg, r);
    }
  }

  /**
   * Coherence across two processes: after process A puts v under k and the
   * EVICT reaches process B, B no longer holds k locally, and B's next get
   * reads v from the shared tier.
   */
  lemma PeerPutInvalidates(a: Cache, sh: Shared, idA: string, k: CacheKey, v: Value, pB: Process)
    requires Valid(pB)
    requires pB.bus.instanceId != idA
    requires a.name in pB.wrappers
    ensures var s := Put(a, sh, idA, k, Some(v), Io(true, true));
      var msg := s.shared.outbox[|s.shared.outbox| - 1];
      var b := Deliver(pB, Some(msg)).heap[pB.wrappers[a.name]];
      && k !in b.l1
      && Get(b, s.shared.l2, k, true).result == Success(Some(v))
  {
    var s := Put(a, sh, idA, k, Some(v), Io(true, true));
    var msg := s.shared.outbox[|s.shared.outbox| - 1];
    assert msg == EvictMessage(idA, a.name, k);
    var ref := pB.wrappers[a.name];
    var b := Deliver(pB, Some(msg)).heap[ref];
    assert b == HandleRemoteEvict(pB.heap[ref], Some(KeyString(k)));
    assert b.name == a.name;
  }

  /**
   * The same exchange with the remote evict as written: if B holds a value
   * under a non-String key, the EVICT leaves it there and B's next get
   * answers its stale copy instead of v.
   */
  lemma PeerPutMissedAsWritten(a: Cache, sh: Shared, idA: string, cls: string, repr: string,
                               v: Value, b: Cache)
    requires b.name == a.name
    requires cls != StringClass
    requires ObjectKey(cls, repr) in b.l1 && b.l1[ObjectKey(cls, repr)] != v
    ensures var k := ObjectKey(cls, repr);
      var s := Put(a, sh, idA, k, Some(v), Io(true, true));
      var msg := s.shared.outbox[|s.shared.outbox| - 1];
      var b' := HandleRemoteEvictAsWritten(b, msg.key);
      Get(b', s.shared.l2, k, true).result == Success(Some(b.l1[k])) && b.l1[k] != v
  {
    var k := ObjectKey(cls, repr);
    var s := Put(a, sh, idA, k, Some(v), Io(true, true));
    assert s.shared.outbox[|s.shared.outbox| - 1] == EvictMessage(idA, a.name, k);
  }
}
