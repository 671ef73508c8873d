/**
 * The publishing half of CacheInvalidationService: building invalidation
 * messages stamped with this process's instance id and handing them to the
 * channel. The channel is the outbox, the sequence of messages handed to
 * publishMessage so far. Serialization is an oracle whose verdict is the
 * `encoded` flag: when it fails the message is dropped and nothing reaches
 * the caller.
 */
module InvalidationPublisher {
  import opened Wrappers
  import opened CacheKeys
  import opened InvalidationMessage

  type Outbox = seq<Message>

  /** The EVICT message for `key` that instance `id` sends for cache `name`. */
  function EvictMessage(id: string, name: string, key: CacheKey): (m: Message)
    ensures m.instanceId == Some(id) && m.cacheName == Some(name)
    ensures m.action == Some(EVICT) && m.key == Some(KeyString(key))
  {
    Message(Some(id), Some(name), Some(EVICT), Some(KeyString(key)))
  }

  /** The CLEAR message that instance `id` sends for cache `name`; it carries no key. */
  function ClearMessage(id: string, name: string): (m: Message)
    ensures m.instanceId == Some(id) && m.cacheName == Some(name)
    ensures m.action == Some(CLEAR) && m.key.None?
  {
    Message(Some(id), Some(name), Some(CLEAR), None)
  }

  /** publish: appends the message when it serializes, otherwise sends nothing. */
  function Publish(out: Outbox, m: Message, encoded: bool): (r: Outbox)
    ensures out <= r
    ensures |r| == |out| + (if encoded then 1 else 0)
    ensures encoded ==> r[|out|] == m
  {
    if encoded then out + [m] else out
  }

  /** publishEvict: nothing for a null key, otherwise the EVICT message. */
  function PublishEvict(out: Outbox, id: string, name: string, key: Option<CacheKey>, encoded: bool): (r: Outbox)
    ensures out <= r
    ensures key.None? || !encoded ==> r == out
    ensures key.Some? && encoded ==> r == out + [EvictMessage(id, name, key.value)]
  {
    if key.None? then out else Publish(out, EvictMessage(id, name, key.value), encoded)
  }

  /** publishClear: the CLEAR message, without a key. */
  function PublishClear(out: Outbox, id: string, name: string, encoded: bool): (r: Outbox)
    ensures encoded ==> r == out + [ClearMessage(id, name)]
    ensures !encoded ==> r == out
  {
    Publish(out, ClearMessage(id, name), encoded)
  }

  /** Every message this instance publishes carries its own instance id. */
  lemma PublishedAreStamped(out: Outbox, id: string, name: string, key: Option<CacheKey>, encoded: bool)
    requires forall i :: 0 <= i < |out| ==> out[i].instanceId == Some(id)
    ensures var r := PublishEvict(out, id, name, key, encoded);
      forall i :: 0 <= i < |r| ==> r[i].instanceId == Some(id)
    ensures var r := PublishClear(out, id, name, encoded);
      forall i :: 0 <= i < |r| ==> r[i].instanceId == Some(id)
  {
  }
}
