/**
 * The invalidation message broadcast on the pub/sub channel
 * (model/CacheInvalidationMessage). Every field of the Java bean may be null,
 * so each is an Option here; a message read off the wire can lack any of them.
 */
module InvalidationMessage {
  import opened Wrappers

  /** The two invalidation actions. */
  datatype Action = EVICT | CLEAR

  /** The four-argument constructor stores each argument in its own field. */
  datatype Message = Message(
    instanceId: Option<string>,
    cacheName: Option<string>,
    action: Option<Action>,
    key: Option<string>)

  /** The no-argument constructor: every field null. */
  function EmptyMessage(): (m: Message)
    ensures m.instanceId.None? && m.cacheName.None? && m.action.None? && m.key.None?
  {
    Message(None, None, None, None)
  }

  function SetInstanceId(m: Message, v: Option<string>): (r: Message)
    ensures r.instanceId == v
    ensures r.cacheName == m.cacheName && r.action == m.action && r.key == m.key
  {
    m.(instanceId := v)
  }

  function SetCacheName(m: Message, v: Option<string>): (r: Message)
    ensures r.cacheName == v
    ensures r.instanceId == m.instanceId && r.action == m.action && r.key == m.key
  {
    m.(cacheName := v)
  }

  function SetAction(m: Message, v: Option<Action>): (r: Message)
    ensures r.action == v
    ensures r.instanceId == m.instanceId && r.cacheName == m.cacheName && r.key == m.key
  {
    m.(action := v)
  }

  function SetKey(m: Message, v: Option<string>): (r: Message)
    ensures r.key == v
    ensures r.instanceId == m.instanceId && r.cacheName == m.cacheName && r.action == m.action
  {
    m.(key := v)
  }

  /**
   * A deserializer's path (no-argument constructor, then one setter per
   * field) builds the same message as the four-argument constructor.
   */
  lemma SettersRebuildMessage(id: Option<string>, name: Option<string>, a: Option<Action>, k: Option<string>)
    ensures SetKey(SetAction(SetCacheName(SetInstanceId(EmptyMessage(), id), name), a), k)
         == Message(id, name, a, k)
  {
  }
}
