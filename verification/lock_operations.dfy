/**
 * The lock-store port (operations/LockOperations): set-if-absent, the
 * compare-token-then-delete script, and an existence test.
 */
module LockOperations {

  /** A stored lock record: the owner's token and the TTL it was written with. */
  datatype Entry = Entry(value: string, ttlMillis: int)

  type LockStore = map<string, Entry>

  datatype SetResult = SetResult(ok: bool, store: LockStore)

  /**
   * setIfAbsent: on an absent key stores the value and answers true; on a
   * present key answers false and leaves the existing record untouched.
   */
  function SetIfAbsent(s: LockStore, key: string, value: string, ttlMillis: int): (r: SetResult)
    ensures r.ok <==> key !in s
    ensures r.ok ==> r.store.Keys == s.Keys + {key} && r.store[key] == Entry(value, ttlMillis)
    ensures forall k :: k in s && (k != key || !r.ok) ==> k in r.store && r.store[k] == s[k]
    ensures !r.ok ==> r.store == s
  {
    if key in s then SetResult(false, s) else SetResult(true, s[key := Entry(value, ttlMillis)])
  }

  datatype ScriptResult = ScriptResult(count: int, store: LockStore)

  /**
   * executeScript with the release script: if the key's stored value equals
   * the token, delete it and answer 1, otherwise answer 0 and change nothing.
   */
  function CompareAndDelete(s: LockStore, key: string, token: string): (r: ScriptResult)
    ensures r.count == 0 || r.count == 1
    ensures r.count == 1 <==> key in s && s[key].value == token
    ensures r.count == 0 ==> r.store == s
    ensures r.count == 1 ==> r.store.Keys == s.Keys - {key}
    ensures forall k :: k in r.store ==> k in s && r.store[k] == s[k]
  {
    if key in s && s[key].value == token then ScriptResult(1, s - {key}) else ScriptResult(0, s)
  }

  /** hasKey: whether the key exists in the store. */
  function HasKey(s: LockStore, key: string): (r: bool)
    ensures r <==> key in s
  {
    key in s
  }

  /** The store's own TTL running out for one key. */
  function Expire(s: LockStore, key: string): (r: LockStore)
    ensures key !in r
    ensures forall k :: k in r <==> k in s && k != key
    ensures forall k :: k in r ==> r[k] == s[k]
  {
    s - {key}
  }
}
