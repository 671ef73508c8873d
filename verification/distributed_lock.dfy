/**
 * A distributed lock handle (DistributedLock) over the lock-store port. A
 * handle is one namespaced store key, one token fixed at creation and one
 * TTL; ownership of the store record is proved by token equality alone.
 *
 * The store and the clock belong to the environment: the polling acquire
 * takes, for each attempt, the store as that attempt finds it, whether the
 * store call answered or signalled an error, and the clock reading taken
 * after it (the fixed 100 ms pause between attempts shows only there).
 */
module DistributedLock {
  import opened Wrappers
  import opened TimeUnits
  import opened LockOperations

  /** A lock handle: the namespaced store key, its token and its TTL in milliseconds. */
  datatype Handle = Handle(key: string, token: string, ttlMillis: int)

  const LockPrefix: string := "lock:"

  /**
   * DistributedLock.create: the store key is "lock:" + lockKey, the token is
   * the supplied random value, the TTL is the expiry converted to milliseconds.
   */
  function Create(lockKey: string, expireTime: int, unit: TimeUnit, token: string): (h: Handle)
    requires IsLong(expireTime)
    ensures LockPrefix <= h.key && h.key[|LockPrefix|..] == lockKey
    ensures h.token == token
    ensures h.ttlMillis == ToMillis(expireTime, unit)
  {
    Handle(LockPrefix + lockKey, token, ToMillis(expireTime, unit))
  }

  /** Distinct lock keys never share a store record. */
  lemma CreateSeparatesKeys(k1: string, k2: string, e1: int, e2: int, u1: TimeUnit, u2: TimeUnit, t1: string, t2: string)
    requires IsLong(e1) && IsLong(e2)
    ensures Create(k1, e1, u1, t1).key == Create(k2, e2, u2, t2).key <==> k1 == k2
  {
    var h1, h2 := Create(k1, e1, u1, t1), Create(k2, e2, u2, t2);
    if h1.key == h2.key {
      assert k1 == h1.key[|LockPrefix|..] == h2.key[|LockPrefix|..] == k2;
    }
  }

  /**
   * tryLock(): succeeds exactly when the key is absent, and then the store
   * maps the key to this handle's token with this handle's TTL.
   */
  function TryLock(h: Handle, s: LockStore): (r: SetResult)
    ensures r.ok <==> h.key !in s
    ensures r.ok ==> r.store == s[h.key := Entry(h.token, h.ttlMillis)]
    ensures !r.ok ==> r.store == s
    ensures forall k :: k in s && k != h.key ==> k in r.store && r.store[k] == s[k]
  {
    SetIfAbsent(s, h.key, h.token, h.ttlMillis)
  }

  /** unlock(): the compare-token-then-delete script on this handle's key and token. */
  function Unlock(h: Handle, s: LockStore): (r: ScriptResult)
    ensures r.count == 1 <==> h.key in s && s[h.key].value == h.token
    ensures r.count == 0 <==> !(h.key in s && s[h.key].value == h.token)
    ensures r.count == 0 ==> r.store == s
    ensures r.count == 1 ==> h.key !in r.store
    ensures forall k :: k != h.key ==> (k in r.store <==> k in s)
    ensures forall k :: k in r.store ==> r.store[k] == s[k]
  {
    CompareAndDelete(s, h.key, h.token)
  }

  /** isLocked(): whether the namespaced key exists in the store. */
  function IsLocked(h: Handle, s: LockStore): (r: bool)
    ensures r <==> h.key in s
  {
    HasKey(s, h.key)
  }

  /** A successful tryLock makes the lock appear held; the owner's unlock then frees it. */
  lemma AcquireThenRelease(h: Handle, s: LockStore)
    requires h.key !in s
    ensures var a := TryLock(h, s);
      a.ok && IsLocked(h, a.store)
      && Unlock(h, a.store).count == 1 && !IsLocked(h, Unlock(h, a.store).store)
  {
  }

  /** unlock by a handle whose token is not the stored one removes nothing. */
  lemma NonOwnerUnlockKeepsRecord(h: Handle, s: LockStore)
    requires h.key in s && s[h.key].value != h.token
    ensures Unlock(h, s) == ScriptResult(0, s)
  {
  }

  /**
   * Holder X's record expires, holder Y acquires the same key, then X calls
   * unlock: the count is 0 and Y still holds the lock.
   */
  lemma ExpiredHolderCannotReleaseSuccessor(x: Handle, y: Handle, s: LockStore)
    requires x.key == y.key && x.token != y.token
    requires x.key !in s
    ensures var s1 := TryLock(x, s).store;
      var s2 := Expire(s1, x.key);
      var s3 := TryLock(y, s2).store;
      var u := Unlock(x, s3);
      && TryLock(x, s).ok && TryLock(y, s2).ok
      && u.count == 0 && u.store == s3
      && IsLocked(y, u.store) && u.store[y.key].value == y.token
  {
  }

  // ------------------------------------------------------------ contention

  /** Several handles calling tryLock one after another: who won, and the store after. */
  datatype Race = Race(wins: seq<bool>, store: LockStore)

  function TryLockEach(hs: seq<Handle>, s: LockStore): (r: Race)
    ensures |r.wins| == |hs|
    decreases |hs|
  {
    if hs == [] then Race([], s)
    else
      var first := TryLock(hs[0], s);
      var rest := TryLockEach(hs[1..], first.store);
      Race([first.ok] + rest.wins, rest.store)
  }

  /** Once the key is held, every further tryLock on it fails and leaves the store alone. */
  lemma {:induction false} HeldKeyRejectsAll(hs: seq<Handle>, key: string, s: LockStore)
    requires key in s
    requires forall i :: 0 <= i < |hs| ==> hs[i].key == key
    ensures var r := TryLockEach(hs, s);
      r.store == s && forall i :: 0 <= i < |hs| ==> !r.wins[i]
    decreases |hs|
  {
    if hs != [] {
      HeldKeyRejectsAll(hs[1..], key, s);
    }
  }

  /** Of N handles racing for a free key, exactly the first succeeds and then holds it. */
  lemma ExactlyOneContenderWins(hs: seq<Handle>, key: string, s: LockStore)
    requires |hs| > 0 && key !in s
    requires forall i :: 0 <= i < |hs| ==> hs[i].key == key
    ensures var r := TryLockEach(hs, s);
      && r.wins[0]
      && (forall i :: 1 <= i < |hs| ==> !r.wins[i])
      && key in r.store && r.store[key].value == hs[0].token
  {
    var first := TryLock(hs[0], s);
    HeldKeyRejectsAll(hs[1..], key, first.store);
  }

  // ------------------------------------------------------------- polling

  /**
   * What one polling attempt sees: the store at the attempt, the error the
   * store call signalled instead of answering (None when it answered), and
   * the clock after it.
   */
  datatype Poll = Poll(store: LockStore, error: Option<string>, now: int)

  /**
   * The outcome of polling: acquired on some attempt, timed out after some
   * attempt, failed with the store's error on some attempt, or still
   * polling when the supplied readings ran out.
   */
  datatype Polled =
    | Acquired(attempts: nat, store: LockStore)
    | TimedOut(attempts: nat)
    | StoreFailed(attempts: nat, cause: string)
    | StillPolling(attempts: nat)

  /**
   * Whether an attempt found the key held (the store answering) and the
   * wait budget was not yet spent after it.
   */
  predicate RetryAfter(h: Handle, waitMillis: int, start: int, p: Poll)
  {
    p.error.None? && h.key in p.store && p.now - start < waitMillis
  }

  /**
   * tryLockRecursive: try once; on success answer true; on failure retry
   * (after the fixed pause) while the elapsed time is below the wait, and
   * answer false once it is not. An error from the store call ends polling
   * and reaches the caller unchanged.
   */
  function TryLockRecursive(h: Handle, waitMillis: int, start: int, polls: seq<Poll>): (r: Polled)
    ensures r.attempts <= |polls|
    ensures |polls| > 0 || !r.StillPolling? ==> r.attempts >= 1
    ensures forall j :: 0 <= j < r.attempts - 1 ==> RetryAfter(h, waitMillis, start, polls[j])
    ensures r.Acquired? ==>
      && polls[r.attempts - 1].error.None?
      && h.key !in polls[r.attempts - 1].store && r.store == TryLock(h, polls[r.attempts - 1].store).store
    ensures r.TimedOut? ==>
      && polls[r.attempts - 1].error.None?
      && h.key in polls[r.attempts - 1].store && polls[r.attempts - 1].now - start >= waitMillis
    ensures r.StoreFailed? ==> polls[r.attempts - 1].error == Some(r.cause)
    ensures r.StillPolling? ==>
      r.attempts == |polls| && forall j :: 0 <= j < |polls| ==> RetryAfter(h, waitMillis, start, polls[j])
    decreases |polls|
  {
    if |polls| == 0 then StillPolling(0)
    else if polls[0].error.Some? then StoreFailed(1, polls[0].error.value)
    else
      var attempt := TryLock(h, polls[0].store);
      if attempt.ok then Acquired(1, attempt.store)
      else if polls[0].now - start < waitMillis then
        match TryLockRecursive(h, waitMillis, start, polls[1..])
        case Acquired(n, s) => Acquired(n + 1, s)
        case TimedOut(n) => TimedOut(n + 1)
        case StoreFailed(n, e) => StoreFailed(n + 1, e)
        case StillPolling(n) => StillPolling(n + 1)
      else TimedOut(1)
  }

  /** tryLock(waitTime, unit): polling with the wait converted to milliseconds. */
  function TryLockWaiting(h: Handle, waitTime: int, unit: TimeUnit, start: int, polls: seq<Poll>): (r: Polled)
    requires IsLong(waitTime)
    ensures |polls| > 0 ==> r.attempts >= 1
    ensures waitTime <= 0 && |polls| > 0 && polls[0].now >= start ==> r.attempts == 1 && !r.StillPolling?
    ensures |polls| > 0 && polls[0].error.None? && h.key !in polls[0].store ==>
      r == Acquired(1, TryLock(h, polls[0].store).store)
    ensures |polls| > 0 && polls[0].error.Some? ==> r == StoreFailed(1, polls[0].error.value)
    ensures r == TryLockRecursive(h, ToMillis(waitTime, unit), start, polls)
  {
    var waitMillis := ToMillis(waitTime, unit);
    TryLockRecursive(h, waitMillis, start, polls)
  }

  /**
   * Polling as a loop over the supplied readings; it decides exactly as the
   * recursive definition does.
   */
  method PollForLock(h: Handle, waitMillis: int, start: int, polls: seq<Poll>) returns (r: Polled)
    ensures r == TryLockRecursive(h, waitMillis, start, polls)
  {
    var i := 0;
    while i < |polls|
      invariant 0 <= i <= |polls|
      invariant forall j :: 0 <= j < i ==> RetryAfter(h, waitMillis, start, polls[j])
      invariant TryLockRecursive(h, waitMillis, start, polls) == Shift(TryLockRecursive(h, waitMillis, start, polls[i..]), i)
    {
      if polls[i].error.Some? {
        return StoreFailed(i + 1, polls[i].error.value);
      }
      var attempt := TryLock(h, polls[i].store);
      if attempt.ok {
        return Acquired(i + 1, attempt.store);
      }
      if polls[i].now - start >= waitMillis {
        return TimedOut(i + 1);
      }
      RetryShifts(h, waitMillis, start, polls, i);
      i := i + 1;
    }
    return StillPolling(|polls|);
  }

  /**
   * One failed attempt with time left: polling from attempt i answers what
   * polling from attempt i + 1 answers, one attempt later.
   */
  lemma RetryShifts(h: Handle, waitMillis: int, start: int, polls: seq<Poll>, i: nat)
    requires i < |polls| && RetryAfter(h, waitMillis, start, polls[i])
    ensures Shift(TryLockRecursive(h, waitMillis, start, polls[i..]), i)
         == Shift(TryLockRecursive(h, waitMillis, start, polls[i + 1..]), i + 1)
  {
    assert polls[i..][0] == polls[i];
    assert polls[i..][1..] == polls[i + 1..];
  }

  /** A polling outcome counted from `offset` attempts later. */
  function Shift(r: Polled, offset: nat): Polled
  {
    match r
    case Acquired(n, s) => Acquired(n + offset, s)
    case TimedOut(n) => TimedOut(n + offset)
    case StoreFailed(n, e) => StoreFailed(n + offset, e)
    case StillPolling(n) => StillPolling(n + offset)
  }
}
