/**
 * Running an action under a distributed lock (LockManager): make a fresh
 * handle, acquire it by polling, run the action with it, then release it
 * exactly once whatever the action did.
 *
 * The action is a function of the acquired handle and of the store as the
 * acquisition left it; it answers its outcome and the store as it stands
 * when the action ends (other clients and TTL expiry may have changed it).
 * Whether the release call itself succeeds is an input; a failed release is
 * only logged and leaves the store as the action left it.
 */
module LockManager {
  import opened Wrappers
  import opened TimeUnits
  import opened LockOperations
  import opened DistributedLock

  /** The manager's defaults for lock expiry and acquisition wait. */
  datatype LockManager = LockManager(defaultExpire: int, defaultUnit: TimeUnit,
                                     defaultWait: int, defaultWaitUnit: TimeUnit)

  /** The defaults are Java longs. */
  predicate ValidDefaults(m: LockManager)
  {
    IsLong(m.defaultExpire) && IsLong(m.defaultWait)
  }

  /** What the caller finally receives: the action's value or an error. */
  datatype Outcome<+T> = Done(value: T) | Failed(error: string)

  /**
   * What applying the action did: it returned a publisher that completed
   * with an outcome, or it threw before returning one.
   */
  datatype ActionRun<+T> =
    | Emitted(outcome: Outcome<T>, store: LockStore)
    | ThrewOnApply(cause: string, store: LockStore)

  function RunOutcome<T>(run: ActionRun<T>): Outcome<T>
  {
    match run
    case Emitted(o, _) => o
    case ThrewOnApply(e, _) => Failed(e)
  }

  /** The observable steps of one execution, in order. */
  datatype Event = RunAction | Release

  /**
   * One execution: the handle it made, the wait in milliseconds, the result
   * (None while the supplied readings ran out before acquisition was
   * decided), its steps, and the store after it (None when it never held
   * the lock and so wrote nothing).
   */
  datatype Execution<+T> = Execution(handle: Handle, waitMillis: int, result: Option<Outcome<T>>,
                                     events: seq<Event>, store: Option<LockStore>)

  function AcquireFailure(lockKey: string): string
  {
    "Failed to acquire lock: " + lockKey
  }

  /**
   * executeWithLock as written: the release is attached to the publisher the
   * action returns, so an action that throws while building it is never
   * followed by a release.
   */
  function ExecuteWithLockAsWritten<T>(lockKey: string, expire: int, unit: TimeUnit, wait: int, waitUnit: TimeUnit,
                                       token: string, start: int, polls: seq<Poll>,
                                       action: (Handle, LockStore) -> ActionRun<T>, releaseOk: bool): (r: Execution<T>)
    requires IsLong(expire) && IsLong(wait)
    ensures r.handle == Create(lockKey, expire, unit, token)
    ensures var p := TryLockWaiting(r.handle, wait, waitUnit, start, polls);
      p.Acquired? && action(r.handle, p.store).ThrewOnApply? ==>
        r.events == [RunAction] && r.store == Some(action(r.handle, p.store).store)
  {
    var h := Create(lockKey, expire, unit, token);
    var wm := ToMillis(wait, waitUnit);
    match TryLockWaiting(h, wait, waitUnit, start, polls)
    case StillPolling(_) => Execution(h, wm, None, [], None)
    case TimedOut(_) => Execution(h, wm, Some(Failed(AcquireFailure(lockKey))), [], None)
    case StoreFailed(_, e) => Execution(h, wm, Some(Failed(e)), [], None)
    case Acquired(_, s) =>
      match action(h, s)
      case ThrewOnApply(e, after) => Execution(h, wm, Some(Failed(e)), [RunAction], Some(after))
      case Emitted(o, after) =>
        var released := if releaseOk then Unlock(h, after).store else after;
        Execution(h, wm, Some(o), [RunAction, Release], Some(released))
  }

  /**
   * executeWithLock(key, expire, unit, wait, waitUnit, action), with the
   * release made after every way the action can end.
   */
  function ExecuteWithLock<T>(lockKey: string, expire: int, unit: TimeUnit, wait: int, waitUnit: TimeUnit,
                              token: string, start: int, polls: seq<Poll>,
                              action: (Handle, LockStore) -> ActionRun<T>, releaseOk: bool): (r: Execution<T>)
    requires IsLong(expire) && IsLong(wait)
    ensures r.handle == Create(lockKey, expire, unit, token)
    ensures r.waitMillis == ToMillis(wait, waitUnit)
    ensures var p := TryLockWaiting(r.handle, wait, waitUnit, start, polls);
      && (p.StillPolling? <==> r.result.None?)
      && (p.TimedOut? ==> r.result == Some(Failed(AcquireFailure(lockKey))) && r.events == [] && r.store.None?)
      && (p.StoreFailed? ==> r.result == Some(Failed(p.cause)) && r.events == [] && r.store.None?)
      && (p.StillPolling? ==> r.events == [] && r.store.None?)
      && (p.Acquired? ==>
            var run := action(r.handle, p.store);
            && r.events == [RunAction, Release]
            && r.result == Some(RunOutcome(run))
            && r.store == Some(if releaseOk then Unlock(r.handle, run.store).store else run.store))
  {
    var h := Create(lockKey, expire, unit, token);
    var wm := ToMillis(wait, waitUnit);
    match TryLockWaiting(h, wait, waitUnit, start, polls)
    case StillPolling(_) => Execution(h, wm, None, [], None)
    case TimedOut(_) => Execution(h, wm, Some(Failed(AcquireFailure(lockKey))), [], None)
    case StoreFailed(_, e) => Execution(h, wm, Some(Failed(e)), [], None)
    case Acquired(_, s) =>
      var run := action(h, s);
      var released := if releaseOk then Unlock(h, run.store).store else run.store;
      Execution(h, wm, Some(RunOutcome(run)), [RunAction, Release], Some(released))
  }

  /** executeWithLock(key, action): the manager's default expiry and wait. */
  function ExecuteWithLockDefaults<T>(m: LockManager, lockKey: string, token: string, start: int, polls: seq<Poll>,
                                      action: (Handle, LockStore) -> ActionRun<T>, releaseOk: bool): (r: Execution<T>)
    requires ValidDefaults(m)
    ensures r.handle.ttlMillis == ToMillis(m.defaultExpire, m.defaultUnit)
    ensures r.waitMillis == ToMillis(m.defaultWait, m.defaultWaitUnit)
    ensures r == ExecuteWithLock(lockKey, m.defaultExpire, m.defaultUnit, m.defaultWait, m.defaultWaitUnit,
                                 token, start, polls, action, releaseOk)
  {
    ExecuteWithLock(lockKey, m.defaultExpire, m.defaultUnit, m.defaultWait, m.defaultWaitUnit,
                    token, start, polls, action, releaseOk)
  }

  /** executeWithLock(key, expire, unit, action): the given expiry, the default wait. */
  function ExecuteWithLockExpiring<T>(m: LockManager, lockKey: string, expire: int, unit: TimeUnit, token: string,
                                      start: int, polls: seq<Poll>,
                                      action: (Handle, LockStore) -> ActionRun<T>, releaseOk: bool): (r: Execution<T>)
    requires ValidDefaults(m) && IsLong(expire)
    ensures r.handle.ttlMillis == ToMillis(expire, unit)
    ensures r.waitMillis == ToMillis(m.defaultWait, m.defaultWaitUnit)
    ensures r == ExecuteWithLock(lockKey, expire, unit, m.defaultWait, m.defaultWaitUnit,
                                 token, start, polls, action, releaseOk)
  {
    ExecuteWithLock(lockKey, expire, unit, m.defaultWait, m.defaultWaitUnit, token, start, polls, action, releaseOk)
  }

  /** createLock(key): a handle with the default expiry; nothing is acquired. */
  function CreateLock(m: LockManager, lockKey: string, token: string): (h: Handle)
    requires ValidDefaults(m)
    ensures h == Create(lockKey, m.defaultExpire, m.defaultUnit, token)
    ensures h.ttlMillis == ToMillis(m.defaultExpire, m.defaultUnit)
  {
    Create(lockKey, m.defaultExpire, m.defaultUnit, token)
  }

  /** createLock(key, expire, unit): a handle with the given expiry; nothing is acquired. */
  function CreateLockExpiring(lockKey: string, expire: int, unit: TimeUnit, token: string): (h: Handle)
    requires IsLong(expire)
    ensures h == Create(lockKey, expire, unit, token)
  {
    Create(lockKey, expire, unit, token)
  }

  // ------------------------------------------------------------ properties

  /** A failed or failing release never changes what the caller receives. */
  lemma ReleaseNeverMasksOutcome<T>(lockKey: string, expire: int, unit: TimeUnit, wait: int, waitUnit: TimeUnit,
                                    token: string, start: int, polls: seq<Poll>,
                                    action: (Handle, LockStore) -> ActionRun<T>)
    requires IsLong(expire) && IsLong(wait)
    ensures ExecuteWithLock(lockKey, expire, unit, wait, waitUnit, token, start, polls, action, true).result
         == ExecuteWithLock(lockKey, expire, unit, wait, waitUnit, token, start, polls, action, false).result
  {
  }

  /**
   * If the action ends while this handle's record is still in place, the
   * execution leaves the key free; if the record had expired and another
   * holder took the key, that holder's record survives the release.
   */
  lemma ReleaseFreesOnlyOwnRecord<T>(lockKey: string, expire: int, unit: TimeUnit, wait: int, waitUnit: TimeUnit,
                                     token: string, start: int, polls: seq<Poll>,
                                     action: (Handle, LockStore) -> ActionRun<T>)
    requires IsLong(expire) && IsLong(wait)
    ensures var r := ExecuteWithLock(lockKey, expire, unit, wait, waitUnit, token, start, polls, action, true);
      var p := TryLockWaiting(r.handle, wait, waitUnit, start, polls);
      p.Acquired? ==>
        var after := action(r.handle, p.store).store;
        && (r.handle.key in after && after[r.handle.key].value == token ==>
              r.store.Some? && r.handle.key !in r.store.value)
        && (r.handle.key in after && after[r.handle.key].value != token ==>
              r.store == Some(after))
  {
  }

  /**
   * As written, an action that throws while building its publisher after the
   * lock was acquired leaves the lock record in place: it stays held until
   * its TTL runs out.
   */
  lemma ThrowingActionLeaksLock<T>(lockKey: string, expire: int, unit: TimeUnit, wait: int, waitUnit: TimeUnit,
                                   token: string, start: int, polls: seq<Poll>, cause: string, releaseOk: bool)
    requires IsLong(expire) && IsLong(wait)
    requires |polls| > 0 && polls[0].error.None? && "lock:" + lockKey !in polls[0].store
    ensures var thrower: (Handle, LockStore) -> ActionRun<T> := (h: Handle, s: LockStore) => ThrewOnApply(cause, s);
      var r := ExecuteWithLockAsWritten(lockKey, expire, unit, wait, waitUnit, token, start, polls, thrower, releaseOk);
      && r.events == [RunAction]
      && r.store.Some? && IsLocked(r.handle, r.store.value)
      && r.store.value[r.handle.key].value == token
  {
    var h := Create(lockKey, expire, unit, token);
    assert h.key == "lock:" + lockKey;
  }

  /** Corrected, the same throwing action is followed by the release, which frees the key. */
  lemma ThrowingActionReleases<T>(lockKey: string, expire: int, unit: TimeUnit, wait: int, waitUnit: TimeUnit,
                                  token: string, start: int, polls: seq<Poll>, cause: string)
    requires IsLong(expire) && IsLong(wait)
    requires |polls| > 0 && polls[0].error.None? && "lock:" + lockKey !in polls[0].store
    ensures var thrower: (Handle, LockStore) -> ActionRun<T> := (h: Handle, s: LockStore) => ThrewOnApply(cause, s);
      var r := ExecuteWithLock(lockKey, expire, unit, wait, waitUnit, token, start, polls, thrower, true);
      && r.events == [RunAction, Release]
      && r.result == Some(Failed(cause))
      && r.store.Some? && !IsLocked(r.handle, r.store.value)
  {
    var h := Create(lockKey, expire, unit, token);
    assert h.key == "lock:" + lockKey;
  }

  /**
   * An action that does not throw while building its publisher is released
   * as written too: the two definitions differ only on a throw at apply.
   */
  lemma AsWrittenAgreesWithoutThrow<T>(lockKey: string, expire: int, unit: TimeUnit, wait: int, waitUnit: TimeUnit,
                                       token: string, start: int, polls: seq<Poll>,
                                       action: (Handle, LockStore) -> ActionRun<T>, releaseOk: bool)
    requires IsLong(expire) && IsLong(wait)
    requires forall h: Handle, s: LockStore :: action(h, s).Emitted?
    ensures ExecuteWithLockAsWritten(lockKey, expire, unit, wait, waitUnit, token, start, polls, action, releaseOk)
         == ExecuteWithLock(lockKey, expire, unit, wait, waitUnit, token, start, polls, action, releaseOk)
  {
  }

  /**
   * An error from the lock store while acquiring reaches the caller as it
   * is, not as the acquire-failure message; the action never runs and
   * nothing is released.
   */
  lemma StoreErrorSkipsAction<T>(lockKey: string, expire: int, unit: TimeUnit, wait: int, waitUnit: TimeUnit,
                                 token: string, start: int, polls: seq<Poll>,
                                 action: (Handle, LockStore) -> ActionRun<T>, releaseOk: bool)
    requires IsLong(expire) && IsLong(wait)
    requires |polls| > 0 && polls[0].error.Some?
    ensures var r := ExecuteWithLock(lockKey, expire, unit, wait, waitUnit, token, start, polls, action, releaseOk);
      && r.result == Some(Failed(polls[0].error.value))
      && r.events == [] && r.store.None?
  {
  }
}
