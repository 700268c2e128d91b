/** The session lock: a lease that expires and an epoch counter that only grows. */
module SessionLock {
  import opened Prelude
  import opened DataPointStore

  datatype Lease = Lease(epoch: nat, expiresAt: real)

  datatype Lock = Lock(counter: nat, lease: Option<Lease>, complete: bool)

  const FREE := Lock(0, None, false)

  datatype Grant = Granted(epoch: nat) | LockHeld

  predicate IsLive(lock: Lock, now: real) {
    lock.lease.Some? && now < lock.lease.value.expiresAt
  }

  predicate Holds(lock: Lock, epoch: nat) {
    lock.lease.Some? && lock.lease.value.epoch == epoch
  }

  function Acquire(lock: Lock, now: real, ttl: real): (Lock, Grant) {
    if IsLive(lock, now) then (lock, LockHeld)
    else
      var epoch := lock.counter + 1;
      (lock.(counter := epoch, lease := Some(Lease(epoch, now + ttl))), Granted(epoch))
  }

  function Renew(lock: Lock, epoch: nat, now: real, ttl: real): (Lock, Result<()>) {
    if !Holds(lock, epoch) || !IsLive(lock, now) then (lock, StaleEpoch)
    else (lock.(lease := Some(Lease(epoch, now + ttl))), Ok(()))
  }

  function Release(lock: Lock, epoch: nat): Lock {
    if Holds(lock, epoch) then lock.(lease := None) else lock
  }

  function MarkComplete(lock: Lock, epoch: nat): (Lock, Result<()>) {
    if epoch < lock.counter then (lock, StaleEpoch) else (lock.(complete := true), Ok(()))
  }

  /** A lease names the newest epoch: earlier ones were replaced when it was granted. */
  ghost predicate Valid(lock: Lock) {
    lock.lease.Some? ==> lock.lease.value.epoch == lock.counter
  }

  /** Calls of a superseded holder never touch its successor's lease, and cannot finish the session. */
  lemma StaleHolderIsHarmless(lock: Lock, epoch: nat, now: real, ttl: real)
    requires Valid(lock) && epoch < lock.counter
    ensures Renew(lock, epoch, now, ttl) == (lock, StaleEpoch)
    ensures Release(lock, epoch) == lock
    ensures MarkComplete(lock, epoch) == (lock, StaleEpoch)
  {
  }
}
