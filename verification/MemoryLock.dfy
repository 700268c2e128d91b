/** The in-memory session lock in its in-place form; `now` is the injected clock's reading. */
module MemoryLock {
  import opened Prelude
  import opened DataPointStore
  import opened SessionLock

  class InMemorySessionLock {
    const ttl: real
    var counter: nat
    var lease: Option<Lease>
    var complete: bool

    constructor (ttl: real)
      ensures this.ttl == ttl && Value() == FREE
    {
      this.ttl := ttl;
      counter, lease, complete := 0, None, false;
    }

    function Value(): Lock
      reads this
    {
      Lock(counter, lease, complete)
    }

    method Acquire(now: real) returns (r: Grant)
      modifies this
      ensures (Value(), r) == SessionLock.Acquire(old(Value()), now, ttl)
    {
      if IsLive(Value(), now) {
        return LockHeld;
      }
      counter := counter + 1;
      lease := Some(Lease(counter, now + ttl));
      return Granted(counter);
    }

    method Renew(epoch: nat, now: real) returns (r: Result<()>)
      modifies this`lease
      ensures (Value(), r) == SessionLock.Renew(old(Value()), epoch, now, ttl)
    {
      if lease.None? || lease.value.epoch != epoch || !IsLive(Value(), now) {
        return StaleEpoch;
      }
      lease := Some(lease.value.(expiresAt := now + ttl));
      return Ok(());
    }

    method Release(epoch: nat)
      modifies this`lease
      ensures Value() == SessionLock.Release(old(Value()), epoch)
    {
      if lease.Some? && lease.value.epoch == epoch {
        lease := None;
      }
    }

    method MarkComplete(epoch: nat) returns (r: Result<()>)
      modifies this`complete
      ensures (Value(), r) == SessionLock.MarkComplete(old(Value()), epoch)
    {
      if epoch < counter {
        return StaleEpoch;
      }
      complete := true;
      return Ok(());
    }
  }
}
