/** The two rate limiters in their in-place form: one turn is the stretch between two awaits. */
module RateLimiter {
  import opened Prelude
  import opened TokenBucket

  class InMemoryRateLimiter {
    const rate: real
    const burst: int
    var buckets: Buckets

    constructor (rate: real, burst: int)
      requires Configured(rate, burst)
      ensures this.rate == rate && this.burst == burst && buckets == map[]
    {
      this.rate, this.burst, buckets := rate, burst, map[];
    }

    /** One turn of the acquire loop at this clock reading. */
    method TakeTurn(key: string, now: real) returns (verdict: Verdict)
      requires Configured(rate, burst)
      modifies this`buckets
      ensures buckets == Serve(rate, burst, old(buckets), [Attempt(key, now)])
      ensures verdict == Turn(rate, burst, At(old(buckets), key), now).1
    {
      hide Refilled, Serve;
      var bucket := if key in buckets then buckets[key] else Bucket(burst as real, now);
      var tokens := Refilled(rate, burst, bucket, now);
      if tokens >= 1.0 {
        tokens := tokens - 1.0;
        verdict := Granted;
      } else {
        verdict := Wait((1.0 - tokens) / rate);
      }
      buckets := buckets[key := Bucket(tokens, now)];
      ServeOne(rate, burst, old(buckets), key, now);
    }

    /**
     * The acquire loop undisturbed: take a turn, sleep what it says, take another. The second turn is always
     * granted, so an undisturbed caller sleeps at most once.
     */
    method Acquire(key: string, now: real) returns (at: real, sleeps: nat)
      requires Configured(rate, burst) && BucketOk(At(buckets, key), burst, now)
      modifies this`buckets
      ensures at >= now && sleeps <= 1
      ensures Turn(rate, burst, At(old(buckets), key), now).1 == (if sleeps == 0 then Granted else Wait(at - now))
      ensures key in buckets && buckets[key].refilledAt == at && BucketOk(At(buckets, key), burst, at)
    {
      at, sleeps := now, 0;
      ghost var before := At(buckets, key);
      TurnBounds(rate, burst, before, now);
      var verdict := TakeTurn(key, at);
      ServeOne(rate, burst, old(buckets), key, now);
      while verdict.Wait?
        invariant at >= now && sleeps <= 1 && (sleeps == 1 ==> verdict.Granted?)
        invariant verdict.Wait? ==> at == now && verdict == Turn(rate, burst, before, now).1
        invariant Turn(rate, burst, before, now).1 == if sleeps == 0 then verdict else Wait(at - now)
        invariant key in buckets && BucketOk(At(buckets, key), burst, at) && buckets[key].refilledAt == at
        invariant verdict.Wait? ==> buckets[key] == Turn(rate, burst, before, now).0
        decreases 1 - sleeps
      {
        WaitIsEnough(rate, burst, before, now, now + verdict.time);
        at, sleeps := at + verdict.time, sleeps + 1;
        ghost var held := buckets;
        TurnBounds(rate, burst, At(held, key), at);
        verdict := TakeTurn(key, at);
        ServeOne(rate, burst, held, key, at);
      }
    }
  }

  lemma ServeOne(rate: real, burst: int, buckets: Buckets, key: string, now: real)
    requires Configured(rate, burst)
    ensures Serve(rate, burst, buckets, [Attempt(key, now)]) == buckets[key := Turn(rate, burst, At(buckets, key), now).0]
  {
    var attempts := [Attempt(key, now)];
    assert attempts[..0] == [] && Serve(rate, burst, buckets, attempts[..0]) == buckets;
  }

  /** The shared bucket's hash; an expired or absent key has no fields. */
  class RedisRateLimiter {
    const rate: real          // per unit of the injected clock
    const burst: int
    var hashes: Buckets

    constructor (rate: real, burst: int)
      requires Configured(rate, burst)
      ensures this.rate == rate && this.burst == burst && hashes == map[]
    {
      this.rate, this.burst, hashes := rate, burst, map[];
    }

    method RunScript(key: string, now: real) returns (verdict: Verdict)
      requires Configured(rate, burst)
      modifies this`hashes
      ensures (hashes, verdict) == (old(hashes)[key := Script(rate, burst, At(old(hashes), key), now).0],
                                    Script(rate, burst, At(old(hashes), key), now).1)
    {
      var tokens, refill := burst as real, now;
      if key in hashes {
        tokens, refill := hashes[key].tokens, hashes[key].refilledAt;
      }
      hide RefilledForward;
      tokens := RefilledForward(rate, burst, Bucket(tokens, refill), now);
      verdict := Granted;
      if tokens >= 1.0 {
        tokens := tokens - 1.0;
      } else {
        verdict := Wait(Ceil((1.0 - tokens) / rate) as real);
      }
      hashes := hashes[key := Bucket(tokens, now)];
    }

    /** The server drops a key once its time to live has passed. */
    method Expire(key: string, now: real)
      requires Configured(rate, burst)
      modifies this`hashes
      ensures hashes == if MayExpire(rate, burst, At(old(hashes), key), now) then old(hashes) - {key} else old(hashes)
    {
      if key in hashes && now >= hashes[key].refilledAt + Ttl(rate, burst) as real {
        hashes := hashes - {key};
      }
    }

    /**
     * The acquire loop undisturbed: run the script, sleep what it says, run it again; the key may have been
     * dropped before each run. The second run is always granted, and dropping the key changes neither verdict.
     */
    method Acquire(key: string, now: real) returns (at: real, sleeps: nat)
      requires Configured(rate, burst) && BucketOk(At(hashes, key), burst, now)
      modifies this`hashes
      ensures at >= now && sleeps <= 1
      ensures Script(rate, burst, At(old(hashes), key), now).1 == (if sleeps == 0 then Granted else Wait(at - now))
      ensures key in hashes && hashes[key].refilledAt == at && BucketOk(At(hashes, key), burst, at)
      ensures hashes - {key} == old(hashes) - {key}
    {
      hide Script, MayExpire;
      at, sleeps := now, 0;
      ghost var before := At(hashes, key);
      var verdict := ExpireAndRun(key, at);
      ghost var first := verdict;
      while verdict.Wait?
        invariant at >= now && sleeps <= 1 && (sleeps == 1 ==> verdict.Granted?)
        invariant verdict.Wait? ==> at == now && verdict == first
        invariant first == if sleeps == 0 then verdict else Wait(at - now)
        invariant key in hashes && BucketOk(At(hashes, key), burst, at) && hashes[key].refilledAt == at
        invariant verdict.Wait? ==> hashes[key] == Script(rate, burst, before, now).0
        invariant hashes - {key} == old(hashes) - {key}
        decreases 1 - sleeps
      {
        ScriptWaitIsEnough(rate, burst, before, now);
        at, sleeps := at + verdict.time, sleeps + 1;
        verdict := ExpireAndRun(key, at);
      }
    }

    method ExpireAndRun(key: string, now: real) returns (verdict: Verdict)
      requires Configured(rate, burst) && BucketOk(At(hashes, key), burst, now)
      modifies this`hashes
      ensures verdict == Script(rate, burst, At(old(hashes), key), now).1
      ensures hashes == old(hashes)[key := Script(rate, burst, At(old(hashes), key), now).0]
      ensures BucketOk(At(hashes, key), burst, now) && hashes[key].refilledAt == now
    {
      ExpireThenRun(rate, burst, hashes, key, now);
      Expire(key, now);
      verdict := RunScript(key, now);
    }
  }

  /** Dropping a key past its time to live and running the script is running the script. */
  lemma ExpireThenRun(rate: real, burst: int, hashes: Buckets, key: string, now: real)
    requires Configured(rate, burst) && BucketOk(At(hashes, key), burst, now)
    ensures var left := if MayExpire(rate, burst, At(hashes, key), now) then hashes - {key} else hashes;
      var b := At(hashes, key);
      && Script(rate, burst, At(left, key), now) == Script(rate, burst, b, now)
      && left[key := Script(rate, burst, b, now).0] == hashes[key := Script(rate, burst, b, now).0]
    ensures var after := Script(rate, burst, At(hashes, key), now).0; BucketOk(Some(after), burst, now) && after.refilledAt == now
  {
    hide Script, MayExpire;
    var b := At(hashes, key);
    if MayExpire(rate, burst, b, now) { ExpiryIsLossless(rate, burst, b, now); }
    ScriptIsTurn(rate, burst, b, now);
    TurnBounds(rate, burst, b, now);
  }

  /** A waiter that sleeps the whole units it was told, undisturbed, is granted on its next run. */
  lemma ScriptWaitIsEnough(rate: real, burst: int, b: Option<Bucket>, now: real)
    requires Configured(rate, burst) && BucketOk(b, burst, now)
    ensures var (after, verdict) := Script(rate, burst, b, now);
      verdict.Wait? ==>
        verdict.time > 0.0 && BucketOk(Some(after), burst, now + verdict.time)
        && Script(rate, burst, Some(after), now + verdict.time).1.Granted?
  {
    hide Script, Turn;
    var (after, verdict) := Script(rate, burst, b, now);
    ScriptIsTurn(rate, burst, b, now);
    TurnBounds(rate, burst, b, now);
    if verdict.Wait? {
      WaitIsEnough(rate, burst, b, now, now);
      WaitIsEnough(rate, burst, b, now, now + verdict.time);
      ScriptIsTurn(rate, burst, Some(after), now + verdict.time);
    }
  }
}
