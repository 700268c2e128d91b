/** Token buckets: grants, waits, and expiry that loses nothing. */
module TokenBucket {
  import opened Prelude

  datatype Bucket = Bucket(tokens: real, refilledAt: real)

  datatype Verdict = Granted | Wait(time: real)

  function MinReal(a: real, b: real): real {
    if a < b then a else b
  }

  function MaxReal(a: real, b: real): real {
    if a < b then b else a
  }

  function Ceil(x: real): int {
    if x == x.Floor as real then x.Floor else x.Floor + 1
  }

  predicate Configured(rate: real, burst: int) {
    rate > 0.0 && burst >= 1
  }

  /** Refill to now, then take a token if there is one; a wait is how long until there would be. */
  function Take(rate: real, tokens: real, now: real): (Bucket, Verdict)
    requires rate > 0.0
  {
    if tokens >= 1.0 then (Bucket(tokens - 1.0, now), Granted)
    else (Bucket(tokens, now), Wait((1.0 - tokens) / rate))
  }

  function Refilled(rate: real, burst: int, b: Bucket, now: real): real {
    MinReal(burst as real, b.tokens + (now - b.refilledAt) * rate)
  }

  /** The script's refill: a clock reading before the last one counts as no time at all. */
  function RefilledForward(rate: real, burst: int, b: Bucket, now: real): real {
    MinReal(burst as real, b.tokens + MaxReal(now - b.refilledAt, 0.0) * rate)
  }

  /** The in-memory limiter's turn; a key never seen reads as a full bucket. */
  function Turn(rate: real, burst: int, b: Option<Bucket>, now: real): (Bucket, Verdict)
    requires Configured(rate, burst)
  {
    var bucket := if b.None? then Bucket(burst as real, now) else b.value;
    Take(rate, Refilled(rate, burst, bucket, now), now)
  }

  /** The Redis script: elapsed time is clamped at zero, and the wait is whole units of the clock. */
  function Script(rate: real, burst: int, b: Option<Bucket>, now: real): (Bucket, Verdict)
    requires Configured(rate, burst)
  {
    var bucket := if b.None? then Bucket(burst as real, now) else b.value;
    var (after, verdict) := Take(rate, RefilledForward(rate, burst, bucket, now), now);
    (after, if verdict.Wait? then Wait(Ceil(verdict.time) as real) else verdict)
  }

  // ----- runs: any number of waiters taking turns on any number of keys -----

  datatype Attempt = Attempt(key: string, now: real)

  type Buckets = map<string, Bucket>

  function Serve(rate: real, burst: int, buckets: Buckets, attempts: seq<Attempt>): Buckets
    requires Configured(rate, burst)
  {
    if attempts == [] then buckets
    else
      var before, last := Serve(rate, burst, buckets, attempts[..|attempts| - 1]), attempts[|attempts| - 1];
      before[last.key := Turn(rate, burst, At(before, last.key), last.now).0]
  }

  function Verdicts(rate: real, burst: int, buckets: Buckets, attempts: seq<Attempt>): seq<Verdict>
    requires Configured(rate, burst)
  {
    if attempts == [] then []
    else
      var init, last := attempts[..|attempts| - 1], attempts[|attempts| - 1];
      Verdicts(rate, burst, buckets, init) + [Turn(rate, burst, At(Serve(rate, burst, buckets, init), last.key), last.now).1]
  }

  /** How many of the attempts from the `from`-th on were granted to this key. */
  function Grants(rate: real, burst: int, buckets: Buckets, attempts: seq<Attempt>, key: string, from: nat): nat
    requires Configured(rate, burst)
    decreases |attempts|
  {
    if |attempts| <= from then 0
    else
      var init, last := attempts[..|attempts| - 1], attempts[|attempts| - 1];
      Grants(rate, burst, buckets, init, key, from)
      + if last.key == key && Turn(rate, burst, At(Serve(rate, burst, buckets, init), key), last.now).1.Granted? then 1 else 0
  }

  predicate Nondecreasing(attempts: seq<Attempt>) {
    forall i, j :: 0 <= i < j < |attempts| ==> attempts[i].now <= attempts[j].now
  }

  /** A bucket holds between nothing and its burst, and was refilled no later than now. */
  predicate BucketOk(b: Option<Bucket>, burst: int, now: real) {
    b.Some? ==> 0.0 <= b.value.tokens <= burst as real && b.value.refilledAt <= now
  }

  lemma ZeroTimes(zero: real, rate: real)
    requires zero == 0.0
    ensures zero * rate == 0.0
  {
  }

  lemma MulNonneg(a: real, b: real)
    requires a >= 0.0 && b >= 0.0
    ensures a * b >= 0.0
  {
  }

  /** One turn: the bucket stays within bounds, and what it holds grows by no more than the refill. */
  lemma TurnBounds(rate: real, burst: int, b: Option<Bucket>, now: real)
    requires Configured(rate, burst) && BucketOk(b, burst, now)
    ensures var (after, verdict) := Turn(rate, burst, b, now);
      && BucketOk(Some(after), burst, now) && after.refilledAt == now
      && after.tokens + (if verdict.Granted? then 1.0 else 0.0) <= burst as real
      && (b.Some? ==> after.tokens + (if verdict.Granted? then 1.0 else 0.0) <= b.value.tokens + (now - b.value.refilledAt) * rate)
  {
    if b.Some? { MulNonneg(now - b.value.refilledAt, rate); }
  }

  lemma Telescope(a: real, b: real, c: real, rate: real)
    ensures (a - b) * rate + (b - c) * rate == (a - c) * rate
  {
  }

  /** Every bucket in play is within bounds at the time of the last attempt. */
  lemma {:induction false} ServeOk(rate: real, burst: int, attempts: seq<Attempt>, key: string, now: real)
    requires Configured(rate, burst) && Nondecreasing(attempts)
    requires attempts != [] ==> attempts[|attempts| - 1].now <= now
    ensures BucketOk(At(Serve(rate, burst, map[], attempts), key), burst, now)
  {
    if attempts != [] {
      var init, last := attempts[..|attempts| - 1], attempts[|attempts| - 1];
      ServeOk(rate, burst, init, key, last.now);
      TurnBounds(rate, burst, At(Serve(rate, burst, map[], init), key), last.now);
    }
  }

  /**
   * The window invariant: what a key was granted since the window opened, plus what its bucket holds, is at
   * most the burst plus the refill since.
   */
  predicate InWindow(rate: real, burst: int, b: Option<Bucket>, start: real, granted: nat) {
    if b.Some? && b.value.refilledAt >= start then
      granted as real + b.value.tokens <= burst as real + (b.value.refilledAt - start) * rate
    else granted == 0
  }

  lemma WindowStep(rate: real, burst: int, b: Option<Bucket>, start: real, now: real, granted: nat)
    requires Configured(rate, burst) && BucketOk(b, burst, now) && start <= now && InWindow(rate, burst, b, start, granted)
    ensures var (after, verdict) := Turn(rate, burst, b, now);
      InWindow(rate, burst, Some(after), start, granted + if verdict.Granted? then 1 else 0)
  {
    TurnBounds(rate, burst, b, now);
    hide Turn;
    MulNonneg(now - start, rate);
    if b.Some? { Telescope(now, b.value.refilledAt, start, rate); }
  }

  lemma WindowEnd(rate: real, burst: int, b: Option<Bucket>, start: real, now: real, granted: nat)
    requires Configured(rate, burst) && BucketOk(b, burst, now) && start <= now && InWindow(rate, burst, b, start, granted)
    ensures granted as real <= burst as real + (now - start) * rate
  {
    if b.Some? && b.value.refilledAt >= start {
      var since, idle, whole := (b.value.refilledAt - start) * rate, (now - b.value.refilledAt) * rate, (now - start) * rate;
      assert idle + since == whole by { Telescope(now, b.value.refilledAt, start, rate); }
      assert idle >= 0.0 by { MulNonneg(now - b.value.refilledAt, rate); }
      assert granted as real + b.value.tokens <= burst as real + since;
    } else {
      MulNonneg(now - start, rate);
    }
  }

  lemma {:induction false} WindowKept(rate: real, burst: int, attempts: seq<Attempt>, key: string, from: nat)
    requires Configured(rate, burst) && Nondecreasing(attempts) && from < |attempts|
    ensures InWindow(rate, burst, At(Serve(rate, burst, map[], attempts), key), attempts[from].now,
                     Grants(rate, burst, map[], attempts, key, from))
    decreases |attempts|
  {
    hide Turn, InWindow;
    var init, last, start := attempts[..|attempts| - 1], attempts[|attempts| - 1], attempts[from].now;
    var before := At(Serve(rate, burst, map[], init), key);
    ServeOk(rate, burst, init, key, last.now);
    if from < |init| {
      WindowKept(rate, burst, init, key, from);
    } else {
      assert Grants(rate, burst, map[], init, key, from) == 0;
      assert BucketOk(before, burst, start);
      WindowOpens(rate, burst, before, start);
    }
    if last.key == key { WindowStep(rate, burst, before, start, last.now, Grants(rate, burst, map[], init, key, from)); }
  }

  lemma WindowOpens(rate: real, burst: int, b: Option<Bucket>, start: real)
    requires BucketOk(b, burst, start)
    ensures InWindow(rate, burst, b, start, 0)
  {
    if b.Some? && b.value.refilledAt >= start {
      var refill := (b.value.refilledAt - start) * rate;
      assert refill == 0.0 by { ZeroTimes(b.value.refilledAt - start, rate); }
      assert b.value.tokens <= burst as real + refill;
    }
  }

  /**
   * The rate holds over every window: with a clock that does not go back, whatever the interleaving of waiters,
   * a key is granted at most burst + rate * d in any window of length d.
   */
  lemma WindowBound(rate: real, burst: int, attempts: seq<Attempt>, key: string, from: nat)
    requires Configured(rate, burst) && Nondecreasing(attempts) && from < |attempts|
    ensures Grants(rate, burst, map[], attempts, key, from) as real
         <= burst as real + (attempts[|attempts| - 1].now - attempts[from].now) * rate
  {
    hide Serve, Grants, InWindow;
    var last := attempts[|attempts| - 1].now;
    WindowKept(rate, burst, attempts, key, from);
    ServeOk(rate, burst, attempts, key, last);
    WindowEnd(rate, burst, At(Serve(rate, burst, map[], attempts), key), attempts[from].now, last,
              Grants(rate, burst, map[], attempts, key, from));
  }

  // ----- waiting -----

  /** A waiter that sleeps what it was told, undisturbed, is granted on its next turn; not a moment sooner would do. */
  lemma WaitIsEnough(rate: real, burst: int, b: Option<Bucket>, now: real, wake: real)
    requires Configured(rate, burst) && BucketOk(b, burst, now) && wake >= now
    ensures var (after, verdict) := Turn(rate, burst, b, now);
      verdict.Wait? ==>
        verdict.time > 0.0 && (Turn(rate, burst, Some(after), wake).1.Granted? <==> wake >= now + verdict.time)
  {
    var (after, verdict) := Turn(rate, burst, b, now);
    if verdict.Wait? {
      var missing, slept := 1.0 - after.tokens, wake - now;
      assert verdict.time == missing / rate;
      DivPositive(missing, rate);
      DivMul(missing, rate, slept);
    }
  }

  lemma DivPositive(a: real, b: real)
    requires a > 0.0 && b > 0.0
    ensures a / b > 0.0
  {
    assert (a / b) * b == a;
  }

  lemma DivMul(a: real, b: real, c: real)
    requires b > 0.0
    ensures c >= a / b <==> c * b >= a
  {
    var q := a / b;
    assert q * b == a;
    if c >= q { MulNonneg(c - q, b); } else { MulPositive(q - c, b); }
    assert (c - q) * b == c * b - q * b;
    assert (q - c) * b == q * b - c * b;
  }

  lemma MulPositive(a: real, b: real)
    requires a > 0.0 && b > 0.0
    ensures a * b > 0.0
  {
  }

  // ----- the shared bucket in Redis -----

  /** With a clock that does not go back, the script leaves the same bucket and grants the same attempts. */
  lemma ScriptIsTurn(rate: real, burst: int, b: Option<Bucket>, now: real)
    requires Configured(rate, burst) && BucketOk(b, burst, now)
    ensures var (after, verdict), turn := Script(rate, burst, b, now), Turn(rate, burst, b, now);
      && after == turn.0 && (verdict.Granted? <==> turn.1.Granted?)
      && (verdict.Wait? ==> turn.1.time <= verdict.time < turn.1.time + 1.0)
  {
    var bucket := if b.None? then Bucket(burst as real, now) else b.value;
    assert MaxReal(now - bucket.refilledAt, 0.0) == now - bucket.refilledAt;
    assert RefilledForward(rate, burst, bucket, now) == Refilled(rate, burst, bucket, now);
    hide RefilledForward, Refilled, Ceil;
    var (_, verdict) := Turn(rate, burst, b, now);
    if verdict.Wait? { CeilBounds(verdict.time); }
  }

  lemma CeilBounds(x: real)
    ensures x <= Ceil(x) as real < x + 1.0
  {
  }

  /** How long the key is kept after each script run. */
  function Ttl(rate: real, burst: int): int
    requires Configured(rate, burst)
  {
    Ceil(burst as real / rate)
  }

  /** One turn at a key that may have expired since: it may once the time to live has passed. */
  datatype Turned = Turned(key: string, now: real, expired: bool)

  predicate MayExpire(rate: real, burst: int, b: Option<Bucket>, now: real)
    requires Configured(rate, burst)
  {
    b.Some? ==> now >= b.value.refilledAt + Ttl(rate, burst) as real
  }

  /** Past its time to live a bucket refills to the brim, as a new one would be. */
  lemma RefillsFull(rate: real, burst: int, b: Bucket, now: real)
    requires Configured(rate, burst) && BucketOk(Some(b), burst, now) && MayExpire(rate, burst, Some(b), now)
    ensures RefilledForward(rate, burst, b, now) == burst as real
  {
    var elapsed := now - b.refilledAt;
    assert elapsed >= Ttl(rate, burst) as real >= burst as real / rate;
    assert elapsed * rate >= burst as real by { DivMul(burst as real, rate, elapsed); }
    assert MaxReal(elapsed, 0.0) == elapsed;
  }

  lemma NewIsFull(rate: real, burst: int, now: real)
    ensures RefilledForward(rate, burst, Bucket(burst as real, now), now) == burst as real
  {
    ZeroTimes(MaxReal(now - now, 0.0), rate);
  }

  /** Forgetting a key past its time to live changes nothing the script does. */
  lemma ExpiryIsLossless(rate: real, burst: int, b: Option<Bucket>, now: real)
    requires Configured(rate, burst) && BucketOk(b, burst, now) && MayExpire(rate, burst, b, now)
    ensures Script(rate, burst, None, now) == Script(rate, burst, b, now)
  {
    hide RefilledForward, Take;
    NewIsFull(rate, burst, now);
    if b.Some? { RefillsFull(rate, burst, b.value, now); }
  }

  function ServeShared(rate: real, burst: int, turns: seq<Turned>, forget: bool): Buckets
    requires Configured(rate, burst)
  {
    if turns == [] then map[]
    else
      var before, last := ServeShared(rate, burst, turns[..|turns| - 1], forget), turns[|turns| - 1];
      var b := if forget && last.expired then None else At(before, last.key);
      before[last.key := Script(rate, burst, b, last.now).0]
  }

  function SharedVerdicts(rate: real, burst: int, turns: seq<Turned>, forget: bool): seq<Verdict>
    requires Configured(rate, burst)
  {
    if turns == [] then []
    else
      var init, last := turns[..|turns| - 1], turns[|turns| - 1];
      var b := if forget && last.expired then None else At(ServeShared(rate, burst, init, forget), last.key);
      SharedVerdicts(rate, burst, init, forget) + [Script(rate, burst, b, last.now).1]
  }

  /** The turns as attempts on the in-memory limiter. */
  function AttemptsOf(turns: seq<Turned>): seq<Attempt> {
    seq(|turns|, i requires 0 <= i < |turns| => Attempt(turns[i].key, turns[i].now))
  }

  /** Keys expire only past their time to live. */
  predicate ExpiresLate(rate: real, burst: int, turns: seq<Turned>)
    requires Configured(rate, burst)
  {
    forall i :: 0 <= i < |turns| && turns[i].expired ==>
      MayExpire(rate, burst, At(ServeShared(rate, burst, turns[..i], true), turns[i].key), turns[i].now)
  }

  predicate OnTime(turns: seq<Turned>) {
    forall i, j :: 0 <= i < j < |turns| ==> turns[i].now <= turns[j].now
  }

  lemma ExpiresLateInit(rate: real, burst: int, turns: seq<Turned>)
    requires Configured(rate, burst) && turns != [] && ExpiresLate(rate, burst, turns)
    ensures ExpiresLate(rate, burst, turns[..|turns| - 1])
  {
    hide MayExpire, ServeShared;
    var init := turns[..|turns| - 1];
    forall i | 0 <= i < |init| && init[i].expired
      ensures MayExpire(rate, burst, At(ServeShared(rate, burst, init[..i], true), init[i].key), init[i].now)
    {
      assert init[..i] == turns[..i] && init[i] == turns[i];
    }
  }

  /** One more turn: with or without forgetting, the script sees what the in-memory limiter sees. */
  lemma SharedStep(rate: real, burst: int, attempts: seq<Attempt>, last: Turned)
    requires Configured(rate, burst) && Nondecreasing(attempts + [Attempt(last.key, last.now)])
    requires last.expired ==> MayExpire(rate, burst, At(Serve(rate, burst, map[], attempts), last.key), last.now)
    ensures var b := At(Serve(rate, burst, map[], attempts), last.key);
      && Script(rate, burst, if last.expired then None else b, last.now) == Script(rate, burst, b, last.now)
      && Script(rate, burst, b, last.now).0 == Turn(rate, burst, b, last.now).0
      && (Script(rate, burst, b, last.now).1.Granted? <==> Turn(rate, burst, b, last.now).1.Granted?)
  {
    hide Script, Turn, MayExpire;
    var all := attempts + [Attempt(last.key, last.now)];
    var b := At(Serve(rate, burst, map[], attempts), last.key);
    assert Nondecreasing(attempts) by {
      forall i, j | 0 <= i < j < |attempts| ensures attempts[i].now <= attempts[j].now { assert all[i].now <= all[j].now; }
    }
    if attempts != [] { assert all[|attempts| - 1].now <= all[|attempts|].now; }
    ServeOk(rate, burst, attempts, last.key, last.now);
    ScriptIsTurn(rate, burst, b, last.now);
    if last.expired { ExpiryIsLossless(rate, burst, b, last.now); }
  }

  lemma {:induction false} SharedBuckets(rate: real, burst: int, turns: seq<Turned>)
    requires Configured(rate, burst) && OnTime(turns) && ExpiresLate(rate, burst, turns)
    ensures ServeShared(rate, burst, turns, true) == ServeShared(rate, burst, turns, false) == Serve(rate, burst, map[], AttemptsOf(turns))
    ensures turns != [] ==> var last := turns[|turns| - 1];
      last.expired ==>
        MayExpire(rate, burst, At(Serve(rate, burst, map[], AttemptsOf(turns[..|turns| - 1])), last.key), last.now)
  {
    if turns != [] {
      hide Script, Turn, MayExpire;
      var init, last := turns[..|turns| - 1], turns[|turns| - 1];
      ExpiresLateInit(rate, burst, turns);
      SharedBuckets(rate, burst, init);
      AttemptsNext(turns);
      SharedStep(rate, burst, AttemptsOf(init), last);
    }
  }

  lemma AttemptsNext(turns: seq<Turned>)
    requires turns != [] && OnTime(turns)
    ensures var init, last := turns[..|turns| - 1], turns[|turns| - 1];
      && AttemptsOf(turns) == AttemptsOf(init) + [Attempt(last.key, last.now)]
      && AttemptsOf(turns)[..|turns| - 1] == AttemptsOf(init)
      && Nondecreasing(AttemptsOf(turns)) && OnTime(init)
  {
  }

  /**
   * Lossless expiry, over whole runs: however keys expire past their time to live, every grant and every wait is
   * the one given with no expiry at all, and the grants are those of the in-memory limiter, so the window
   * bound holds of the shared bucket too.
   */
  lemma {:induction false} SharedBucketAgrees(rate: real, burst: int, turns: seq<Turned>)
    requires Configured(rate, burst) && OnTime(turns) && ExpiresLate(rate, burst, turns)
    ensures SharedVerdicts(rate, burst, turns, true) == SharedVerdicts(rate, burst, turns, false)
    ensures SameGrants(SharedVerdicts(rate, burst, turns, true), Verdicts(rate, burst, map[], AttemptsOf(turns)))
  {
    if turns != [] {
      hide Script, Turn, MayExpire, Serve, ServeShared;
      var init, last := turns[..|turns| - 1], turns[|turns| - 1];
      ExpiresLateInit(rate, burst, turns);
      AttemptsNext(turns);
      SharedBucketAgrees(rate, burst, init);
      SharedBuckets(rate, burst, init);
      SharedBuckets(rate, burst, turns);
      SharedStep(rate, burst, AttemptsOf(init), last);
    }
  }

  predicate SameGrants(a: seq<Verdict>, b: seq<Verdict>) {
    |a| == |b| && forall i :: 0 <= i < |a| ==> (a[i].Granted? <==> b[i].Granted?)
  }
}
