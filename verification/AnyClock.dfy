/** What the two limiters grant on a clock that may go back. */
module AnyClock {
  import opened Prelude
  import opened TokenBucket

  lemma MulOrder(a: real, b: real, rate: real)
    requires a <= b && rate >= 0.0
    ensures a * rate <= b * rate
  {
    MulNonneg(b - a, rate);
  }

  // ----- the in-memory limiter: any clock will do -----

  /** Between the window's first turn and the key's last one, grants and tokens are paid by the net time gone by. */
  predicate NetPaid(rate: real, burst: int, b: Option<Bucket>, start: real, granted: nat) {
    b.Some? && granted as real + b.value.tokens <= burst as real + (b.value.refilledAt - start) * rate
  }

  lemma NetStep(rate: real, burst: int, b: Option<Bucket>, start: real, now: real, granted: nat)
    requires Configured(rate, burst) && NetPaid(rate, burst, b, start, granted)
    ensures var (after, verdict) := Turn(rate, burst, b, now);
      var more := granted + if verdict.Granted? then 1 else 0;
      && NetPaid(rate, burst, Some(after), start, more)
      && (verdict.Granted? ==> more as real <= burst as real + (now - start) * rate)
  {
    Telescope(now, b.value.refilledAt, start, rate);
  }

  lemma NetWithin(rate: real, burst: int, b: Option<Bucket>, start: real, now: real, granted: nat, d: real)
    requires Configured(rate, burst) && NetPaid(rate, burst, b, start, granted)
    requires granted as real <= burst as real + d * rate && now <= start + d
    ensures var (after, verdict) := Turn(rate, burst, b, now);
      var more := granted + if verdict.Granted? then 1 else 0;
      NetPaid(rate, burst, Some(after), start, more) && more as real <= burst as real + d * rate
  {
    NetStep(rate, burst, b, start, now, granted);
    MulOrder(now - start, d, rate);
    hide Turn, NetPaid;
  }

  lemma NetOpens(rate: real, burst: int, b: Option<Bucket>, start: real)
    requires Configured(rate, burst)
    ensures var (after, verdict) := Turn(rate, burst, b, start);
      var granted := if verdict.Granted? then 1 else 0;
      NetPaid(rate, burst, Some(after), start, granted) && granted as real <= burst as real
  {
    ZeroTimes(start - start, rate);
  }

  /** No turn of the key from the `from`-th on reads the clock later than `d` after that one. */
  predicate Within(attempts: seq<Attempt>, key: string, from: nat, d: real) {
    from < |attempts| && attempts[from].key == key
    && forall i :: from <= i < |attempts| && attempts[i].key == key ==> attempts[i].now <= attempts[from].now + d
  }

  /**
   * The in-memory rate holds on every clock, one that goes back included: from a turn that reads `a`, with no
   * later turn of the key reading more than `a + d`, the key is granted at most burst + rate * d.
   */
  lemma {:induction false} MemoryKeepsRate(rate: real, burst: int, attempts: seq<Attempt>, key: string, from: nat, d: real)
    requires Configured(rate, burst) && d >= 0.0 && Within(attempts, key, from, d)
    ensures Grants(rate, burst, map[], attempts, key, from) as real <= burst as real + d * rate
    ensures NetPaid(rate, burst, At(Serve(rate, burst, map[], attempts), key), attempts[from].now,
                    Grants(rate, burst, map[], attempts, key, from))
    decreases |attempts|
  {
    hide Turn, NetPaid;
    var init, last, start := attempts[..|attempts| - 1], attempts[|attempts| - 1], attempts[from].now;
    var before := At(Serve(rate, burst, map[], init), key);
    MulNonneg(d, rate);
    if from == |init| {
      assert Grants(rate, burst, map[], init, key, from) == 0;
      NetOpens(rate, burst, before, start);
    } else {
      assert Within(init, key, from, d);
      MemoryKeepsRate(rate, burst, init, key, from, d);
      if last.key == key { NetWithin(rate, burst, before, start, last.now, Grants(rate, burst, map[], init, key, from), d); }
    }
  }

  // ----- the script: what it grants on any clock -----

  /** A bucket holds between nothing and its burst. */
  predicate Filled(b: Option<Bucket>, burst: int) {
    b.Some? ==> 0.0 <= b.value.tokens <= burst as real
  }

  /** Before its last turn a key holds this much: a bucket never seen, or expired, is full. */
  function Refill(rate: real, burst: int, b: Option<Bucket>, now: real): real {
    if b.None? then burst as real else RefilledForward(rate, burst, b.value, now)
  }

  /** One turn of the script: take a token from the refilled bucket if there is one. */
  lemma ScriptTakes(rate: real, burst: int, b: Option<Bucket>, now: real)
    requires Configured(rate, burst) && Filled(b, burst)
    ensures var tokens, (after, verdict) := Refill(rate, burst, b, now), Script(rate, burst, b, now);
      && (verdict.Granted? <==> tokens >= 1.0)
      && after == Bucket(tokens - (if verdict.Granted? then 1.0 else 0.0), now)
      && Filled(Some(after), burst) && tokens <= burst as real
      && (b.Some? ==> b.value.tokens <= tokens <= b.value.tokens + MaxReal(now - b.value.refilledAt, 0.0) * rate)
  {
    if b.None? { NewIsFull(rate, burst, now); } else { MulNonneg(MaxReal(now - b.value.refilledAt, 0.0), rate); }
  }

  lemma {:induction false} SharedFilled(rate: real, burst: int, turns: seq<Turned>, forget: bool, key: string)
    requires Configured(rate, burst)
    ensures Filled(At(ServeShared(rate, burst, turns, forget), key), burst)
  {
    if turns != [] {
      hide Script, Filled;
      var init, last := turns[..|turns| - 1], turns[|turns| - 1];
      SharedFilled(rate, burst, init, forget, key);
      assert Filled(None, burst) by { NoneFilled(burst); }
      ScriptTakes(rate, burst, if forget && last.expired then None else At(ServeShared(rate, burst, init, forget), key), last.now);
    }
  }

  lemma NoneFilled(burst: int)
    ensures Filled(None, burst)
  {
  }

  /** Lossless expiry needs no clock that only goes forward: on any clock no verdict changes. */
  lemma {:induction false} ExpiryIsLosslessAnyClock(rate: real, burst: int, turns: seq<Turned>)
    requires Configured(rate, burst) && ExpiresLate(rate, burst, turns)
    ensures ServeShared(rate, burst, turns, true) == ServeShared(rate, burst, turns, false)
    ensures SharedVerdicts(rate, burst, turns, true) == SharedVerdicts(rate, burst, turns, false)
  {
    if turns != [] {
      hide Script, Filled;
      var init, last := turns[..|turns| - 1], turns[|turns| - 1];
      ExpiresLateInit(rate, burst, turns);
      ExpiryIsLosslessAnyClock(rate, burst, init);
      if last.expired {
        var b := At(ServeShared(rate, burst, init, true), last.key);
        SharedFilled(rate, burst, init, true, last.key);
        assert MayExpire(rate, burst, b, last.now);
        LateBucketOk(rate, burst, b, last.now);
        ExpiryIsLossless(rate, burst, b, last.now);
      }
    }
  }

  lemma LateBucketOk(rate: real, burst: int, b: Option<Bucket>, now: real)
    requires Configured(rate, burst) && Filled(b, burst) && MayExpire(rate, burst, b, now)
    ensures BucketOk(b, burst, now)
  {
    DivPositive(burst as real, rate);
  }

  /** How many of the turns from the `from`-th on were granted to this key. */
  function GrantedTo(turns: seq<Turned>, verdicts: seq<Verdict>, key: string, from: nat): nat
    requires |turns| == |verdicts|
  {
    if |turns| <= from then 0
    else
      var n := |turns| - 1;
      GrantedTo(turns[..n], verdicts[..n], key, from) + if turns[n].key == key && verdicts[n].Granted? then 1 else 0
  }

  lemma {:induction false} AsManyVerdicts(rate: real, burst: int, turns: seq<Turned>, forget: bool)
    requires Configured(rate, burst)
    ensures |SharedVerdicts(rate, burst, turns, forget)| == |turns|
  {
    if turns != [] { AsManyVerdicts(rate, burst, turns[..|turns| - 1], forget); }
  }

  function SharedGrants(rate: real, burst: int, turns: seq<Turned>, key: string, from: nat): nat
    requires Configured(rate, burst)
  {
    AsManyVerdicts(rate, burst, turns, true);
    GrantedTo(turns, SharedVerdicts(rate, burst, turns, true), key, from)
  }

  /** The reading of the key's last turn, from the `from`-th on. */
  function LastReading(turns: seq<Turned>, key: string, from: nat): Option<real> {
    if |turns| <= from then None
    else if turns[|turns| - 1].key == key then Some(turns[|turns| - 1].now)
    else LastReading(turns[..|turns| - 1], key, from)
  }

  /** How far the clock went forward between consecutive turns of the key, going back left out. */
  function Forward(turns: seq<Turned>, key: string, from: nat): real {
    if |turns| <= from then 0.0
    else
      var init, last := turns[..|turns| - 1], turns[|turns| - 1];
      var before := LastReading(init, key, from);
      Forward(init, key, from) + if last.key == key && before.Some? then MaxReal(last.now - before.value, 0.0) else 0.0
  }

  /** One more turn: what it does to the key's bucket and to the grants counted. */
  lemma TurnCounts(rate: real, burst: int, init: seq<Turned>, last: Turned, key: string, from: nat)
    requires Configured(rate, burst) && from <= |init|
    ensures var before := At(ServeShared(rate, burst, init, true), last.key);
      var (after, verdict) := Script(rate, burst, if last.expired then None else before, last.now);
      && At(ServeShared(rate, burst, init + [last], true), last.key) == Some(after)
      && (key != last.key ==> At(ServeShared(rate, burst, init + [last], true), key) == At(ServeShared(rate, burst, init, true), key))
      && SharedGrants(rate, burst, init + [last], key, from) == SharedGrants(rate, burst, init, key, from)
           + if last.key == key && verdict.Granted? then 1 else 0
  {
    hide Script;
    assert (init + [last])[..|init|] == init;
    AsManyVerdicts(rate, burst, init, true);
    AsManyVerdicts(rate, burst, init + [last], true);
    assert SharedVerdicts(rate, burst, init + [last], true)[..|init|] == SharedVerdicts(rate, burst, init, true);
  }

  /** What a key was granted from its `from`-th turn on, and what it holds, is at most the burst and the forward refill. */
  predicate ForwardPaid(rate: real, burst: int, b: Option<Bucket>, reading: Option<real>, forward: real, granted: nat) {
    if reading.None? then granted == 0 && forward == 0.0
    else b.Some? && b.value.refilledAt == reading.value && granted as real + b.value.tokens <= burst as real + forward * rate
  }

  lemma ForwardStep(rate: real, burst: int, b: Option<Bucket>, reading: Option<real>, forward: real, granted: nat, now: real)
    requires Configured(rate, burst) && Filled(b, burst) && ForwardPaid(rate, burst, b, reading, forward, granted)
    ensures var (after, verdict) := Script(rate, burst, b, now);
      ForwardPaid(rate, burst, Some(after), Some(now),
                  forward + (if reading.Some? then MaxReal(now - reading.value, 0.0) else 0.0),
                  granted + if verdict.Granted? then 1 else 0)
  {
    ScriptTakes(rate, burst, b, now);
    hide Script;
    if reading.Some? {
      var move := MaxReal(now - reading.value, 0.0);
      assert forward * rate + move * rate == (forward + move) * rate;
    }
  }

  lemma {:induction false} ForwardKept(rate: real, burst: int, turns: seq<Turned>, key: string, from: nat)
    requires Configured(rate, burst) && ExpiresLate(rate, burst, turns)
    ensures ForwardPaid(rate, burst, At(ServeShared(rate, burst, turns, true), key), LastReading(turns, key, from),
                        Forward(turns, key, from), SharedGrants(rate, burst, turns, key, from))
    decreases |turns|
  {
    if |turns| <= from {
      assert SharedGrants(rate, burst, turns, key, from) == 0;
    } else {
      hide Script, ForwardPaid, Filled, SharedGrants, ServeShared, SharedVerdicts;
      var init, last := turns[..|turns| - 1], turns[|turns| - 1];
      ExpiresLateInit(rate, burst, turns);
      ForwardKept(rate, burst, init, key, from);
      TurnCounts(rate, burst, init, last, key, from);
      assert init + [last] == turns;
      if last.key == key {
        SharedFilled(rate, burst, init, true, key);
        ForgottenAlike(rate, burst, turns);
        ForwardStep(rate, burst, At(ServeShared(rate, burst, init, true), key), LastReading(init, key, from),
                    Forward(init, key, from), SharedGrants(rate, burst, init, key, from), last.now);
      }
    }
  }

  /** A turn at an expired key goes as it would have with the bucket still there. */
  lemma ForgottenAlike(rate: real, burst: int, turns: seq<Turned>)
    requires Configured(rate, burst) && ExpiresLate(rate, burst, turns) && turns != []
    ensures var init, last := turns[..|turns| - 1], turns[|turns| - 1];
      var b := At(ServeShared(rate, burst, init, true), last.key);
      Script(rate, burst, if last.expired then None else b, last.now) == Script(rate, burst, b, last.now)
  {
    hide Script, Filled;
    var init, last := turns[..|turns| - 1], turns[|turns| - 1];
    if last.expired {
      var b := At(ServeShared(rate, burst, init, true), last.key);
      SharedFilled(rate, burst, init, true, last.key);
      LateBucketOk(rate, burst, b, last.now);
      ExpiryIsLossless(rate, burst, b, last.now);
    }
  }

  /**
   * The script's bound on any clock, whatever keys expire late: from its `from`-th turn on a key is granted at most
   * burst + rate * (how far the clock went forward between its consecutive turns).
   */
  lemma ForwardBound(rate: real, burst: int, turns: seq<Turned>, key: string, from: nat)
    requires Configured(rate, burst) && ExpiresLate(rate, burst, turns)
    ensures SharedGrants(rate, burst, turns, key, from) as real <= burst as real + Forward(turns, key, from) * rate
  {
    ForwardKept(rate, burst, turns, key, from);
    SharedFilled(rate, burst, turns, true, key);
    hide SharedGrants, Forward;
    if LastReading(turns, key, from).None? { ZeroTimes(Forward(turns, key, from), rate); }
  }

  // ----- exactly which readings keep the advertised rate -----

  /** Each reading presented as often as its caller retries or others come at the same moment. */
  function Presented(key: string, readings: seq<real>, counts: seq<nat>): seq<Turned>
    requires |readings| == |counts|
  {
    if readings == [] then []
    else
      var n := |readings| - 1;
      Presented(key, readings[..n], counts[..n]) + Repeated(key, readings[n], counts[n])
  }

  function Repeated(key: string, now: real, n: nat): seq<Turned> {
    if n == 0 then [] else Repeated(key, now, n - 1) + [Turned(key, now, false)]
  }

  /** The advertised rate: from a turn reading `a`, while none reads more than `a + d`, at most burst + rate * d grants. */
  ghost predicate KeepsRate(rate: real, burst: int, turns: seq<Turned>, key: string)
    requires Configured(rate, burst)
  {
    forall from, to, d :: 0 <= from < to <= |turns| && d >= 0.0 && NoLater(turns, from, to, d) ==>
      SharedGrants(rate, burst, turns[..to], key, from) as real <= burst as real + d * rate
  }

  predicate NoLater(turns: seq<Turned>, from: nat, to: nat, d: real)
    requires from < to <= |turns|
  {
    forall i :: from <= i < to ==> turns[i].now <= turns[from].now + d
  }

  /** The clock never goes forward again after going back. */
  predicate NeverForwardAgain(readings: seq<real>) {
    forall i, j, k :: 0 <= i < j < k < |readings| ==> readings[j] >= readings[i] || readings[j] >= readings[k]
  }

  lemma {:induction false} RepeatedIs(key: string, now: real, n: nat)
    ensures |Repeated(key, now, n)| == n && forall i :: 0 <= i < n ==> Repeated(key, now, n)[i] == Turned(key, now, false)
  {
    if n > 0 { RepeatedIs(key, now, n - 1); }
  }

  /** Every turn presents one of the readings, in their order. */
  lemma {:induction false} PresentedAt(key: string, readings: seq<real>, counts: seq<nat>) returns (at: seq<nat>)
    requires |readings| == |counts|
    ensures var turns := Presented(key, readings, counts);
      && |at| == |turns|
      && (forall i :: 0 <= i < |at| ==> at[i] < |readings| && turns[i] == Turned(key, readings[at[i]], false))
      && (forall i, j :: 0 <= i < j < |at| ==> at[i] <= at[j])
  {
    if readings == [] {
      at := [];
    } else {
      var n := |readings| - 1;
      at := PresentedAt(key, readings[..n], counts[..n]);
      RepeatedIs(key, readings[n], counts[n]);
      at := at + seq(counts[n], _ => n);
    }
  }

  predicate OneKey(turns: seq<Turned>, key: string) {
    forall i :: 0 <= i < |turns| ==> turns[i].key == key && !turns[i].expired
  }

  function Readings(turns: seq<Turned>): seq<real> {
    seq(|turns|, i requires 0 <= i < |turns| => turns[i].now)
  }

  /** Readings that never go forward again go forward, in all, no further than the furthest is from the first. */
  lemma {:induction false} ForwardWithin(turns: seq<Turned>, key: string, from: nat, d: real)
    requires from < |turns| && OneKey(turns, key) && NeverForwardAgain(Readings(turns))
    requires d >= 0.0 && NoLater(turns, from, |turns|, d)
    ensures Forward(turns, key, from) <= d
    decreases |turns|
  {
    if |turns| == from + 1 {
      assert Forward(turns[..from], key, from) == 0.0;
    } else {
      var init, last := turns[..|turns| - 1], turns[|turns| - 1];
      assert LastReading(init, key, from) == Some(turns[|turns| - 2].now);
      if last.now <= turns[|turns| - 2].now {
        NeverInit(turns);
        ForwardWithin(init, key, from, d);
      } else {
        RisesThroughout(turns, from);
        RisingForward(turns, key, from);
      }
    }
  }

  lemma NeverInit(turns: seq<Turned>)
    requires turns != [] && NeverForwardAgain(Readings(turns))
    ensures NeverForwardAgain(Readings(turns[..|turns| - 1]))
  {
    var init := turns[..|turns| - 1];
    forall i, j, k | 0 <= i < j < k < |init|
      ensures Readings(init)[j] >= Readings(init)[i] || Readings(init)[j] >= Readings(init)[k]
    {
      assert Readings(turns)[j] >= Readings(turns)[i] || Readings(turns)[j] >= Readings(turns)[k];
    }
  }

  predicate Rising(turns: seq<Turned>, from: nat) {
    forall i, j :: from <= i <= j < |turns| ==> turns[i].now <= turns[j].now
  }

  /** Going forward now means never having gone back before. */
  lemma RisesThroughout(turns: seq<Turned>, from: nat)
    requires NeverForwardAgain(Readings(turns)) && from + 2 <= |turns| && turns[|turns| - 2].now < turns[|turns| - 1].now
    ensures Rising(turns, from)
  {
    var n, r := |turns| - 1, Readings(turns);
    forall i, j | from <= i < j <= n ensures turns[i].now <= turns[j].now {
      assert r[n - 1] < r[n];
      assert i < n - 1 ==> r[i] <= r[n - 1];
      assert j < n - 1 ==> r[j] <= r[n - 1];
      assert j < n ==> r[i] <= r[j];
    }
  }

  lemma {:induction false} RisingForward(turns: seq<Turned>, key: string, from: nat)
    requires from < |turns| && OneKey(turns, key) && Rising(turns, from)
    ensures Forward(turns, key, from) == turns[|turns| - 1].now - turns[from].now
    decreases |turns|
  {
    var init := turns[..|turns| - 1];
    if |init| == from {
      assert Forward(init, key, from) == 0.0 && LastReading(init, key, from) == None;
    } else {
      RisingForward(init, key, from);
      assert LastReading(init, key, from) == Some(init[|init| - 1].now);
    }
  }

  lemma NeverForwardKeeps(rate: real, burst: int, key: string, readings: seq<real>, counts: seq<nat>)
    requires Configured(rate, burst) && |readings| == |counts| && NeverForwardAgain(readings)
    ensures KeepsRate(rate, burst, Presented(key, readings, counts), key)
  {
    hide SharedGrants, NeverForwardAgain, NoLater, OneKey;
    var turns := Presented(key, readings, counts);
    forall from, to, d | 0 <= from < to <= |turns| && d >= 0.0 && NoLater(turns, from, to, d)
      ensures SharedGrants(rate, burst, turns[..to], key, from) as real <= burst as real + d * rate
    {
      var window := turns[..to];
      WindowNever(key, readings, counts, from, to, d);
      ForwardWithin(window, key, from, d);
      NoneExpired(rate, burst, window, key);
      ForwardBound(rate, burst, window, key, from);
      MulOrder(Forward(window, key, from), d, rate);
    }
  }

  lemma NoneExpired(rate: real, burst: int, turns: seq<Turned>, key: string)
    requires Configured(rate, burst) && OneKey(turns, key)
    ensures ExpiresLate(rate, burst, turns)
  {
    hide MayExpire;
  }

  lemma WindowNever(key: string, readings: seq<real>, counts: seq<nat>, from: nat, to: nat, d: real)
    requires |readings| == |counts| && NeverForwardAgain(readings)
    requires from < to <= |Presented(key, readings, counts)| && NoLater(Presented(key, readings, counts), from, to, d)
    ensures var window := Presented(key, readings, counts)[..to];
      OneKey(window, key) && NeverForwardAgain(Readings(window)) && NoLater(window, from, to, d)
  {
    var window := Presented(key, readings, counts)[..to];
    var at := PresentedAt(key, readings, counts);
    hide Presented;
    var r := Readings(window);
    assert forall i :: 0 <= i < to ==> r[i] == readings[at[i]];
    forall i, j, k | 0 <= i < j < k < |r| ensures r[j] >= r[i] || r[j] >= r[k] {
      assert at[i] <= at[j] <= at[k];
    }
  }

  // ----- readings that do go forward again -----

  /** A clock that goes back and later forward has a fall, then no rise, then a rise. */
  lemma FindDip(readings: seq<real>) returns (p: nat, q: nat)
    requires !NeverForwardAgain(readings)
    ensures p + 1 < q < |readings| && readings[p + 1] < readings[p] && readings[q - 1] < readings[q]
    ensures forall t :: p <= t < q - 1 ==> readings[t + 1] <= readings[t]
  {
    var i, j, k :| 0 <= i < j < k < |readings| && readings[j] < readings[i] && readings[j] < readings[k];
    p := i;
    while readings[p + 1] >= readings[p]
      invariant i <= p < j && readings[i] <= readings[p]
      decreases j - p
    {
      p := p + 1;
    }
    q := p + 2;
    while readings[q] <= readings[q - 1]
      invariant p + 2 <= q <= k
      invariant forall t :: p <= t < q - 1 ==> readings[t + 1] <= readings[t]
      invariant q - 1 >= j ==> readings[q - 1] <= readings[j]
      decreases k - q
    {
      q := q + 1;
    }
  }

  /** The key's bucket after turns of its own. */
  function BucketOf(rate: real, burst: int, turns: seq<Turned>, key: string): Option<Bucket>
    requires Configured(rate, burst)
  {
    At(ServeShared(rate, burst, turns, true), key)
  }

  /** Coming often enough at one reading takes every whole token. */
  lemma {:induction false} Drain(rate: real, burst: int, turns: seq<Turned>, key: string, now: real, n: nat, from: nat)
    requires Configured(rate, burst) && from <= |turns| && n > 0
    ensures var all, tokens := turns + Repeated(key, now, n), Refill(rate, burst, BucketOf(rate, burst, turns, key), now);
      var after, granted := BucketOf(rate, burst, all, key), SharedGrants(rate, burst, all, key, from) - SharedGrants(rate, burst, turns, key, from);
      && after.Some? && after.value.refilledAt == now && 0.0 <= after.value.tokens
      && granted as real + after.value.tokens == tokens && (after.value.tokens < 1.0 || granted == n)
  {
    hide Script, SharedGrants, ServeShared, SharedVerdicts, Refill;
    var last := Turned(key, now, false);
    SharedFilled(rate, burst, turns, true, key);
    if n == 1 {
      assert Repeated(key, now, 1) == [last] by { RepeatedIs(key, now, 1); }
      TurnCounts(rate, burst, turns, last, key, from);
      ScriptTakes(rate, burst, BucketOf(rate, burst, turns, key), now);
    } else {
      Drain(rate, burst, turns, key, now, n - 1, from);
      var most := turns + Repeated(key, now, n - 1);
      assert turns + Repeated(key, now, n) == most + [last];
      SharedFilled(rate, burst, most, true, key);
      TurnCounts(rate, burst, most, last, key, from);
      var b := BucketOf(rate, burst, most, key);
      ScriptTakes(rate, burst, b, now);
      assert Refill(rate, burst, b, now) == b.value.tokens by { NoTimeNoRefill(rate, burst, b.value, now); }
    }
  }

  lemma NoTimeNoRefill(rate: real, burst: int, b: Bucket, now: real)
    requires b.tokens <= burst as real && now <= b.refilledAt
    ensures RefilledForward(rate, burst, b, now) == b.tokens
  {
    ZeroTimes(MaxReal(now - b.refilledAt, 0.0), rate);
  }

  /** Each turn takes at most one token. */
  lemma {:induction false} HoldsMost(rate: real, burst: int, turns: seq<Turned>, key: string)
    requires Configured(rate, burst) && OneKey(turns, key)
    ensures var b := BucketOf(rate, burst, turns, key); b.Some? ==> b.value.tokens >= burst as real - |turns| as real
    ensures turns == [] ==> BucketOf(rate, burst, turns, key).None?
  {
    if turns != [] {
      hide Script;
      var init, last := turns[..|turns| - 1], turns[|turns| - 1];
      HoldsMost(rate, burst, init, key);
      SharedFilled(rate, burst, init, true, key);
      ScriptTakes(rate, burst, BucketOf(rate, burst, init, key), last.now);
    }
  }

  function Ones(n: nat): seq<nat> {
    seq(n, _ => 1)
  }

  lemma {:induction false} PresentedOnce(key: string, readings: seq<real>)
    ensures var turns := Presented(key, readings, Ones(|readings|)); |turns| == |readings| && OneKey(turns, key)
  {
    if readings != [] {
      var n := |readings| - 1;
      assert Ones(|readings|)[..n] == Ones(n);
      PresentedOnce(key, readings[..n]);
      RepeatedIs(key, readings[n], 1);
    }
  }

  lemma PresentedNext(key: string, readings: seq<real>, counts: seq<nat>, n: nat)
    requires n < |readings| == |counts|
    ensures Presented(key, readings[..n + 1], counts[..n + 1])
         == Presented(key, readings[..n], counts[..n]) + Repeated(key, readings[n], counts[n])
  {
    assert readings[..n + 1][..n] == readings[..n] && counts[..n + 1][..n] == counts[..n];
  }

  /** Once `p`, many times the high reading before the fall, once each on the way down, many times after the rise. */
  function DipCounts(length: nat, p: nat, q: nat, many: nat): seq<nat> {
    seq(length, i => if i == p || i == q then many else 1)
  }

  /** With the bucket drained before the fall, nothing is refilled until the rise. */
  lemma {:induction false} NothingOnTheWayDown(rate: real, burst: int, key: string, readings: seq<real>, p: nat, q: nat, t: nat)
    requires Configured(rate, burst) && p < t < q < |readings|
    requires forall u :: p <= u < q - 1 ==> readings[u + 1] <= readings[u]
    ensures var counts := DipCounts(|readings|, p, q, burst);
      var high, low := Presented(key, readings[..p + 1], counts[..p + 1]), Presented(key, readings[..t + 1], counts[..t + 1]);
      var b, c := BucketOf(rate, burst, high, key), BucketOf(rate, burst, low, key);
      && |high| <= |low| && p <= |high|
      && (b.Some? && b.value.refilledAt == readings[p] && b.value.tokens < 1.0 ==>
            && c == Some(Bucket(b.value.tokens, readings[t]))
            && SharedGrants(rate, burst, low, key, p) == SharedGrants(rate, burst, high, key, p))
  {
    hide Script, SharedGrants, ServeShared, SharedVerdicts;
    var counts := DipCounts(|readings|, p, q, burst);
    var before := Presented(key, readings[..t], counts[..t]);
    PresentedNext(key, readings, counts, t);
    RepeatedIs(key, readings[t], 1);
    assert Repeated(key, readings[t], 1) == [Turned(key, readings[t], false)];
    if t == p + 1 {
      PresentedLength(key, readings, p, q, burst);
    } else {
      NothingOnTheWayDown(rate, burst, key, readings, p, q, t - 1);
    }
    TurnCounts(rate, burst, before, Turned(key, readings[t], false), key, p);
    var b := BucketOf(rate, burst, before, key);
    SharedFilled(rate, burst, before, true, key);
    ScriptTakes(rate, burst, b, readings[t]);
    if b.Some? && readings[t] <= b.value.refilledAt { NoTimeNoRefill(rate, burst, b.value, readings[t]); }
    assert readings[t] <= readings[t - 1];
  }

  lemma PresentedLength(key: string, readings: seq<real>, p: nat, q: nat, many: nat)
    requires p < q < |readings|
    ensures var counts := DipCounts(|readings|, p, q, many);
      && Presented(key, readings[..p], counts[..p]) == Presented(key, readings[..p], Ones(p))
      && |Presented(key, readings[..p], counts[..p])| == p
      && |Presented(key, readings[..p + 1], counts[..p + 1])| == p + many
  {
    var counts := DipCounts(|readings|, p, q, many);
    assert counts[..p] == Ones(p);
    PresentedOnce(key, readings[..p]);
    PresentedNext(key, readings, counts, p);
    RepeatedIs(key, readings[p], many);
  }

  /** Draining the bucket before the fall and again after the rise grants the rise's whole refill on top. */
  lemma DipGrants(rate: real, burst: int, key: string, readings: seq<real>, p: nat, q: nat)
    requires Configured(rate, burst) && p + 1 < q < |readings| && readings[q - 1] < readings[q]
    requires forall u :: p <= u < q - 1 ==> readings[u + 1] <= readings[u]
    requires 1.0 + (readings[q] - readings[q - 1]) * rate <= burst as real
    ensures var counts := DipCounts(|readings|, p, q, burst);
      var turns := Presented(key, readings[..q + 1], counts[..q + 1]);
      SharedGrants(rate, burst, turns, key, p) as real
        > burst as real - p as real - 1.0 + (readings[q] - readings[q - 1]) * rate
  {
    hide Script, SharedGrants, ServeShared, SharedVerdicts, Presented;
    var counts := DipCounts(|readings|, p, q, burst);
    var start, high := Presented(key, readings[..p], counts[..p]), Presented(key, readings[..p + 1], counts[..p + 1]);
    var low, turns := Presented(key, readings[..q], counts[..q]), Presented(key, readings[..q + 1], counts[..q + 1]);
    PresentedLength(key, readings, p, q, burst);
    PresentedNext(key, readings, counts, p);
    PresentedNext(key, readings, counts, q);
    DrainedHigh(rate, burst, key, start, readings[..p], readings[p], p);
    NothingOnTheWayDown(rate, burst, key, readings, p, q, q - 1);
    var b, c := BucketOf(rate, burst, low, key), BucketOf(rate, burst, turns, key);
    Drain(rate, burst, low, key, readings[q], burst, p);
    RiseRefills(rate, burst, b.value, readings[q]);
    DipSum(SharedGrants(rate, burst, high, key, p), SharedGrants(rate, burst, turns, key, p), b.value.tokens, c.value.tokens,
           (readings[q] - readings[q - 1]) * rate, burst, p);
  }

  /** What is held before the rise, and the rise's refill, is granted but for less than a token. */
  lemma DipSum(before: int, granted: int, held: real, left: real, refill: real, burst: int, p: int)
    requires before as real + held >= burst as real - p as real
    requires (granted - before) as real + left == held + refill <= burst as real
    requires left < 1.0 || granted - before == burst
    ensures granted as real > burst as real - p as real - 1.0 + refill
  {
  }

  lemma RiseRefills(rate: real, burst: int, b: Bucket, now: real)
    requires Configured(rate, burst) && b.tokens < 1.0 && b.refilledAt < now && 1.0 + (now - b.refilledAt) * rate <= burst as real
    ensures RefilledForward(rate, burst, b, now) == b.tokens + (now - b.refilledAt) * rate
  {
  }

  lemma DrainedHigh(rate: real, burst: int, key: string, start: seq<Turned>, readings: seq<real>, now: real, p: nat)
    requires Configured(rate, burst) && |readings| == p && start == Presented(key, readings, Ones(p))
    ensures var high := start + Repeated(key, now, burst);
      var b := BucketOf(rate, burst, high, key);
      && b.Some? && b.value.refilledAt == now && b.value.tokens < 1.0 && |start| == p
      && SharedGrants(rate, burst, high, key, p) as real + b.value.tokens >= burst as real - p as real
  {
    hide Script, SharedVerdicts;
    PresentedOnce(key, readings);
    HoldsMost(rate, burst, start, key);
    SharedFilled(rate, burst, start, true, key);
    assert SharedGrants(rate, burst, start, key, p) == 0;
    Drain(rate, burst, start, key, now, burst, p);
    ScriptTakes(rate, burst, BucketOf(rate, burst, start, key), now);
  }

  function DipRate(p: nat, margin: real): real
    requires margin > 0.0
  {
    (p as real + 1.0) / margin
  }

  lemma DipRatePays(p: nat, margin: real)
    requires margin > 0.0
    ensures DipRate(p, margin) > 0.0 && margin * DipRate(p, margin) == p as real + 1.0
  {
    DivPositive(p as real + 1.0, margin);
  }

  /** A rate and a burst at which a fall and the rise after it break the bound. */
  lemma DipOverdraws(key: string, readings: seq<real>) returns (rate: real, burst: int, counts: seq<nat>)
    requires !NeverForwardAgain(readings)
    ensures Configured(rate, burst) && |counts| == |readings| && forall i :: 0 <= i < |counts| ==> counts[i] >= 1
    ensures !KeepsRate(rate, burst, Presented(key, readings, counts), key)
  {
    hide NeverForwardAgain, DipRate, KeepsRate, Presented, BurstFor;
    var p, q := FindDip(readings);
    FallsBelow(readings, p, q - 1);
    var rise, d := readings[q] - readings[q - 1], MaxReal(readings[q] - readings[p], 0.0);
    rate := DipRate(p, rise - d);
    DipRatePays(p, rise - d);
    MulNonneg(rise, rate);
    burst := BurstFor(rise * rate);
    counts := DipCounts(|readings|, p, q, burst);
    DipBreaks(rate, burst, key, readings, p, q, d);
  }

  lemma DipBreaks(rate: real, burst: int, key: string, readings: seq<real>, p: nat, q: nat, d: real)
    requires Configured(rate, burst) && p + 1 < q < |readings| && readings[p + 1] < readings[p] && readings[q - 1] < readings[q]
    requires forall u :: p <= u < q - 1 ==> readings[u + 1] <= readings[u]
    requires 1.0 + (readings[q] - readings[q - 1]) * rate <= burst as real
    requires d >= 0.0 && readings[q] <= readings[p] + d && (readings[q] - readings[q - 1] - d) * rate == p as real + 1.0
    ensures !KeepsRate(rate, burst, Presented(key, readings, DipCounts(|readings|, p, q, burst)), key)
  {
    hide SharedGrants, KeepsRate, Presented;
    var counts := DipCounts(|readings|, p, q, burst);
    var turns, window := Presented(key, readings, counts), Presented(key, readings[..q + 1], counts[..q + 1]);
    DipGrants(rate, burst, key, readings, p, q);
    DipMargin(p, readings[q] - readings[q - 1], d, rate, burst, SharedGrants(rate, burst, window, key, p));
    DipNoLater(key, readings, p, q, burst, d, q);
    PrefixPresented(key, readings, counts, q + 1);
    assert turns[..|window|] == window;
    NotKept(rate, burst, turns, key, p, |window|, d);
  }

  /** A burst the refill of the rise does not fill. */
  function BurstFor(refill: real): (burst: int)
    requires refill >= 0.0
    ensures burst >= 1 && 1.0 + refill <= burst as real
  {
    (2.0 + refill).Floor
  }

  lemma DipMargin(p: nat, rise: real, d: real, rate: real, burst: int, granted: int)
    requires (rise - d) * rate == p as real + 1.0
    requires granted as real > burst as real - p as real - 1.0 + rise * rate
    ensures granted as real > burst as real + d * rate
  {
    assert rise * rate == (rise - d) * rate + d * rate;
  }

  lemma NotKept(rate: real, burst: int, turns: seq<Turned>, key: string, from: nat, to: nat, d: real)
    requires Configured(rate, burst) && from < to <= |turns| && d >= 0.0
    requires forall i :: from <= i < to ==> turns[..to][i].now <= turns[from].now + d
    requires SharedGrants(rate, burst, turns[..to], key, from) as real > burst as real + d * rate
    ensures !KeepsRate(rate, burst, turns, key)
  {
    hide SharedGrants;
    forall i | from <= i < to ensures turns[i].now <= turns[from].now + d {
      assert turns[..to][i] == turns[i];
    }
    assert NoLater(turns, from, to, d);
  }

  lemma {:induction false} FallsBelow(readings: seq<real>, p: nat, t: nat)
    requires p < t < |readings| && readings[p + 1] < readings[p]
    requires forall u :: p <= u < t ==> readings[u + 1] <= readings[u]
    ensures readings[t] < readings[p]
    decreases t
  {
    if t > p + 1 { FallsBelow(readings, p, t - 1); }
    assert readings[t] <= readings[t - 1];
  }

  lemma {:induction false} PrefixPresented(key: string, readings: seq<real>, counts: seq<nat>, n: nat)
    requires n <= |readings| == |counts|
    ensures Presented(key, readings[..n], counts[..n]) <= Presented(key, readings, counts)
    decreases |readings|
  {
    if n < |readings| {
      var m := |readings| - 1;
      PrefixPresented(key, readings[..m], counts[..m], n);
      assert readings[..m][..n] == readings[..n] && counts[..m][..n] == counts[..n];
    } else {
      assert readings[..n] == readings && counts[..n] == counts;
    }
  }

  lemma {:induction false} DipNoLater(key: string, readings: seq<real>, p: nat, q: nat, many: nat, d: real, t: nat)
    requires p <= t <= q < |readings| && p + 1 < q && many > 0 && d >= 0.0 && readings[q] <= readings[p] + d
    requires readings[p + 1] < readings[p] && forall u :: p <= u < q - 1 ==> readings[u + 1] <= readings[u]
    ensures var counts := DipCounts(|readings|, p, q, many);
      var window := Presented(key, readings[..t + 1], counts[..t + 1]);
      && p < |window| && window[p].now == readings[p]
      && forall i :: p <= i < |window| ==> window[i].now <= readings[p] + d
    decreases t
  {
    var counts := DipCounts(|readings|, p, q, many);
    PresentedNext(key, readings, counts, t);
    RepeatedIs(key, readings[t], counts[t]);
    if t == p {
      PresentedLength(key, readings, p, q, many);
    } else {
      DipNoLater(key, readings, p, q, many, d, t - 1);
      if t < q { FallsBelow(readings, p, t); }
    }
  }

  /**
   * Exactly which readings keep the script's advertised rate, for every rate and burst and however often each
   * reading is presented: those that never go forward again after going back.
   */
  lemma RateKeptIff(key: string, readings: seq<real>)
    ensures (forall rate, burst, counts: seq<nat> ::
               Configured(rate, burst) && |counts| == |readings| && (forall i :: 0 <= i < |counts| ==> counts[i] >= 1) ==>
                 KeepsRate(rate, burst, Presented(key, readings, counts), key))
       <==> NeverForwardAgain(readings)
  {
    hide KeepsRate, NeverForwardAgain, Presented;
    if NeverForwardAgain(readings) {
      forall rate, burst, counts: seq<nat> | Configured(rate, burst) && |counts| == |readings|
        ensures KeepsRate(rate, burst, Presented(key, readings, counts), key)
      {
        NeverForwardKeeps(rate, burst, key, readings, counts);
      }
    } else {
      var rate, burst, counts := DipOverdraws(key, readings);
    }
  }

  // ----- a clock going back and forth -----

  function GrantedIn(verdicts: seq<Verdict>): nat {
    if verdicts == [] then 0
    else GrantedIn(verdicts[..|verdicts| - 1]) + if verdicts[|verdicts| - 1].Granted? then 1 else 0
  }

  const EARLY := Turned("k", 0.0, false)
  const LATE := Turned("k", 1.0, false)

  /** A clock shuttling between 1 and 0. */
  function Shuttle(n: nat): seq<Turned> {
    if n == 0 then [] else Shuttle(n - 1) + [LATE] + [EARLY]
  }

  lemma {:induction false} ShuttleSpan(n: nat)
    ensures forall t :: t in Shuttle(n) ==> t.key == "k" && 0.0 <= t.now <= 1.0 && !t.expired
  {
    if n > 0 { ShuttleSpan(n - 1); }
  }

  lemma ShuttleIs(n: nat)
    ensures if n > 0 then Shuttle(n) == Shuttle(n - 1) + [LATE] + [EARLY] else
      && GrantedIn(SharedVerdicts(1.0, 1, Shuttle(n), false)) == 0
      && At(ServeShared(1.0, 1, Shuttle(n), false), "k") == None
  {
  }

  /** There and back: one more grant, and the bucket as it was. */
  lemma ShuttleOnce(before: seq<Turned>)
    requires At(ServeShared(1.0, 1, before, false), "k") in {None, Some(Bucket(0.0, 0.0))}
    ensures SharedVerdicts(1.0, 1, before + [LATE] + [EARLY], false) == SharedVerdicts(1.0, 1, before, false) + [Granted] + [Wait(1.0)]
    ensures At(ServeShared(1.0, 1, before + [LATE] + [EARLY], false), "k") == Some(Bucket(0.0, 0.0))
  {
    BackAndForth();
    hide Script, ServeShared, SharedVerdicts;
    var verdicts := SharedVerdicts(1.0, 1, before, false);
    OneMore(before, LATE, At(ServeShared(1.0, 1, before, false), "k"), Bucket(0.0, 1.0), verdicts, Granted);
    OneMore(before + [LATE], EARLY, Some(Bucket(0.0, 1.0)), Bucket(0.0, 0.0), verdicts + [Granted], Wait(1.0));
  }

  /**
   * A clock that goes back breaks the bound: one token per unit of time and a burst of one allow two grants in a
   * window of length one, but the script, refilling the same stretch again and again, gives any number.
   */
  lemma {:induction false} BackwardClockOverdraws(n: nat)
    ensures forall t :: t in Shuttle(n) ==> t.key == "k" && 0.0 <= t.now <= 1.0 && !t.expired
    ensures GrantedIn(SharedVerdicts(1.0, 1, Shuttle(n), false)) == n
    ensures At(ServeShared(1.0, 1, Shuttle(n), false), "k") == if n == 0 then None else Some(Bucket(0.0, 0.0))
  {
    hide Script, ServeShared, SharedVerdicts, GrantedIn, Shuttle;
    ShuttleSpan(n);
    ShuttleIs(n);
    if n > 0 {
      BackwardClockOverdraws(n - 1);
      ShuttleOnce(Shuttle(n - 1));
      var verdicts := SharedVerdicts(1.0, 1, Shuttle(n - 1), false);
      GrantedNext(verdicts, Granted);
      GrantedNext(verdicts + [Granted], Wait(1.0));
    }
  }

  lemma GrantedNext(verdicts: seq<Verdict>, v: Verdict)
    ensures GrantedIn(verdicts + [v]) == GrantedIn(verdicts) + if v.Granted? then 1 else 0
  {
    assert (verdicts + [v])[..|verdicts|] == verdicts;
  }

  lemma OneMore(turns: seq<Turned>, last: Turned, b: Option<Bucket>, after: Bucket, verdicts: seq<Verdict>, verdict: Verdict)
    requires At(ServeShared(1.0, 1, turns, false), last.key) == b && SharedVerdicts(1.0, 1, turns, false) == verdicts
    requires Script(1.0, 1, b, last.now) == (after, verdict) && !last.expired
    ensures At(ServeShared(1.0, 1, turns + [last], false), last.key) == Some(after)
    ensures SharedVerdicts(1.0, 1, turns + [last], false) == verdicts + [verdict]
  {
    hide Script;
    assert (turns + [last])[..|turns|] == turns;
  }

  /** One token per unit of time, a burst of one: the bucket after a grant, after going back, and after coming forward. */
  lemma BackAndForth()
    ensures Script(1.0, 1, None, 1.0) == (Bucket(0.0, 1.0), Granted)
    ensures Script(1.0, 1, Some(Bucket(0.0, 1.0)), 0.0) == (Bucket(0.0, 0.0), Wait(1.0))
    ensures Script(1.0, 1, Some(Bucket(0.0, 0.0)), 1.0) == (Bucket(0.0, 1.0), Granted)
  {
  }
}
