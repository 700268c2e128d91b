/** When a caller that always sleeps what it is told is served. */
module BucketSchedule {
  import opened Prelude
  import opened TokenBucket

  /** A new key's bucket and the clock after `n` grants to one caller that asks again at once and sleeps every wait in full. */
  function Served(rate: real, burst: int, start: real, n: nat): (Option<Bucket>, real)
    requires Configured(rate, burst)
  {
    if n == 0 then (None, start)
    else
      var (b, now) := Served(rate, burst, start, n - 1);
      var (after, verdict) := Turn(rate, burst, b, now);
      match verdict
      case Granted => (Some(after), now)
      case Wait(time) => (Some(Turn(rate, burst, Some(after), now + time).0), now + time)
  }

  /** The `n`-th grant: the first `burst` at once, then one every `1 / rate`. */
  function DueTime(rate: real, burst: int, start: real, n: nat): real
    requires Configured(rate, burst)
  {
    if n <= burst then start else start + (n - burst) as real / rate
  }

  /**
   * The advertised rate is reached, no sooner and no later: such a caller's `n`-th grant comes exactly when the burst
   * and the rate say, each after at most one sleep.
   */
  lemma {:induction false} ServedOnTime(rate: real, burst: int, start: real, n: nat)
    requires Configured(rate, burst)
    ensures var (b, now) := Served(rate, burst, start, n);
      && now == DueTime(rate, burst, start, n)
      && (n > 0 ==> b == Some(Bucket(if n <= burst then (burst - n) as real else 0.0, now)))
    ensures n > 0 ==>
      var (b, now) := Served(rate, burst, start, n - 1);
      var (after, verdict) := Turn(rate, burst, b, now);
      if n <= burst then verdict.Granted?
      else verdict == Wait(1.0 / rate) && Turn(rate, burst, Some(after), now + 1.0 / rate).1.Granted?
  {
    hide Turn;
    if n > 0 {
      ServedOnTime(rate, burst, start, n - 1);
      var now := Served(rate, burst, start, n - 1).1;
      if n == 1 {
        SpareTurn(rate, burst, None, start, burst);
      } else if n <= burst {
        SpareTurn(rate, burst, Some(Bucket((burst - n + 1) as real, now)), now, burst - n + 1);
      } else {
        DryTurn(rate, burst, now);
        NextIsDue(rate, burst, start, n);
      }
    }
  }

  /** A token to spare is granted at once. */
  lemma SpareTurn(rate: real, burst: int, b: Option<Bucket>, now: real, spare: int)
    requires Configured(rate, burst) && 1 <= spare <= burst
    requires b == if spare == burst && b.None? then None else Some(Bucket(spare as real, now))
    ensures Turn(rate, burst, b, now) == (Bucket((spare - 1) as real, now), Granted)
  {
    var full := Bucket(spare as real, now);
    ZeroTimes(full.refilledAt - now, rate);
    var refilled := Refilled(rate, burst, full, now);
    assert refilled == MinReal(burst as real, spare as real) == spare as real;
    assert spare as real - 1.0 == (spare - 1) as real;
  }

  /** An empty bucket waits for one token's time, and is empty again once that is granted. */
  lemma DryTurn(rate: real, burst: int, now: real)
    requires Configured(rate, burst)
    ensures var empty, wait := Bucket(0.0, now), 1.0 / rate;
      && Turn(rate, burst, Some(empty), now) == (empty, Wait(wait))
      && Turn(rate, burst, Some(empty), now + wait) == (Bucket(0.0, now + wait), Granted)
  {
    ZeroTimes(Bucket(0.0, now).refilledAt - now, rate);
    Unit(rate);
    assert (now + 1.0 / rate) - now == 1.0 / rate;
    var dry, refilled := Refilled(rate, burst, Bucket(0.0, now), now), Refilled(rate, burst, Bucket(0.0, now), now + 1.0 / rate);
    assert dry == 0.0 && refilled == 1.0;
    assert (1.0 - dry) / rate == 1.0 / rate;
  }

  lemma Unit(rate: real)
    requires rate > 0.0
    ensures (1.0 / rate) * rate == 1.0 && (1.0 - 0.0) / rate == 1.0 / rate
  {
  }

  lemma NextIsDue(rate: real, burst: int, start: real, n: nat)
    requires Configured(rate, burst) && n > burst
    ensures DueTime(rate, burst, start, n - 1) + 1.0 / rate == DueTime(rate, burst, start, n)
  {
    var k := (n - 1 - burst) as real;
    assert (n - burst) as real == k + 1.0;
    SumOver(k, rate);
  }

  lemma SumOver(k: real, rate: real)
    requires rate > 0.0
    ensures (k + 1.0) / rate == k / rate + 1.0 / rate
  {
    assert (k / rate + 1.0 / rate) * rate == k + 1.0;
  }
}
