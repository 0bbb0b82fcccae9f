// The per-sender broadcast limiter (tokenBucket in internal/broker/broker.go).
// The class refills lazily, in one multiplication; its contract is the eager
// bucket that gains one capped token at every tick of a fixed grid.
module TokenBuckets {
  import opened Types
  import opened Quotients

  datatype Bucket = Bucket(tokens: int, burst: int, refill: Duration, lastRefill: Time)
  {
    ghost predicate Valid() { 0 <= tokens <= burst && 0 < burst && 0 < refill }
  }

  type LiveBucket = b: Bucket | b.Valid() witness Bucket(1, 1, 1, 0)

  function Full(burst: int, refill: Duration, now: Time): Bucket {
    Bucket(burst, burst, refill, now)
  }

  // One tick of the eager bucket.
  function Tick(b: Bucket): Bucket {
    b.(tokens := if b.tokens < b.burst then b.tokens + 1 else b.burst, lastRefill := b.lastRefill + b.refill)
  }

  // Every tick that is due at `now`, one at a time.
  function Refilled(b: Bucket, now: Time): (r: Bucket)
    requires b.Valid()
    ensures r.Valid() && r.burst == b.burst && r.refill == b.refill
    ensures now - r.lastRefill < r.refill
    ensures b.lastRefill <= now ==> b.lastRefill <= r.lastRefill <= now
    ensures now < b.lastRefill ==> r == b
    ensures b.tokens <= r.tokens
    ensures b.lastRefill < r.lastRefill ==> r.tokens > 0
    decreases if now >= b.lastRefill then now - b.lastRefill else 0
  {
    if now - b.lastRefill < b.refill then b else Refilled(Tick(b), now)
  }

  // An attempt to broadcast: refill, then spend one token if there is one.
  function AfterTake(b: Bucket, now: Time): (r: Bucket)
    requires b.Valid()
    ensures r.Valid() && r.burst == b.burst && r.refill == b.refill
  {
    var f := Refilled(b, now);
    if f.tokens <= 0 then f else f.(tokens := f.tokens - 1)
  }

  predicate Grants(b: Bucket, now: Time)
    requires b.Valid()
  {
    Refilled(b, now).tokens > 0
  }

  // k ticks at once are k ticks one at a time, capped once at the end.
  lemma {:induction false} LazyIsEager(b: Bucket, now: Time, k: nat)
    requires b.Valid()
    requires k == if now - b.lastRefill >= b.refill then (now - b.lastRefill) / b.refill else 0
    ensures Refilled(b, now) ==
            Bucket(if b.tokens + k < b.burst then b.tokens + k else b.burst, b.burst, b.refill, b.lastRefill + k * b.refill)
    decreases k
  {
    if k > 0 {
      var elapsed := now - b.lastRefill;
      QuotientStep(elapsed, b.refill);
      if elapsed - b.refill < b.refill { DivUnique(elapsed, b.refill, 1); }
      LazyIsEager(Tick(b), now, k - 1);
      MulDistributes(k - 1, 1, b.refill);
    }
  }

  class TokenBucket {
    var tokens: int
    const burst: int
    const refill: Duration
    var lastRefill: Time

    function Value(): Bucket
      reads this
    {
      Bucket(tokens, burst, refill, lastRefill)
    }

    constructor (burst: int, refill: Duration, now: Time)
      requires burst > 0 && refill > 0
      ensures Value() == Full(burst, refill, now) && Value().Valid()
    {
      this.tokens, this.burst, this.refill, this.lastRefill := burst, burst, refill, now;
    }

    constructor Of(b: Bucket)
      ensures Value() == b
    {
      tokens, burst, refill, lastRefill := b.tokens, b.burst, b.refill, b.lastRefill;
    }

    // take: one lazy refill, then one token.
    method Take(now: Time) returns (ok: bool)
      requires Value().Valid()
      modifies this
      ensures ok == Grants(old(Value()), now)
      ensures Value() == AfterTake(old(Value()), now)
    {
      ghost var k := if now - lastRefill >= refill then (now - lastRefill) / refill else 0;
      assert k >= 0 by { if now - lastRefill >= refill { QuotientStep(now - lastRefill, refill); } }
      LazyIsEager(Value(), now, k);
      var elapsed := now - lastRefill;
      if elapsed >= refill {
        var gained := elapsed / refill;
        tokens := if burst < tokens + gained then burst else tokens + gained;
        lastRefill := lastRefill + gained * refill;
      }
      if tokens <= 0 {
        return false;
      }
      tokens := tokens - 1;
      return true;
    }
  }

  // ---- Runs of attempts ------------------------------------------------------

  predicate Sorted(times: seq<Time>) {
    forall i, j :: 0 <= i < j < |times| ==> times[i] <= times[j]
  }

  // The bucket after a sequence of attempts.
  function AfterTakes(b: Bucket, times: seq<Time>): (r: Bucket)
    requires b.Valid()
    ensures r.Valid() && r.burst == b.burst && r.refill == b.refill
  {
    if times == [] then b
    else AfterTake(AfterTakes(b, times[..|times| - 1]), times[|times| - 1])
  }

  // Whether attempt i succeeded.
  predicate Granted(b: Bucket, times: seq<Time>, i: nat)
    requires b.Valid() && i < |times|
  {
    Grants(AfterTakes(b, times[..i]), times[i])
  }

  // How many of the attempts i, i+1, .., j-1 succeeded.
  function Successes(b: Bucket, times: seq<Time>, i: nat, j: nat): nat
    requires b.Valid() && i <= j <= |times|
    decreases j
  {
    if i == j then 0
    else Successes(b, times, i, j - 1) + if Granted(b, times, j - 1) then 1 else 0
  }

  // The first attempts depend only on themselves.
  lemma AfterTakesPrefix(b: Bucket, times: seq<Time>, j: nat)
    requires b.Valid() && j < |times|
    ensures AfterTakes(b, times[..j + 1]) == AfterTake(AfterTakes(b, times[..j]), times[j])
  {
    assert times[..j + 1][..j] == times[..j];
  }

  lemma {:induction false} LastRefillBounds(b: Bucket, times: seq<Time>, j: nat)
    requires b.Valid() && Sorted(times) && j <= |times|
    requires forall k :: 0 <= k < |times| ==> b.lastRefill <= times[k]
    ensures b.lastRefill <= AfterTakes(b, times[..j]).lastRefill
    ensures j > 0 ==> times[j - 1] - b.refill < AfterTakes(b, times[..j]).lastRefill <= times[j - 1]
    decreases j
  {
    if j > 0 {
      AfterTakesPrefix(b, times, j - 1);
      LastRefillBounds(b, times, j - 1);
    }
  }

  // The conserved quantity. Ticks gained and tokens spent account for the level.
  lemma TickBudget(b: Bucket, now: Time)
    requires b.Valid()
    ensures (Refilled(b, now).tokens - b.tokens) * b.refill <= Refilled(b, now).lastRefill - b.lastRefill
  {
    var k := if now - b.lastRefill >= b.refill then (now - b.lastRefill) / b.refill else 0;
    if now - b.lastRefill >= b.refill { QuotientStep(now - b.lastRefill, b.refill); }
    LazyIsEager(b, now, k);
    var d := Refilled(b, now).tokens - b.tokens;
    assert d <= k;
    MulMonotone(d, k, b.refill);
  }

  lemma {:induction false} SpendingBudget(b: Bucket, times: seq<Time>, i: nat, j: nat)
    requires b.Valid() && i <= j <= |times|
    ensures var x, y := AfterTakes(b, times[..i]), AfterTakes(b, times[..j]);
            (Successes(b, times, i, j) + y.tokens - x.tokens) * b.refill <= y.lastRefill - x.lastRefill
    decreases j
  {
    hide AfterTakes, Refilled;
    if i < j {
      SpendingBudget(b, times, i, j - 1);
      AfterTakesPrefix(b, times, j - 1);
      var x, w, y := AfterTakes(b, times[..i]), AfterTakes(b, times[..j - 1]), AfterTakes(b, times[..j]);
      TickBudget(w, times[j - 1]);
      var f := Refilled(w, times[j - 1]);
      AddBudgets(Successes(b, times, i, j - 1) + w.tokens - x.tokens, f.tokens - w.tokens, b.refill,
                 w.lastRefill - x.lastRefill, f.lastRefill - w.lastRefill);
      assert Successes(b, times, i, j) + y.tokens == Successes(b, times, i, j - 1) + f.tokens;
    }
  }

  lemma AddBudgets(m: int, n: int, d: int, x: int, y: int)
    requires m * d <= x && n * d <= y
    ensures (m + n) * d <= x + y
  {
    MulDistributes(m, n, d);
  }

  // Since its creation at t0 a bucket has granted at most one broadcast per token
  // of its burst and one per whole refill interval elapsed.
  lemma GrantsSinceCreation(burst: int, refill: Duration, t0: Time, times: seq<Time>, j: nat, e: Time)
    requires burst > 0 && refill > 0 && Sorted(times) && j <= |times|
    requires forall k :: 0 <= k < |times| ==> t0 <= times[k]
    requires t0 <= e && (j > 0 ==> times[j - 1] <= e)
    ensures Successes(Full(burst, refill, t0), times, 0, j) <= burst + (e - t0) / refill
  {
    var b := Full(burst, refill, t0);
    SpendingBudget(b, times, 0, j);
    LastRefillBounds(b, times, j);
    assert times[..0] == [];
    var y := AfterTakes(b, times[..j]);
    var n := Successes(b, times, 0, j) - burst;
    MulMonotone(n, n + y.tokens, refill);
    DivBounds(n, e - t0, refill);
  }

  // In any window [s, e] it grants at most the burst plus one per interval begun.
  lemma GrantsInWindow(burst: int, refill: Duration, t0: Time, times: seq<Time>, i: nat, j: nat, s: Time, e: Time)
    requires burst > 0 && refill > 0 && Sorted(times) && i <= j <= |times|
    requires forall k :: 0 <= k < |times| ==> t0 <= times[k]
    requires s <= e && forall k :: i <= k < j ==> s <= times[k] <= e
    ensures Successes(Full(burst, refill, t0), times, i, j) <= burst + CeilDiv(e - s, refill)
  {
    var b := Full(burst, refill, t0);
    if i == j {
      DivBounds(0, e - s, refill);
    } else {
      SpendingBudget(b, times, i + 1, j);
      SuccessesSplit(b, times, i, j);
      AfterTakesPrefix(b, times, i);
      LastRefillBounds(b, times, i + 1);
      LastRefillBounds(b, times, j);
      var x, y := AfterTakes(b, times[..i + 1]), AfterTakes(b, times[..j]);
      var first := if Granted(b, times, i) then 1 else 0;
      assert x.tokens + first <= burst;
      var n := Successes(b, times, i, j) - burst;
      var m := Successes(b, times, i + 1, j) + y.tokens - x.tokens;
      MulMonotone(n, m, refill);
      DivBounds(n, e - s, refill);
    }
  }

  lemma {:induction false} SuccessesSplit(b: Bucket, times: seq<Time>, i: nat, j: nat)
    requires b.Valid() && i < j <= |times|
    ensures Successes(b, times, i, j) == (if Granted(b, times, i) then 1 else 0) + Successes(b, times, i + 1, j)
    decreases j
  {
    if i + 1 < j { SuccessesSplit(b, times, i, j - 1); }
  }

  // A sender that got nothing through for one refill interval is let through now.
  lemma GrantedAfterQuiet(burst: int, refill: Duration, t0: Time, times: seq<Time>, j: nat)
    requires burst > 0 && refill > 0 && Sorted(times) && j < |times|
    requires forall k :: 0 <= k < |times| ==> t0 <= times[k]
    requires forall k :: 0 <= k < j && times[k] > times[j] - refill ==> !Granted(Full(burst, refill, t0), times, k)
    ensures Granted(Full(burst, refill, t0), times, j)
  {
    var b := Full(burst, refill, t0);
    var x := AfterTakes(b, times[..j]);
    if !Granted(b, times, j) {
      // No tick was due, so the last one fell inside the quiet interval.
      LastRefillBounds(b, times, j);
      assert Refilled(x, times[j]).lastRefill == x.lastRefill;
      NonemptySinceTick(b, times, j);
    }
  }

  // As long as nothing is granted at or after the last tick, a token remains.
  lemma {:induction false} NonemptySinceTick(b: Bucket, times: seq<Time>, j: nat)
    requires b.Valid() && b.tokens == b.burst && Sorted(times) && j <= |times|
    requires forall k :: 0 <= k < |times| ==> b.lastRefill <= times[k]
    requires forall k :: 0 <= k < j && times[k] >= AfterTakes(b, times[..j]).lastRefill ==> !Granted(b, times, k)
    ensures AfterTakes(b, times[..j]).tokens > 0
    decreases j
  {
    if j > 0 {
      AfterTakesPrefix(b, times, j - 1);
      LastRefillBounds(b, times, j);
      var w := AfterTakes(b, times[..j - 1]);
      var f := Refilled(w, times[j - 1]);
      assert !Granted(b, times, j - 1);
      if f.lastRefill == w.lastRefill {
        NonemptySinceTick(b, times, j - 1);
      }
    }
  }

  // Since its creation a bucket has refused nothing before it had granted its whole burst.
  lemma {:induction false} TokensAndGrants(b: Bucket, times: seq<Time>, j: nat)
    requires b.Valid() && j <= |times|
    ensures AfterTakes(b, times[..j]).tokens + Successes(b, times, 0, j) >= b.tokens
    decreases j
  {
    if j > 0 {
      AfterTakesPrefix(b, times, j - 1);
      TokensAndGrants(b, times, j - 1);
    } else {
      assert times[..0] == [];
    }
  }

  lemma RefusedOnlyAfterBurst(burst: int, refill: Duration, t0: Time, times: seq<Time>, j: nat)
    requires burst > 0 && refill > 0 && j < |times| && !Granted(Full(burst, refill, t0), times, j)
    ensures Successes(Full(burst, refill, t0), times, 0, j) >= burst
  {
    TokensAndGrants(Full(burst, refill, t0), times, j);
  }

  // How many ticks of the grid t0 + refill, t0 + 2 * refill, .. have passed at t.
  function Ticks(t0: Time, refill: Duration, t: Time): int
    requires refill > 0
  {
    (t - t0) / refill
  }

  function TickTime(t0: Time, refill: Duration, d: int): Time { t0 + refill * d }

  // The level goes by the grid alone: between one attempt and the next the bucket gains one
  // token for each tick of the grid in between, up to its burst.
  lemma LevelFollowsGrid(burst: int, refill: Duration, t0: Time, times: seq<Time>, j: nat)
    requires burst > 0 && refill > 0 && Sorted(times) && j < |times|
    requires forall k :: 0 <= k < |times| ==> t0 <= times[k]
    ensures var x := AfterTakes(Full(burst, refill, t0), times[..j]);
            var gained := Ticks(t0, refill, times[j]) - if j == 0 then 0 else Ticks(t0, refill, times[j - 1]);
            && x.lastRefill == TickTime(t0, refill, if j == 0 then 0 else Ticks(t0, refill, times[j - 1]))
            && Refilled(x, times[j]).tokens == if x.tokens + gained < burst then x.tokens + gained else burst
  {
    var b := Full(burst, refill, t0);
    var x := AfterTakes(b, times[..j]);
    GridKept(burst, refill, t0, times, j);
    LastRefillBounds(b, times, j);
    var d := if j == 0 then 0 else Ticks(t0, refill, times[j - 1]);
    var k := if times[j] - x.lastRefill >= refill then (times[j] - x.lastRefill) / refill else 0;
    TicksSince(t0, refill, d, times[j]);
    LazyIsEager(x, times[j], k);
    hide Refilled, AfterTakes;
  }

  // Ticks since the d-th one.
  lemma TicksSince(t0: Time, refill: Duration, d: int, t: Time)
    requires refill > 0 && TickTime(t0, refill, d) <= t
    ensures var since := t - TickTime(t0, refill, d);
            since / refill == Ticks(t0, refill, t) - d && (since < refill ==> since / refill == 0) && since / refill >= 0
  {
    var since := t - (t0 + refill * d);
    var q := since / refill;
    assert t - t0 == refill * (d + q) + since % refill by { MulDistributes(d, q, refill); }
    DivUnique(t - t0, refill, d + q);
    if since < refill { DivUnique(since, refill, 0); }
  }

  lemma {:induction false} GridKept(burst: int, refill: Duration, t0: Time, times: seq<Time>, j: nat)
    requires burst > 0 && refill > 0 && Sorted(times) && j <= |times|
    requires forall k :: 0 <= k < |times| ==> t0 <= times[k]
    ensures AfterTakes(Full(burst, refill, t0), times[..j]).lastRefill ==
            TickTime(t0, refill, if j == 0 then 0 else Ticks(t0, refill, times[j - 1]))
    decreases j
  {
    var b := Full(burst, refill, t0);
    if j == 0 {
      assert times[..0] == [];
    } else {
      hide Refilled, AfterTakes, AfterTake, Ticks, TickTime;
      var t := times[j - 1];
      GridKept(burst, refill, t0, times, j - 1);
      AfterTakesPrefix(b, times, j - 1);
      LastRefillBounds(b, times, j - 1);
      GridStep(AfterTakes(b, times[..j - 1]), t0, if j == 1 then 0 else Ticks(t0, refill, times[j - 2]), t);
    }
  }

  lemma GridStep(x: Bucket, t0: Time, d: int, t: Time)
    requires x.Valid() && x.lastRefill == TickTime(t0, x.refill, d) && x.lastRefill <= t
    ensures AfterTake(x, t).lastRefill == TickTime(t0, x.refill, Ticks(t0, x.refill, t))
  {
    var k := if t - x.lastRefill >= x.refill then (t - x.lastRefill) / x.refill else 0;
    TicksSince(t0, x.refill, d, t);
    LazyIsEager(x, t, k);
    assert x.refill * d + k * x.refill == x.refill * (d + k) by { MulDistributes(d, k, x.refill); }
    hide Refilled;
  }
}
