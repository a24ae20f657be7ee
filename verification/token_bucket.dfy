/** `app/services/rate_limit.py`: the token bucket Redis evaluates, over exact reals and one
    server clock. */
module TokenBuckets {
  import opened Text

  /** What `_consume` passes to the script for one kind of bucket. */
  datatype Config = Config(capacity: nat, refillRate: real) {
    ghost predicate Valid() {
      refillRate > 0.0
    }

    /** Seconds after which an untouched key is dropped. */
    function Ttl(): int
      requires refillRate > 0.0
    {
      var fill := (capacity as real / refillRate).Floor;
      if 60 < fill + 60 then fill + 60 else 60
    }
  }

  /** The hash stored under a key. */
  datatype Bucket = Bucket(tokens: real, ts: real)

  datatype Verdict = Verdict(allowed: bool, remaining: real, retryAfter: int)

  function Min(a: real, b: real): real {
    if a < b then a else b
  }

  function Max(a: real, b: real): real {
    if a < b then b else a
  }

  function Ceil(x: real): int {
    -((-x).Floor)
  }

  /** Tokens on hand at `now`; a missing key is a full bucket. */
  function Level(config: Config, stored: Option<Bucket>, now: real): real {
    match stored
    case None => config.capacity as real
    case Some(b) => Min(config.capacity as real, b.tokens + Max(0.0, now - b.ts) * config.refillRate)
  }

  function Decide(config: Config, stored: Option<Bucket>, cost: nat, now: real): Verdict
    requires config.Valid()
  {
    var level := Level(config, stored, now);
    if level >= cost as real then Verdict(true, level - cost as real, 0)
    else Verdict(false, level, Ceil((cost as real - level) / config.refillRate))
  }

  /** The key after a call. */
  function After(config: Config, stored: Option<Bucket>, cost: nat, now: real): Option<Bucket>
    requires config.Valid()
  {
    Some(Bucket(Decide(config, stored, cost, now).remaining, now))
  }

  // ---------------------------------------------------------------------------------------
  // The script, against a keyspace

  class RateLimiter {
    var store: map<string, Bucket>
    var expiresAt: map<string, real>

    ghost predicate Valid()
      reads this
    {
      store.Keys == expiresAt.Keys
    }

    constructor ()
      ensures Valid() && store == map[]
    {
      store, expiresAt := map[], map[];
    }

    /** What the server finds under a key: nothing once its time has passed. */
    function Stored(key: string, now: real): Option<Bucket>
      requires Valid()
      reads this
    {
      if key in store && now < expiresAt[key] then Some(store[key]) else None
    }

    method Consume(key: string, config: Config, cost: nat, now: real) returns (verdict: Verdict)
      requires Valid() && config.Valid()
      modifies this
      ensures Valid()
      ensures verdict == Decide(config, old(Stored(key, now)), cost, now)
      ensures store == old(store)[key := Bucket(verdict.remaining, now)]
      ensures expiresAt == old(expiresAt)[key := now + config.Ttl() as real]
      ensures Stored(key, now) == After(config, old(Stored(key, now)), cost, now)
    {
      var capacity := config.capacity as real;
      var tokens, ts := capacity, now;
      if key in store && now < expiresAt[key] {
        tokens, ts := store[key].tokens, store[key].ts;
      }
      tokens := Min(capacity, tokens + Max(0.0, now - ts) * config.refillRate);
      assert tokens == Level(config, Stored(key, now), now) by {
        assert Max(0.0, now - now) * config.refillRate == 0.0;
      }
      var allowed, retryAfter := false, 0;
      if tokens >= cost as real {
        tokens := tokens - cost as real;
        allowed := true;
      } else {
        retryAfter := Ceil((cost as real - tokens) / config.refillRate);
      }
      store := store[key := Bucket(tokens, now)];
      expiresAt := expiresAt[key := now + config.Ttl() as real];
      verdict := Verdict(allowed, tokens, retryAfter);
    }

    /** The server forgets a key whose TTL has run out, which nobody can tell from then on. */
    method Expire(key: string, now: real)
      requires Valid() && key in store && now >= expiresAt[key]
      modifies this
      ensures Valid() && store == old(store) - {key} && expiresAt == old(expiresAt) - {key}
      ensures forall k, t :: t >= now ==> Stored(k, t) == old(Stored(k, t))
    {
      store, expiresAt := store - {key}, expiresAt - {key};
    }
  }

  // ---------------------------------------------------------------------------------------
  // Runs of one key

  datatype Call = Call(cost: nat, now: real)

  ghost predicate Ordered(calls: seq<Call>) {
    forall i, j :: 0 <= i <= j < |calls| ==> calls[i].now <= calls[j].now
  }

  /** The key after a run that started from `stored`. */
  function Final(config: Config, stored: Option<Bucket>, calls: seq<Call>): Option<Bucket>
    requires config.Valid()
  {
    if calls == [] then stored
    else
      var last := calls[|calls| - 1];
      After(config, Final(config, stored, calls[..|calls| - 1]), last.cost, last.now)
  }

  /** What the last call of a non-empty run is told. */
  function LastVerdict(config: Config, stored: Option<Bucket>, calls: seq<Call>): Verdict
    requires config.Valid() && calls != []
  {
    var last := calls[|calls| - 1];
    Decide(config, Final(config, stored, calls[..|calls| - 1]), last.cost, last.now)
  }

  function VerdictAt(config: Config, stored: Option<Bucket>, calls: seq<Call>, i: nat): Verdict
    requires config.Valid() && i < |calls|
  {
    LastVerdict(config, stored, calls[..i + 1])
  }

  /** Total cost let through by calls `lo` to `hi - 1` of a run. */
  function Admitted(config: Config, stored: Option<Bucket>, calls: seq<Call>, lo: nat, hi: nat): nat
    requires config.Valid() && lo <= hi <= |calls|
  {
    if lo == hi then 0
    else
      Admitted(config, stored, calls, lo, hi - 1) +
      Charged(VerdictAt(config, stored, calls, hi - 1), calls[hi - 1].cost)
  }

  function Charged(verdict: Verdict, cost: nat): nat {
    if verdict.allowed then cost else 0
  }

  ghost predicate InRange(config: Config, stored: Option<Bucket>) {
    stored.Some? ==> 0.0 <= stored.value.tokens <= config.capacity as real
  }

  lemma {:induction false} TokensInRange(config: Config, stored: Option<Bucket>, calls: seq<Call>)
    requires config.Valid() && InRange(config, stored)
    ensures InRange(config, Final(config, stored, calls))
  {
    if calls == [] {
    } else {
      var front := calls[..|calls| - 1];
      TokensInRange(config, stored, front);
      LevelInRange(config, Final(config, stored, front), calls[|calls| - 1].now);
    }
  }

  lemma LevelInRange(config: Config, stored: Option<Bucket>, now: real)
    requires config.Valid() && InRange(config, stored)
    ensures 0.0 <= Level(config, stored, now) <= config.capacity as real
  {
    if stored.Some? {
      NonNegativeProduct(Max(0.0, now - stored.value.ts), config.refillRate);
    }
  }

  lemma NonNegativeProduct(a: real, b: real)
    requires a >= 0.0 && b >= 0.0
    ensures a * b >= 0.0
  {
  }

  function Refill(config: Config, since: real, until: real): real {
    config.refillRate * (until - since)
  }

  lemma RefillAdds(config: Config, a: real, b: real, c: real)
    ensures Refill(config, a, c) == Refill(config, a, b) + Refill(config, b, c) && Refill(config, a, a) == 0.0
  {
    Distribute(config.refillRate, b - a, c - b);
    assert (b - a) + (c - b) == c - a;
    NothingElapsed(config.refillRate, a - a);
  }

  /** From call `lo` on, what is admitted is covered by the level there and the refill since. */
  lemma {:induction false} AdmittedIsCovered(config: Config, stored: Option<Bucket>, calls: seq<Call>,
                                            lo: nat, hi: nat)
    requires config.Valid() && InRange(config, stored) && Ordered(calls)
    requires lo < hi <= |calls|
    ensures var start := Level(config, Final(config, stored, calls[..lo]), calls[lo].now);
            var end := Final(config, stored, calls[..hi]);
            && end.Some? && end.value.ts == calls[hi - 1].now
            && Admitted(config, stored, calls, lo, hi) as real + end.value.tokens
               <= start + Refill(config, calls[lo].now, calls[hi - 1].now)
    decreases hi
  {
    hide Level, Decide, After, Final, VerdictAt, Charged, InRange, Config.Valid, Refill;
    var last := calls[hi - 1];
    FinalStep(config, stored, calls, hi - 1);
    var before, end := Final(config, stored, calls[..hi - 1]), Final(config, stored, calls[..hi]);
    CallSplitsLevel(config, before, last.cost, last.now);
    var charged := Charged(VerdictAt(config, stored, calls, hi - 1), last.cost);
    var earlier := Admitted(config, stored, calls, lo, hi - 1);
    assert Admitted(config, stored, calls, lo, hi) == earlier + charged;
    if lo == hi - 1 {
      assert earlier == 0;
      RefillAdds(config, last.now, last.now, last.now);
    } else {
      AdmittedIsCovered(config, stored, calls, lo, hi - 1);
      LevelSinceLast(config, before.value, last.now);
      RefillAdds(config, calls[lo].now, calls[hi - 2].now, last.now);
    }
  }

  lemma NothingElapsed(rate: real, elapsed: real)
    requires elapsed == 0.0
    ensures rate * elapsed == 0.0
  {
  }

  lemma {:induction false} FinalStep(config: Config, stored: Option<Bucket>, calls: seq<Call>, i: nat)
    requires config.Valid() && i < |calls|
    ensures var before := Final(config, stored, calls[..i]);
            && Final(config, stored, calls[..i + 1]) == After(config, before, calls[i].cost, calls[i].now)
            && VerdictAt(config, stored, calls, i) == Decide(config, before, calls[i].cost, calls[i].now)
  {
    hide After, Decide;
    assert calls[..i + 1][..i] == calls[..i];
  }

  /** A call moves tokens from the bucket to the caller and loses none. */
  lemma CallSplitsLevel(config: Config, stored: Option<Bucket>, cost: nat, now: real)
    requires config.Valid()
    ensures var after := After(config, stored, cost, now);
            && after.Some? && after.value.ts == now
            && Charged(Decide(config, stored, cost, now), cost) as real + after.value.tokens
               == Level(config, stored, now)
  {
    hide Level;
  }

  lemma LevelSinceLast(config: Config, bucket: Bucket, now: real)
    requires bucket.ts <= now
    ensures Level(config, Some(bucket), now)
         <= bucket.tokens + Refill(config, bucket.ts, now)
  {
  }

  lemma Distribute(r: real, a: real, b: real)
    ensures r * (a + b) == r * a + r * b
  {
  }

  /** The window bound: between any two calls, at most a full bucket plus the refill of the time
      between them is let through. */
  lemma {:induction false} WindowBound(config: Config, calls: seq<Call>, lo: nat, hi: nat)
    requires config.Valid() && Ordered(calls) && lo < hi <= |calls|
    ensures Admitted(config, None, calls, lo, hi) as real
         <= config.capacity as real + config.refillRate * (calls[hi - 1].now - calls[lo].now)
  {
    hide *;
    InRangeMeans(config, None);
    AdmittedIsCovered(config, None, calls, lo, hi);
    TokensInRange(config, None, calls[..lo]);
    TokensInRange(config, None, calls[..hi]);
    InRangeMeans(config, Final(config, None, calls[..hi]));
    LevelInRange(config, Final(config, None, calls[..lo]), calls[lo].now);
    RefillIs(config, calls[lo].now, calls[hi - 1].now);
  }

  lemma InRangeMeans(config: Config, stored: Option<Bucket>)
    ensures InRange(config, None)
    ensures InRange(config, stored) && stored.Some? ==> stored.value.tokens >= 0.0
  {
  }

  lemma RefillIs(config: Config, since: real, until: real)
    ensures Refill(config, since, until) == config.refillRate * (until - since)
  {
  }

  // ---------------------------------------------------------------------------------------
  // The retry hint

  /** For a cost the bucket could ever hold, a refused request is told the least whole number of
      seconds after which it would be admitted if nobody else came; for a larger cost no wait is
      long enough. */
  lemma {:induction false} RetryHintIsExact(config: Config, stored: Option<Bucket>, cost: nat, now: real, wait: nat)
    requires config.Valid() && InRange(config, stored)
    requires !Decide(config, stored, cost, now).allowed
    ensures var hint := Decide(config, stored, cost, now).retryAfter;
            var after := After(config, stored, cost, now);
            && 1 <= hint
            && (Decide(config, after, cost, now + wait as real).allowed <==>
                cost <= config.capacity && hint <= wait)
  {
    LevelInRange(config, stored, now);
    var level := Level(config, stored, now);
    var after := After(config, stored, cost, now);
    var missing := cost as real - level;
    assert Level(config, after, now + wait as real)
        == Min(config.capacity as real, level + wait as real * config.refillRate);
    CeilIsLeast(missing, config.refillRate, wait);
    PositiveCeil(missing, config.refillRate);
  }

  lemma CeilIsLeast(x: real, r: real, n: int)
    requires r > 0.0
    ensures Ceil(x / r) <= n <==> x <= n as real * r
  {
    var q := x / r;
    assert q * r == x;
    if q <= n as real {
      NonNegativeProduct(n as real - q, r);
    } else {
      PositiveProduct(q - n as real, r);
    }
  }

  lemma PositiveProduct(a: real, b: real)
    requires a > 0.0 && b > 0.0
    ensures a * b > 0.0
  {
  }

  lemma PositiveCeil(x: real, r: real)
    requires x > 0.0 && r > 0.0
    ensures Ceil(x / r) >= 1
  {
    CeilIsLeast(x, r, 0);
  }

  // ---------------------------------------------------------------------------------------
  // And nothing more is refused

  /** What the window from call `lo` to call `n` leaves for call `n`. */
  function Allowance(config: Config, calls: seq<Call>, lo: nat, n: nat): real
    requires config.Valid() && lo <= n < |calls|
  {
    config.capacity as real + Refill(config, calls[lo].now, calls[n].now) - Admitted(config, None, calls, lo, n) as real
  }

  lemma AllowanceStep(config: Config, calls: seq<Call>, lo: nat, n: nat)
    requires config.Valid() && lo <= n && n + 1 < |calls|
    ensures Allowance(config, calls, lo, n + 1) == Allowance(config, calls, lo, n)
              + Refill(config, calls[n].now, calls[n + 1].now)
              - Charged(VerdictAt(config, None, calls, n), calls[n].cost) as real
  {
    hide VerdictAt, Charged, Refill;
    RefillAdds(config, calls[lo].now, calls[n].now, calls[n + 1].now);
  }

  lemma AllowanceOfNothing(config: Config, calls: seq<Call>, n: nat)
    requires config.Valid() && n < |calls|
    ensures Allowance(config, calls, n, n) == config.capacity as real
  {
    hide Refill;
    RefillAdds(config, calls[n].now, calls[n].now, calls[n].now);
  }

  /** What is on hand before call `n`. */
  function OnHand(config: Config, calls: seq<Call>, n: nat): real
    requires config.Valid() && n < |calls|
  {
    Level(config, Final(config, None, calls[..n]), calls[n].now)
  }

  lemma OnHandIs(config: Config, calls: seq<Call>, n: nat)
    requires config.Valid() && n < |calls|
    ensures OnHand(config, calls, n) == Level(config, Final(config, None, calls[..n]), calls[n].now)
  {
    hide Level, Final;
  }

  lemma LevelOf(config: Config, bucket: Bucket, now: real)
    requires bucket.ts <= now
    ensures Level(config, Some(bucket), now)
         == Min(config.capacity as real, bucket.tokens + Refill(config, bucket.ts, now))
  {
  }

  lemma MinIs(a: real, b: real)
    ensures Min(a, b) <= a && Min(a, b) <= b && (Min(a, b) == a || Min(a, b) == b)
  {
  }

  lemma InOrder(calls: seq<Call>, n: nat)
    requires Ordered(calls) && n + 1 < |calls|
    ensures calls[n].now <= calls[n + 1].now
  {
  }

  lemma OnHandStep(config: Config, calls: seq<Call>, n: nat)
    requires config.Valid() && Ordered(calls) && n + 1 < |calls|
    ensures var refilled := OnHand(config, calls, n) - Charged(VerdictAt(config, None, calls, n), calls[n].cost) as real
                            + Refill(config, calls[n].now, calls[n + 1].now);
            OnHand(config, calls, n + 1) == Min(config.capacity as real, refilled)
  {
    hide *;
    FinalStep(config, None, calls, n);
    CallSplitsLevel(config, Final(config, None, calls[..n]), calls[n].cost, calls[n].now);
    InOrder(calls, n);
    LevelOf(config, Final(config, None, calls[..n + 1]).value, calls[n + 1].now);
    OnHandIs(config, calls, n);
    OnHandIs(config, calls, n + 1);
  }

  lemma FullAtFirst(config: Config, calls: seq<Call>)
    requires config.Valid() && calls != []
    ensures OnHand(config, calls, 0) == config.capacity as real
  {
    assert calls[..0] == [];
  }

  /** What is on hand is what the tightest of all windows leaves. */
  lemma {:induction false} OnHandIsTightest(config: Config, calls: seq<Call>, n: nat)
    requires config.Valid() && Ordered(calls) && n < |calls|
    ensures forall lo :: 0 <= lo <= n ==> OnHand(config, calls, n) <= Allowance(config, calls, lo, n)
    ensures exists lo :: 0 <= lo <= n && OnHand(config, calls, n) == Allowance(config, calls, lo, n)
  {
    hide *;
    AllowanceOfNothing(config, calls, n);
    if n == 0 {
      FullAtFirst(config, calls);
    } else {
      OnHandIsTightest(config, calls, n - 1);
      OnHandStep(config, calls, n - 1);
      var added := Refill(config, calls[n - 1].now, calls[n].now);
      var taken := Charged(VerdictAt(config, None, calls, n - 1), calls[n - 1].cost) as real;
      MinIs(config.capacity as real, OnHand(config, calls, n - 1) - taken + added);
      forall lo | 0 <= lo <= n
        ensures OnHand(config, calls, n) <= Allowance(config, calls, lo, n)
      {
        if lo < n {
          AllowanceStep(config, calls, lo, n - 1);
        }
      }
      var lo :| 0 <= lo <= n - 1 && OnHand(config, calls, n - 1) == Allowance(config, calls, lo, n - 1);
      AllowanceStep(config, calls, lo, n - 1);
      assert OnHand(config, calls, n) == Allowance(config, calls, n, n)
          || OnHand(config, calls, n) == Allowance(config, calls, lo, n);
    }
  }

  lemma RefusedBelowCost(config: Config, calls: seq<Call>, n: nat)
    requires config.Valid() && n < |calls|
    ensures VerdictAt(config, None, calls, n).allowed <==> OnHand(config, calls, n) >= calls[n].cost as real
  {
    FinalStep(config, None, calls, n);
    hide Final, VerdictAt, Level;
  }

  lemma AllowanceIs(config: Config, calls: seq<Call>, lo: nat, n: nat)
    requires config.Valid() && lo <= n < |calls|
    ensures Allowance(config, calls, lo, n) < calls[n].cost as real <==>
              Admitted(config, None, calls, lo, n) as real + calls[n].cost as real
              > config.capacity as real + config.refillRate * (calls[n].now - calls[lo].now)
  {
    hide Admitted;
  }

  /** The converse of the window bound: a call is refused only when letting it through would break
      the bound for some window that ends with it. Together they fix every verdict of a run. */
  lemma {:induction false} RefusedExactlyWhen(config: Config, calls: seq<Call>, n: nat)
    requires config.Valid() && Ordered(calls) && n < |calls|
    ensures !VerdictAt(config, None, calls, n).allowed <==>
              exists lo :: 0 <= lo <= n &&
                Admitted(config, None, calls, lo, n) as real + calls[n].cost as real
                > config.capacity as real + config.refillRate * (calls[n].now - calls[lo].now)
  {
    hide *;
    OnHandIsTightest(config, calls, n);
    RefusedBelowCost(config, calls, n);
    forall lo | 0 <= lo <= n
      ensures Allowance(config, calls, lo, n) < calls[n].cost as real <==>
              Admitted(config, None, calls, lo, n) as real + calls[n].cost as real
              > config.capacity as real + config.refillRate * (calls[n].now - calls[lo].now)
    {
      AllowanceIs(config, calls, lo, n);
    }
    var tightest :| 0 <= tightest <= n && OnHand(config, calls, n) == Allowance(config, calls, tightest, n);
    assert Allowance(config, calls, tightest, n) < calls[n].cost as real <==>
             Admitted(config, None, calls, tightest, n) as real + calls[n].cost as real
             > config.capacity as real + config.refillRate * (calls[n].now - calls[tightest].now);
  }

  // ---------------------------------------------------------------------------------------
  // The TTL cannot be observed

  /** The key as a server that may drop it sees it: `drops[i]` says whether the key had gone by
      the time of call `i`. */
  function FinalDropping(config: Config, calls: seq<Call>, drops: seq<bool>): Option<Bucket>
    requires config.Valid() && |drops| == |calls|
    decreases |calls|, 0
  {
    if calls == [] then None
    else
      var n := |calls| - 1;
      After(config, Found(config, calls[..n], drops[..n], drops[n]), calls[n].cost, calls[n].now)
  }

  function Found(config: Config, calls: seq<Call>, drops: seq<bool>, dropped: bool): Option<Bucket>
    requires config.Valid() && |drops| == |calls|
    decreases |calls|, 1
  {
    if dropped then None else FinalDropping(config, calls, drops)
  }

  /** A key is only dropped once nothing has touched it for its whole TTL. */
  ghost predicate DropsAreDue(config: Config, calls: seq<Call>, drops: seq<bool>)
    requires config.Valid()
  {
    && |drops| == |calls|
    && forall i :: 0 < i < |calls| && drops[i] ==>
         calls[i].now >= calls[i - 1].now + config.Ttl() as real
  }

  /** An idle bucket is full again by the time its key may be dropped. */
  lemma FullAtTtl(config: Config, bucket: Bucket, now: real)
    requires config.Valid() && 0.0 <= bucket.tokens <= config.capacity as real
    requires now >= bucket.ts + config.Ttl() as real
    ensures Level(config, Some(bucket), now) == Level(config, None, now)
  {
    var q := config.capacity as real / config.refillRate;
    assert q * config.refillRate == config.capacity as real;
    var elapsed := now - bucket.ts;
    assert elapsed >= q;
    NonNegativeProduct(elapsed - q, config.refillRate);
  }

  /** A key is kept a minute longer than the whole seconds an empty bucket takes to fill. */
  lemma TtlIsFillTime(config: Config, whole: int)
    requires config.Valid() && config.Ttl() == whole + 60
    ensures 0 <= whole
    ensures whole as real * config.refillRate <= config.capacity as real
    ensures config.capacity as real < (whole as real + 1.0) * config.refillRate
  {
    var capacity, rate := config.capacity as real, config.refillRate;
    NonNegativeQuotient(capacity, rate);
    assert whole as real <= capacity / rate < whole as real + 1.0;
    hide *;
    FillsBetween(capacity, rate, whole as real, whole as real + 1.0);
  }

  lemma NonNegativeQuotient(a: real, rate: real)
    requires a >= 0.0 && rate > 0.0
    ensures a / rate >= 0.0
  {
    var q := a / rate;
    assert q * rate == a;
    if q < 0.0 {
      PositiveProduct(-q, rate);
    }
  }

  lemma FillsBetween(a: real, rate: real, low: real, high: real)
    requires rate > 0.0 && low <= a / rate < high
    ensures low * rate <= a && a < high * rate
  {
    var q := a / rate;
    assert q * rate == a;
    MoreThan(q, high, rate);
    NotMoreThan(low, q, rate);
  }

  lemma NotMoreThan(a: real, b: real, rate: real)
    requires a <= b && rate > 0.0
    ensures a * rate <= b * rate
  {
    if a < b {
      MoreThan(a, b, rate);
    }
  }

  lemma MoreThan(a: real, b: real, rate: real)
    requires a < b && rate > 0.0
    ensures a * rate < b * rate
  {
    PositiveProduct(b - a, rate);
    assert (b - a) * rate == b * rate - a * rate;
  }

  /** Every call of a run is told the same whether or not idle keys are dropped. */
  lemma {:induction false} TtlIsUnobservable(config: Config, calls: seq<Call>, drops: seq<bool>)
    requires config.Valid() && Ordered(calls) && DropsAreDue(config, calls, drops)
    ensures FinalDropping(config, calls, drops) == Final(config, None, calls)
    ensures forall i :: 0 <= i < |calls| ==>
              ToldAt(config, calls, drops, i) == VerdictAt(config, None, calls, i)
  {
    hide Level, Decide, After;
    if calls == [] {
    } else {
      var n := |calls| - 1;
      TtlIsUnobservable(config, calls[..n], drops[..n]);
      DroppedIsFull(config, calls, drops);
      FinalStep(config, None, calls, n);
      assert calls[..n + 1] == calls;
      forall i | 0 <= i < n
        ensures ToldAt(config, calls, drops, i) == VerdictAt(config, None, calls, i)
      {
        assert ToldAt(config, calls, drops, i) == ToldAt(config, calls[..n], drops[..n], i) by {
          assert calls[..n][..i] == calls[..i] && drops[..n][..i] == drops[..i];
        }
        assert VerdictAt(config, None, calls, i) == VerdictAt(config, None, calls[..n], i) by {
          assert calls[..n][..i + 1] == calls[..i + 1];
        }
      }
    }
  }

  /** What call `i` is told by a server that drops keys. */
  function ToldAt(config: Config, calls: seq<Call>, drops: seq<bool>, i: nat): Verdict
    requires config.Valid() && |drops| == |calls| && i < |calls|
  {
    Decide(config, Found(config, calls[..i], drops[..i], drops[i]), calls[i].cost, calls[i].now)
  }

  lemma {:induction false} DroppedIsFull(config: Config, calls: seq<Call>, drops: seq<bool>)
    requires config.Valid() && Ordered(calls) && DropsAreDue(config, calls, drops) && calls != []
    requires var n := |calls| - 1; FinalDropping(config, calls[..n], drops[..n]) == Final(config, None, calls[..n])
    ensures var n := |calls| - 1;
            var found := Found(config, calls[..n], drops[..n], drops[n]);
            var kept := Final(config, None, calls[..n]);
            && Decide(config, found, calls[n].cost, calls[n].now)
            == Decide(config, kept, calls[n].cost, calls[n].now)
            && After(config, found, calls[n].cost, calls[n].now)
            == After(config, kept, calls[n].cost, calls[n].now)
  {
    hide Level;
    var n := |calls| - 1;
    var kept := Final(config, None, calls[..n]);
    if drops[n] && n > 0 {
      TokensInRange(config, None, calls[..n]);
      FinalStep(config, None, calls, n - 1);
      FullAtTtl(config, kept.value, calls[n].now);
    }
  }
}
