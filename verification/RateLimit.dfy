/** The token bucket of each caller (middleware/rate-limit.ts), with tokens as real numbers. */
module RateLimit {
  const REFILL_INTERVAL_MS: int := 60_000

  datatype Bucket = Bucket(tokens: real, refilledAt: int)

  datatype Answer = Admitted | Limited(retryAfterMs: int)

  function Ceil(x: real): int {
    -((-x).Floor)
  }

  function Refilled(perMin: nat, b: Bucket, now: int): Bucket {
    var elapsed := now - b.refilledAt;
    if elapsed > 0 then
      var tokens := b.tokens + elapsed as real / REFILL_INTERVAL_MS as real * perMin as real;
      Bucket(if tokens < perMin as real then tokens else perMin as real, now)
    else b
  }

  function AnswerOf(perMin: nat, b: Bucket): Answer
    requires perMin >= 1
  {
    if b.tokens < 1.0 then Limited(Ceil((1.0 - b.tokens) / perMin as real * REFILL_INTERVAL_MS as real)) else Admitted
  }

  function Spent(b: Bucket): Bucket {
    if b.tokens < 1.0 then b else b.(tokens := b.tokens - 1.0)
  }

  /** One request on a bucket. */
  function After(perMin: nat, b: Bucket, now: int): Bucket {
    Spent(Refilled(perMin, b, now))
  }

  function Full(perMin: nat, now: int): Bucket {
    Bucket(perMin as real, now)
  }

  class RateLimiter {
    const perMin: nat
    var buckets: map<string, Bucket>

    constructor (perMin: nat)
      ensures this.perMin == perMin && buckets == map[]
    {
      this.perMin, buckets := perMin, map[];
    }

    /** The bucket that a request on the key finds; a new caller has a full one. */
    function BucketOf(key: string, now: int): Bucket
      reads this
    {
      if key in buckets then buckets[key] else Full(perMin, now)
    }

    method Request(key: string, now: int) returns (r: Answer)
      requires perMin >= 1
      modifies this`buckets
      ensures r == AnswerOf(perMin, Refilled(perMin, old(BucketOf(key, now)), now))
      ensures buckets == old(buckets)[key := After(perMin, old(BucketOf(key, now)), now)]
    {
      var cur := BucketOf(key, now);
      var elapsed := now - cur.refilledAt;
      if elapsed > 0 {
        var refill := elapsed as real / REFILL_INTERVAL_MS as real * perMin as real;
        cur := Bucket(if cur.tokens + refill < perMin as real then cur.tokens + refill else perMin as real, now);
      }
      if cur.tokens < 1.0 {
        var retryAfterMs := Ceil((1.0 - cur.tokens) / perMin as real * REFILL_INTERVAL_MS as real);
        buckets := buckets[key := cur];
        return Limited(retryAfterMs);
      }
      cur := cur.(tokens := cur.tokens - 1.0);
      buckets := buckets[key := cur];
      r := Admitted;
    }
  }

  // ---- a sequence of requests on one key ----

  predicate Rising(times: seq<int>) {
    forall i, j :: 0 <= i <= j < |times| ==> times[i] <= times[j]
  }

  /** The bucket before the k-th request. */
  ghost function BucketAt(perMin: nat, times: seq<int>, k: nat): Bucket
    requires 1 <= |times| && k <= |times|
  {
    if k == 0 then Full(perMin, times[0]) else After(perMin, BucketAt(perMin, times, k - 1), times[k - 1])
  }

  ghost predicate AdmittedAt(perMin: nat, times: seq<int>, k: nat)
    requires k < |times|
  {
    Refilled(perMin, BucketAt(perMin, times, k), times[k]).tokens >= 1.0
  }

  /** How many of the requests from the i-th up to, not including, the k-th were admitted. */
  ghost function AdmittedIn(perMin: nat, times: seq<int>, i: nat, k: nat): nat
    requires i <= k <= |times|
  {
    if i == k then 0 else AdmittedIn(perMin, times, i, k - 1) + if AdmittedAt(perMin, times, k - 1) then 1 else 0
  }

  /** Tokens stay between none and the limit, and the bucket remembers the last request. */
  lemma {:induction false} TokensInRange(perMin: nat, times: seq<int>, k: nat)
    requires 1 <= |times| && k <= |times| && Rising(times)
    ensures
      var b := BucketAt(perMin, times, k);
      0.0 <= b.tokens <= perMin as real && b.refilledAt == times[if k == 0 then 0 else k - 1]
  {
    if k > 0 {
      TokensInRange(perMin, times, k - 1);
      var b := BucketAt(perMin, times, k - 1);
      RefillGrows(perMin, b, times[k - 1]);
    }
  }

  /** What passing time can add. */
  function Inflow(perMin: nat, ms: int): real {
    ms as real / REFILL_INTERVAL_MS as real * perMin as real
  }

  lemma RefillGrows(perMin: nat, b: Bucket, now: int)
    requires 0.0 <= b.tokens <= perMin as real && b.refilledAt <= now
    ensures
      var b' := Refilled(perMin, b, now);
      && b.tokens <= b'.tokens <= perMin as real && b'.tokens <= b.tokens + Inflow(perMin, now - b.refilledAt)
      && b'.refilledAt == now
  {
    Scale((now - b.refilledAt) as real / REFILL_INTERVAL_MS as real, perMin as real);
  }

  lemma Scale(x: real, y: real)
    requires x >= 0.0 && y >= 0.0
    ensures x * y >= 0.0
  {
  }

  lemma InflowAdds(perMin: nat, a: int, b: int)
    ensures Inflow(perMin, a) + Inflow(perMin, b) == Inflow(perMin, a + b)
  {
    var x, y := a as real / REFILL_INTERVAL_MS as real, b as real / REFILL_INTERVAL_MS as real;
    assert x + y == (a + b) as real / REFILL_INTERVAL_MS as real;
    Distribute(x, y, perMin as real);
  }

  lemma Distribute(x: real, y: real, k: real)
    ensures x * k + y * k == (x + y) * k
  {
  }

  /** Tokens spent since the i-th request come from what it found and what time has added. */
  lemma {:induction false} Ledger(perMin: nat, times: seq<int>, i: nat, k: nat)
    requires i < k <= |times| && Rising(times)
    ensures
      var start := Refilled(perMin, BucketAt(perMin, times, i), times[i]);
      AdmittedIn(perMin, times, i, k) as real + BucketAt(perMin, times, k).tokens
      <= start.tokens + Inflow(perMin, times[k - 1] - times[i])
  {
    TokensInRange(perMin, times, i);
    if i + 1 < k {
      Ledger(perMin, times, i, k - 1);
      TokensInRange(perMin, times, k - 1);
      RefillGrows(perMin, BucketAt(perMin, times, k - 1), times[k - 1]);
      InflowAdds(perMin, times[k - 2] - times[i], times[k - 1] - times[k - 2]);
    } else {
      assert AdmittedIn(perMin, times, i, i) == 0;
    }
  }

  /** Of all requests within any window of T milliseconds, at most perMin + perMin * T / 60000 are admitted. */
  lemma WindowBound(perMin: nat, times: seq<int>, i: nat, k: nat)
    requires i < k <= |times| && Rising(times)
    ensures AdmittedIn(perMin, times, i, k) as real <= perMin as real + Inflow(perMin, times[k - 1] - times[i])
  {
    Ledger(perMin, times, i, k);
    TokensInRange(perMin, times, i);
    TokensInRange(perMin, times, k);
    RefillGrows(perMin, BucketAt(perMin, times, i), times[i]);
  }

  /** A new caller may make as many requests at once as the limit says. */
  lemma {:induction false} BurstIsAdmitted(perMin: nat, times: seq<int>, k: nat)
    requires k < |times| && k < perMin && forall i :: 0 <= i <= k ==> times[i] == times[0]
    ensures BucketAt(perMin, times, k).tokens == (perMin - k) as real && AdmittedAt(perMin, times, k)
    ensures BucketAt(perMin, times, k).refilledAt == times[0]
  {
    if k > 0 {
      BurstIsAdmitted(perMin, times, k - 1);
    }
  }

  // ---- the advertised wait ----

  /**
    * A refused caller who tries again with no request in between is admitted exactly when the advertised time has
    * passed.
    */
  lemma RetryAfterIsExact(perMin: nat, b: Bucket, now: int, wait: nat)
    requires perMin >= 1 && 0.0 <= b.tokens && b.refilledAt <= now
    requires AnswerOf(perMin, Refilled(perMin, b, now)).Limited?
    ensures
      var later := Refilled(perMin, After(perMin, b, now), now + wait);
      AnswerOf(perMin, later).Admitted? <==> wait >= AnswerOf(perMin, Refilled(perMin, b, now)).retryAfterMs
  {
    var r := Refilled(perMin, b, now);
    assert r.refilledAt == now;
    assert After(perMin, b, now) == r;
    LaterAdmits(perMin, r, wait);
    WaitCovers(perMin as real, 1.0 - r.tokens, wait as real);
    CeilIsLeast((1.0 - r.tokens) / perMin as real * REFILL_INTERVAL_MS as real, wait);
  }

  /** An empty bucket admits again when as many tokens have come in as it misses. */
  lemma LaterAdmits(perMin: nat, r: Bucket, wait: nat)
    requires perMin >= 1 && r.tokens < 1.0
    ensures AnswerOf(perMin, Refilled(perMin, r, r.refilledAt + wait)).Admitted? <==>
      wait as real / 60_000.0 * perMin as real >= 1.0 - r.tokens
  {
    if wait == 0 {
      assert wait as real / 60_000.0 * perMin as real == 0.0;
    }
  }

  lemma WaitCovers(perMin: real, missing: real, wait: real)
    requires perMin >= 1.0
    ensures wait / 60_000.0 * perMin >= missing <==> wait >= missing / perMin * 60_000.0
  {
    var x := missing / perMin;
    assert x * perMin == missing;
    if wait >= x * 60_000.0 {
      MulLeft(perMin, x, wait / 60_000.0);
    } else {
      MulLess(perMin, wait / 60_000.0, x);
    }
  }

  lemma MulLeft(k: real, x: real, y: real)
    requires k >= 0.0 && x <= y
    ensures x * k <= y * k
  {
  }

  lemma MulLess(k: real, x: real, y: real)
    requires k > 0.0 && x < y
    ensures x * k < y * k
  {
  }

  lemma CeilIsLeast(x: real, n: int)
    ensures n as real >= x <==> n >= Ceil(x)
  {
  }
}
