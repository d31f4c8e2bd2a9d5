/** The API's in-memory rate limiter: two numbers per key, overwritten on every call. */
module TokenBucket {
  import opened Wrappers
  import opened Decimal

  datatype Bucket = Bucket(tokens: real, lastRefill: real)

  datatype Decision = Decision(allowed: bool, remaining: int, reset: int)

  function Rate(limit: int): real { limit as real / 60.0 }

  /** What the time from one clock reading to another refills. */
  function Gain(from: real, to: real, limit: int): real {
    (to - from) * Rate(limit)
  }

  function Refill(b: Bucket, limit: int, now: real): Bucket {
    Bucket(Min(limit as real, b.tokens + Gain(b.lastRefill, now, limit)), now)
  }

  /** One call of one key: refill under the cap, then spend a token if there is one. */
  function Spend(b: Bucket, limit: int, now: real): Bucket {
    var full := Refill(b, limit, now);
    if full.tokens >= 1.0 then full.(tokens := full.tokens - 1.0) else full
  }

  predicate Allows(b: Bucket, limit: int, now: real) {
    Refill(b, limit, now).tokens >= 1.0
  }

  function DenialReset(now: real): int { Truncate(now + 60.0) }

  function Decide(b: Bucket, limit: int, now: real): Decision {
    if Allows(b, limit, now) then
      assert Rate(limit) > 0.0;
      Decision(true, Truncate(Spend(b, limit, now).tokens), Truncate(now + 1.0 / Rate(limit)))
    else
      Decision(false, 0, DenialReset(now))
  }

  /** The bucket a call finds: a new key starts with `initial` tokens, stamped when it is looked up. */
  function Found(buckets: map<string, Bucket>, key: string, initial: int, created: real): Bucket {
    if key in buckets then buckets[key] else Bucket(initial as real, created)
  }

  datatype Outcome = Pass(remaining: int, reset: int) | TooManyRequests(limit: int, reset: int, retryAfter: int)

  class InMemoryTokenBucket {
    const rateLimitPerMinute: int
    var buckets: map<string, Bucket>

    constructor (rateLimitPerMinute: int)
      ensures buckets == map[] && this.rateLimitPerMinute == rateLimitPerMinute
    {
      this.rateLimitPerMinute := rateLimitPerMinute;
      buckets := map[];
    }

    /** `created` is the clock read by the default factory, `now` the one read by the call itself. */
    method IsAllowed(key: string, limit: int, created: real, now: real)
      returns (allowed: bool, remaining: int, reset: int)
      modifies this`buckets
      ensures var found := Found(old(buckets), key, rateLimitPerMinute, created);
              && buckets == old(buckets)[key := Spend(found, limit, now)]
              && Decision(allowed, remaining, reset) == Decide(found, limit, now)
    {
      var bucket := Found(buckets, key, rateLimitPerMinute, created);
      var elapsed := now - bucket.lastRefill;
      var refill := elapsed * (limit as real / 60.0);
      bucket := bucket.(tokens := Min(limit as real, bucket.tokens + refill));
      bucket := bucket.(lastRefill := now);
      buckets := buckets[key := bucket];
      if bucket.tokens >= 1.0 {
        bucket := bucket.(tokens := bucket.tokens - 1.0);
        buckets := buckets[key := bucket];
        remaining := Truncate(bucket.tokens);
        reset := Truncate(now + 1.0 / (limit as real / 60.0));
        assert buckets == old(buckets)[key := bucket];
        return true, remaining, reset;
      }
      reset := Truncate(bucket.lastRefill + 60.0);
      return false, 0, reset;
    }

    /** The request dependency: 429 with Retry-After when the user's bucket is empty. */
    method RateLimit(sub: string, created: real, now: real, later: real) returns (outcome: Outcome)
      modifies this`buckets
      ensures var key := "rl:" + sub;
              var found := Found(old(buckets), key, rateLimitPerMinute, created);
              var decision := Decide(found, rateLimitPerMinute, now);
              && buckets == old(buckets)[key := Spend(found, rateLimitPerMinute, now)]
              && outcome == (if decision.allowed then Pass(decision.remaining, decision.reset)
                             else TooManyRequests(rateLimitPerMinute, decision.reset,
                                                  RetryAfter(decision.reset, later)))
      ensures outcome.TooManyRequests? ==>
        && outcome.retryAfter >= 0 && Truncate(later) + outcome.retryAfter >= outcome.reset
        && (outcome.retryAfter > 0 ==> Truncate(later) + outcome.retryAfter == outcome.reset)
    {
      var allowed, remaining, reset := IsAllowed("rl:" + sub, rateLimitPerMinute, created, now);
      if !allowed {
        return TooManyRequests(rateLimitPerMinute, reset, RetryAfter(reset, later));
      }
      return Pass(remaining, reset);
    }
  }

  function RetryAfter(reset: int, later: real): int {
    if reset - Truncate(later) >= 0 then reset - Truncate(later) else 0
  }
}

/** The arithmetic of the bucket alone: a counter that gains before every call and is cut at a cap. */
module CappedCounter {
  import opened Decimal

  /** The counter after k calls; each call with a whole token spends one. */
  function Tokens(start: real, cap: real, gains: seq<real>, k: nat): real
    requires k <= |gains|
    decreases k, 0
  {
    if k == 0 then start
    else Level(start, cap, gains, k - 1) - (if Admits(start, cap, gains, k - 1) then 1.0 else 0.0)
  }

  /** What call k finds. */
  function Level(start: real, cap: real, gains: seq<real>, k: nat): real
    requires k < |gains|
    decreases k, 1
  {
    Min(cap, Tokens(start, cap, gains, k) + gains[k])
  }

  predicate Admits(start: real, cap: real, gains: seq<real>, k: nat)
    requires k < |gains|
    decreases k, 2
  {
    Level(start, cap, gains, k) >= 1.0
  }

  /** Admissions among calls i .. k - 1. */
  function Count(start: real, cap: real, gains: seq<real>, i: nat, k: nat): nat
    requires i <= k <= |gains|
  {
    if i == k then 0
    else Count(start, cap, gains, i, k - 1) + (if Admits(start, cap, gains, k - 1) then 1 else 0)
  }

  /** What is gained from call j to call k. */
  function Earned(gains: seq<real>, j: nat, k: nat): real
    requires j <= k < |gains|
  {
    if j == k then 0.0 else Earned(gains, j, k - 1) + gains[k]
  }

  predicate NonNegative(gains: seq<real>) {
    forall i :: 0 <= i < |gains| ==> gains[i] >= 0.0
  }

  /** The stored level is the least slack over all windows of the history that end at call k. */
  lemma {:induction false} LevelIsLeastSlack(start: real, cap: real, gains: seq<real>, k: nat) returns (tight: nat)
    requires start >= cap && NonNegative(gains) && k < |gains|
    ensures forall j :: 0 <= j <= k ==>
      Level(start, cap, gains, k) <= cap + Earned(gains, j, k) - Count(start, cap, gains, j, k) as real
    ensures tight <= k
    ensures Level(start, cap, gains, k) == cap + Earned(gains, tight, k) - Count(start, cap, gains, tight, k) as real
  {
    if k == 0 {
      tight := 0;
    } else {
      tight := LevelIsLeastSlack(start, cap, gains, k - 1);
      if cap <= Tokens(start, cap, gains, k) + gains[k] { tight := k; }
    }
  }

  lemma {:induction false} WindowBound(start: real, cap: real, gains: seq<real>, i: nat, k: nat)
    requires start >= cap >= 0.0 && NonNegative(gains) && i <= k < |gains|
    ensures Count(start, cap, gains, i, k + 1) as real <= cap + Earned(gains, i, k)
    decreases k
  {
    if Admits(start, cap, gains, k) {
      var _ := LevelIsLeastSlack(start, cap, gains, k);
    } else if i < k {
      WindowBound(start, cap, gains, i, k - 1);
    }
  }

  lemma {:induction false} StaysInRange(start: real, cap: real, gains: seq<real>, k: nat)
    requires 0.0 <= start <= cap && NonNegative(gains) && k <= |gains|
    ensures 0.0 <= Tokens(start, cap, gains, k) <= cap
  {
    if k > 0 { StaysInRange(start, cap, gains, k - 1); }
  }

  /** Another policy over the same gains: it spends a token where it chooses to. */
  function PolicyTokens(start: real, cap: real, gains: seq<real>, choice: seq<bool>, k: nat): real
    requires k <= |gains| == |choice|
  {
    if k == 0 then start
    else Min(cap, PolicyTokens(start, cap, gains, choice, k - 1) + gains[k - 1]) - (if choice[k - 1] then 1.0 else 0.0)
  }

  function Chosen(choice: seq<bool>, k: nat): nat
    requires k <= |choice|
  {
    if k == 0 then 0 else Chosen(choice, k - 1) + (if choice[k - 1] then 1 else 0)
  }

  lemma {:induction false} GreedyIsAhead(start: real, cap: real, gains: seq<real>, choice: seq<bool>, k: nat)
    requires k <= |gains| == |choice|
    requires forall i :: 0 <= i < |choice| && choice[i] ==> PolicyTokens(start, cap, gains, choice, i + 1) >= 0.0
    ensures Chosen(choice, k) <= Count(start, cap, gains, 0, k)
    ensures PolicyTokens(start, cap, gains, choice, k)
            <= Tokens(start, cap, gains, k) + (Count(start, cap, gains, 0, k) - Chosen(choice, k)) as real
  {
    if k > 0 {
      GreedyIsAhead(start, cap, gains, choice, k - 1);
      var lead := Count(start, cap, gains, 0, k - 1) - Chosen(choice, k - 1);
      var policy := PolicyTokens(start, cap, gains, choice, k - 1) + gains[k - 1];
      assert policy <= Tokens(start, cap, gains, k - 1) + gains[k - 1] + lead as real;
      if choice[k - 1] && !Admits(start, cap, gains, k - 1) {
        assert PolicyTokens(start, cap, gains, choice, k - 1 + 1) >= 0.0;
        assert Min(cap, policy) >= 1.0;
        assert Level(start, cap, gains, k - 1) < 1.0;
        assert Tokens(start, cap, gains, k - 1) + gains[k - 1] < 1.0;
      }
    }
  }

  function Total(gains: seq<real>, k: nat): real
    requires k <= |gains|
  {
    if k == 0 then 0.0 else Total(gains, k - 1) + gains[k - 1]
  }

  /** Gains under a cap compose: denied calls leave no trace. */
  lemma {:induction false} DeniedLeaveNoTrace(start: real, cap: real, gains: seq<real>, k: nat)
    requires start <= cap && NonNegative(gains) && k < |gains| && Count(start, cap, gains, 0, k) == 0
    ensures Level(start, cap, gains, k) == Min(cap, start + Total(gains, k) + gains[k])
  {
    if k > 0 { DeniedLeaveNoTrace(start, cap, gains, k - 1); }
  }
}

/** One key's calls, compared with a limiter that keeps the whole history and with any other policy. */
module BucketTheorems {
  import opened Decimal
  import opened TokenBucket
  import CappedCounter

  /** The bucket after the first k calls of one key. */
  function After(b: Bucket, limit: int, times: seq<real>, k: nat): Bucket
    requires k <= |times|
  {
    if k == 0 then b else Spend(After(b, limit, times, k - 1), limit, times[k - 1])
  }

  predicate Admitted(b: Bucket, limit: int, times: seq<real>, k: nat)
    requires k < |times|
  {
    Allows(After(b, limit, times, k), limit, times[k])
  }

  /** Admissions among calls i .. k - 1. */
  function Admissions(b: Bucket, limit: int, times: seq<real>, i: nat, k: nat): nat
    requires i <= k <= |times|
  {
    if i == k then 0
    else Admissions(b, limit, times, i, k - 1) + (if Admitted(b, limit, times, k - 1) then 1 else 0)
  }

  predicate Ordered(start: real, times: seq<real>) {
    && (forall i :: 0 <= i < |times| ==> start <= times[i])
    && (forall i, j :: 0 <= i < j < |times| ==> times[i] <= times[j])
  }

  /** What a window from call j to call k allows: the limit plus what the elapsed time refills. */
  function Allowance(limit: int, times: seq<real>, j: nat, k: nat): real
    requires j <= k < |times|
  {
    limit as real + Gain(times[j], times[k], limit)
  }

  /** n admissions in some seconds are within a limit a minute: those beyond the limit take 60 / limit seconds each. */
  predicate WithinLimit(n: nat, limit: int, seconds: real) {
    (n - limit) as real * 60.0 <= seconds * limit as real
  }

  lemma AllowanceIs(n: nat, limit: int, times: seq<real>, j: nat, k: nat)
    requires j <= k < |times|
    ensures n as real <= Allowance(limit, times, j, k) <==> WithinLimit(n, limit, times[k] - times[j])
  {
    GainIs(times[j], times[k], limit);
  }

  lemma GainIs(from: real, to: real, limit: int)
    ensures Gain(from, to, limit) * 60.0 == (to - from) * limit as real
  {
    assert Rate(limit) * 60.0 == limit as real;
    Reassociate(to - from, Rate(limit));
  }

  lemma Reassociate(x: real, y: real)
    ensures x * y * 60.0 == x * (y * 60.0)
  {}

  /** An empty bucket refills in proportion to the time, and exactly the limit in a minute. */
  lemma MinuteRefillsLimit(b: Bucket, limit: int, seconds: real)
    requires limit >= 0 && b.tokens == 0.0 && 0.0 <= seconds <= 60.0
    ensures Refill(b, limit, b.lastRefill + seconds).tokens * 60.0 == seconds * limit as real
    ensures Refill(b, limit, b.lastRefill + 60.0) == Bucket(limit as real, b.lastRefill + 60.0)
  {
    GainIs(b.lastRefill, b.lastRefill + seconds, limit);
    PartOfAMinute(seconds, limit);
    GainIs(b.lastRefill, b.lastRefill + 60.0, limit);
  }

  lemma PartOfAMinute(seconds: real, limit: int)
    requires limit >= 0 && seconds <= 60.0
    ensures seconds * limit as real <= 60.0 * limit as real
  {}

  function GainAt(start: real, limit: int, times: seq<real>, i: nat): real
    requires i < |times|
  {
    Gain(if i == 0 then start else times[i - 1], times[i], limit)
  }

  function Gains(start: real, limit: int, times: seq<real>): (gains: seq<real>)
    ensures |gains| == |times| && forall i :: 0 <= i < |times| ==> gains[i] == GainAt(start, limit, times, i)
  {
    seq(|times|, i requires 0 <= i < |times| => GainAt(start, limit, times, i))
  }

  lemma GainOrder(from: real, a: real, b: real, limit: int)
    requires limit >= 0 && a <= b
    ensures Gain(from, a, limit) <= Gain(from, b, limit)
  {
    MulOrder2(a - from, b - from, Rate(limit));
  }

  lemma MulOrder2(x: real, y: real, rate: real)
    requires rate >= 0.0 && x <= y
    ensures x * rate <= y * rate
  {}

  lemma GainsNonNegative(start: real, limit: int, times: seq<real>)
    requires limit >= 0 && Ordered(start, times)
    ensures CappedCounter.NonNegative(Gains(start, limit, times))
  {
    forall i | 0 <= i < |times| ensures GainAt(start, limit, times, i) >= 0.0 {
      var from := if i == 0 then start else times[i - 1];
      GainOrder(from, from, times[i], limit);
    }
  }

  /** The bucket is the capped counter on the refills between calls. */
  lemma {:induction false} BucketCounts(b: Bucket, limit: int, times: seq<real>, k: nat)
    requires k <= |times|
    ensures After(b, limit, times, k).lastRefill == if k == 0 then b.lastRefill else times[k - 1]
    ensures After(b, limit, times, k).tokens
            == CappedCounter.Tokens(b.tokens, limit as real, Gains(b.lastRefill, limit, times), k)
    ensures k < |times| ==>
      Admitted(b, limit, times, k)
      == CappedCounter.Admits(b.tokens, limit as real, Gains(b.lastRefill, limit, times), k)
  {
    if k > 0 { BucketCounts(b, limit, times, k - 1); }
  }

  lemma {:induction false} AdmissionsCount(b: Bucket, limit: int, times: seq<real>, i: nat, k: nat)
    requires i <= k <= |times|
    ensures Admissions(b, limit, times, i, k)
            == CappedCounter.Count(b.tokens, limit as real, Gains(b.lastRefill, limit, times), i, k)
  {
    if i < k {
      AdmissionsCount(b, limit, times, i, k - 1);
      BucketCounts(b, limit, times, k - 1);
    }
  }

  lemma GainsAdd(a: real, b: real, c: real, limit: int)
    ensures Gain(a, c, limit) == Gain(a, b, limit) + Gain(b, c, limit)
  {
    var r := Rate(limit);
    assert (c - a) * r == (b - a) * r + (c - b) * r;
  }

  /** Refills telescope to the elapsed time. */
  lemma {:induction false} RefillsTelescope(start: real, limit: int, times: seq<real>, j: nat, k: nat)
    requires j <= k < |times|
    ensures limit as real + CappedCounter.Earned(Gains(start, limit, times), j, k) == Allowance(limit, times, j, k)
  {
    if j < k {
      RefillsTelescope(start, limit, times, j, k - 1);
      GainsAdd(times[j], times[k - 1], times[k], limit);
    }
  }

  lemma {:induction false} RefillsAddUp(start: real, limit: int, times: seq<real>, k: nat)
    requires k < |times|
    ensures CappedCounter.Total(Gains(start, limit, times), k) + GainAt(start, limit, times, k)
            == Gain(start, times[k], limit)
  {
    if k > 0 {
      RefillsAddUp(start, limit, times, k - 1);
      GainsAdd(start, times[k - 1], times[k], limit);
    }
  }

  /**
   The sliding-window specification: it keeps every admission and checks every window that ends now, without buckets
   or rates.
   */
  ghost predicate HistoryAdmits(limit: int, times: seq<real>, k: nat)
    requires k < |times|
    decreases k, 1
  {
    forall j: nat :: j <= k ==> WithinLimit(1 + HistoryCount(limit, times, j, k), limit, times[k] - times[j])
  }

  ghost function HistoryCount(limit: int, times: seq<real>, i: nat, k: nat): nat
    requires i <= k <= |times|
    decreases k, 0
  {
    if i == k then 0
    else HistoryCount(limit, times, i, k - 1) + (if HistoryAdmits(limit, times, k - 1) then 1 else 0)
  }

  /** Bucket exactness: two numbers decide every call exactly as the full history does. */
  lemma {:induction false} BucketIsHistory(b: Bucket, limit: int, times: seq<real>, k: nat)
    requires limit >= 1 && b.tokens >= limit as real && Ordered(b.lastRefill, times) && k < |times|
    ensures Admitted(b, limit, times, k) <==> HistoryAdmits(limit, times, k)
    decreases k, 1
  {
    var gains, cap := Gains(b.lastRefill, limit, times), limit as real;
    GainsNonNegative(b.lastRefill, limit, times);
    var tight := CappedCounter.LevelIsLeastSlack(b.tokens, cap, gains, k);
    BucketCounts(b, limit, times, k);
    forall j: nat | j <= k
      ensures HistoryCount(limit, times, j, k) == CappedCounter.Count(b.tokens, cap, gains, j, k)
      ensures Allowance(limit, times, j, k) == cap + CappedCounter.Earned(gains, j, k)
    {
      HistoryCounts(b, limit, times, j, k);
      RefillsTelescope(b.lastRefill, limit, times, j, k);
    }
    forall j: nat | j <= k
      ensures (1 + HistoryCount(limit, times, j, k)) as real <= Allowance(limit, times, j, k)
              <==> WithinLimit(1 + HistoryCount(limit, times, j, k), limit, times[k] - times[j])
    {
      AllowanceIs(1 + HistoryCount(limit, times, j, k), limit, times, j, k);
    }
  }

  lemma {:induction false} HistoryCounts(b: Bucket, limit: int, times: seq<real>, j: nat, k: nat)
    requires limit >= 1 && b.tokens >= limit as real && Ordered(b.lastRefill, times) && j <= k < |times|
    ensures HistoryCount(limit, times, j, k)
            == CappedCounter.Count(b.tokens, limit as real, Gains(b.lastRefill, limit, times), j, k)
    decreases k, 0
  {
    if j < k {
      HistoryCounts(b, limit, times, j, k - 1);
      BucketIsHistory(b, limit, times, k - 1);
      BucketCounts(b, limit, times, k - 1);
    }
  }

  /** Every window of the history admits at most the limit plus what the window refills. */
  lemma WindowBound(b: Bucket, limit: int, times: seq<real>, i: nat, k: nat)
    requires limit >= 1 && b.tokens >= limit as real && Ordered(b.lastRefill, times) && i <= k < |times|
    ensures WithinLimit(Admissions(b, limit, times, i, k + 1), limit, times[k] - times[i])
  {
    AllowanceIs(Admissions(b, limit, times, i, k + 1), limit, times, i, k);
    GainsNonNegative(b.lastRefill, limit, times);
    CappedCounter.WindowBound(b.tokens, limit as real, Gains(b.lastRefill, limit, times), i, k);
    AdmissionsCount(b, limit, times, i, k + 1);
    RefillsTelescope(b.lastRefill, limit, times, i, k);
  }

  /** Another policy over the same calls: it refills and caps alike and spends a token where it chooses to. */
  function PolicyAfter(b: Bucket, limit: int, times: seq<real>, choice: seq<bool>, k: nat): Bucket
    requires k <= |times| == |choice|
  {
    if k == 0 then b
    else
      var full := Refill(PolicyAfter(b, limit, times, choice, k - 1), limit, times[k - 1]);
      if choice[k - 1] then full.(tokens := full.tokens - 1.0) else full
  }

  ghost predicate Solvent(b: Bucket, limit: int, times: seq<real>, choice: seq<bool>)
    requires |times| == |choice|
  {
    forall k :: 0 <= k < |times| && choice[k] ==> PolicyAfter(b, limit, times, choice, k + 1).tokens >= 0.0
  }

  lemma {:induction false} PolicyCounts(b: Bucket, limit: int, times: seq<real>, choice: seq<bool>, k: nat)
    requires k <= |times| == |choice|
    ensures PolicyAfter(b, limit, times, choice, k).lastRefill == if k == 0 then b.lastRefill else times[k - 1]
    ensures PolicyAfter(b, limit, times, choice, k).tokens
            == CappedCounter.PolicyTokens(b.tokens, limit as real, Gains(b.lastRefill, limit, times), choice, k)
  {
    if k > 0 { PolicyCounts(b, limit, times, choice, k - 1); }
  }

  /** Greedy optimality: no solvent policy is ahead of the bucket after any prefix of any call sequence. */
  lemma GreedyIsOptimal(b: Bucket, limit: int, times: seq<real>, choice: seq<bool>, k: nat)
    requires k <= |times| == |choice| && Solvent(b, limit, times, choice)
    ensures CappedCounter.Chosen(choice, k) <= Admissions(b, limit, times, 0, k)
  {
    var gains := Gains(b.lastRefill, limit, times);
    forall i | 0 <= i < |choice| && choice[i]
      ensures CappedCounter.PolicyTokens(b.tokens, limit as real, gains, choice, i + 1) >= 0.0
    {
      PolicyCounts(b, limit, times, choice, i + 1);
    }
    CappedCounter.GreedyIsAhead(b.tokens, limit as real, gains, choice, k);
    AdmissionsCount(b, limit, times, 0, k);
  }

  /** Tokens stay between 0 and the limit on every run. */
  lemma TokensStayInRange(b: Bucket, limit: int, times: seq<real>, k: nat)
    requires limit >= 0 && k <= |times| && Ordered(b.lastRefill, times) && 0.0 <= b.tokens <= limit as real
    ensures 0.0 <= After(b, limit, times, k).tokens <= limit as real
  {
    GainsNonNegative(b.lastRefill, limit, times);
    CappedCounter.StaysInRange(b.tokens, limit as real, Gains(b.lastRefill, limit, times), k);
    BucketCounts(b, limit, times, k);
  }

  /** With only denied calls before it, a call finds what one refill since the start would leave. */
  lemma DeniedLeaveNoTrace(b: Bucket, limit: int, times: seq<real>, k: nat)
    requires limit >= 0 && b.tokens <= limit as real && Ordered(b.lastRefill, times) && k < |times|
    requires Admissions(b, limit, times, 0, k) == 0
    ensures Refill(After(b, limit, times, k), limit, times[k]) == Refill(b, limit, times[k])
  {
    var gains := Gains(b.lastRefill, limit, times);
    GainsNonNegative(b.lastRefill, limit, times);
    AdmissionsCount(b, limit, times, 0, k);
    CappedCounter.DeniedLeaveNoTrace(b.tokens, limit as real, gains, k);
    BucketCounts(b, limit, times, k);
    RefillsAddUp(b.lastRefill, limit, times, k);
  }

  lemma SameInstant(b: Bucket, limit: int)
    requires b.tokens <= limit as real
    ensures Refill(b, limit, b.lastRefill) == b
  {}

  /** k calls at one instant spend the tokens one by one and then change nothing. */
  lemma {:induction false} BurstSpends(b: Bucket, limit: int, times: seq<real>, k: nat)
    requires 0.0 <= b.tokens <= limit as real && k <= |times|
    requires forall i :: 0 <= i < |times| ==> times[i] == b.lastRefill
    ensures var spent := if k <= Truncate(b.tokens) then k else Truncate(b.tokens);
            After(b, limit, times, k) == Bucket(b.tokens - spent as real, b.lastRefill)
  {
    if k > 0 {
      BurstSpends(b, limit, times, k - 1);
      SameInstant(After(b, limit, times, k - 1), limit);
    }
  }

  /** The whole second in which the 60 / limit seconds that refill one token are over. */
  predicate TokenDue(reset: int, now: real, limit: int) {
    Within(reset as real, now, limit as real)
  }

  predicate Within(second: real, now: real, perMinute: real) {
    second * perMinute <= now * perMinute + 60.0 < second * perMinute + perMinute
  }

  /** The reset reported with an admission is when the spent token is back. */
  lemma AdmittedReset(b: Bucket, limit: int, now: real)
    requires Allows(b, limit, now) && now >= 0.0
    ensures Decide(b, limit, now).allowed && TokenDue(Decide(b, limit, now).reset, now, limit)
  {
    assert limit >= 1;
    DueIs(now, Rate(limit), limit as real);
  }

  lemma DueIs(now: real, rate: real, perMinute: real)
    requires now >= 0.0 && rate > 0.0 && rate * 60.0 == perMinute
    ensures Within(Truncate(now + 1.0 / rate) as real, now, perMinute)
  {
    var wait := 1.0 / rate;
    assert wait * rate == 1.0;
    assert wait > 0.0;
    ScaledDue(now, wait, rate, perMinute);
    NotBefore(now + wait, Truncate(now + wait) as real, perMinute, now * perMinute + 60.0);
    NotAfter(now + wait, Truncate(now + wait) as real, perMinute, now * perMinute + 60.0);
  }

  lemma NotBefore(due: real, second: real, perMinute: real, product: real)
    requires second <= due && perMinute > 0.0 && due * perMinute == product
    ensures second * perMinute <= product
  {
    MulOrder2(second, due, perMinute);
  }

  lemma NotAfter(due: real, second: real, perMinute: real, product: real)
    requires due < second + 1.0 && perMinute > 0.0 && due * perMinute == product
    ensures product < second * perMinute + perMinute
  {
    MulLess(due, second + 1.0, perMinute);
    Distribute(second, 1.0, perMinute);
  }

  lemma ScaledDue(now: real, wait: real, rate: real, perMinute: real)
    requires wait * rate == 1.0 && rate * 60.0 == perMinute
    ensures (now + wait) * perMinute == now * perMinute + 60.0
  {
    Reassociate(wait, rate);
    assert wait * perMinute == 60.0;
    Distribute(now, wait, perMinute);
  }

  lemma Distribute(x: real, y: real, factor: real)
    ensures (x + y) * factor == x * factor + y * factor
  {}

  lemma MulLess(x: real, y: real, factor: real)
    requires x < y && factor > 0.0
    ensures x * factor < y * factor
  {}

  /** The reported remaining count is exact: that many more calls get in at the same instant, and no more. */
  lemma RemainingIsExact(b: Bucket, limit: int, now: real, times: seq<real>, k: nat)
    requires Allows(b, limit, now) && k < |times| && forall i :: 0 <= i < |times| ==> times[i] == now
    ensures Admitted(Spend(b, limit, now), limit, times, k) <==> k < Decide(b, limit, now).remaining
  {
    var left := Spend(b, limit, now);
    BurstSpends(left, limit, times, k);
    SameInstant(After(left, limit, times, k), limit);
  }

  /** Whether the reported reset is late enough for the tokens left at the denial. */
  predicate ResetSuffices(tokens: real, limit: int, denial: real) {
    limit >= 1 && tokens + Gain(denial, DenialReset(denial) as real, limit) >= 1.0
  }

  lemma AllowsLater(b: Bucket, limit: int, early: real, now: real)
    requires early <= now && Allows(b, limit, early)
    ensures Allows(b, limit, now)
  {
    GainOrder(b.lastRefill, early, now, limit);
  }

  /** For the call right after the denial. */
  lemma ResetHonestNext(b: Bucket, limit: int, denial: real)
    requires !Allows(b, limit, denial)
    ensures (forall now: real :: now >= DenialReset(denial) as real ==> Allows(Spend(b, limit, denial), limit, now))
            <==> ResetSuffices(Spend(b, limit, denial).tokens, limit, denial)
  {
    var left, reset := Spend(b, limit, denial), DenialReset(denial) as real;
    assert left.lastRefill == denial;
    assert Allows(left, limit, reset) <==> ResetSuffices(left.tokens, limit, denial);
    forall now: real | now >= reset && Allows(left, limit, reset) ensures Allows(left, limit, now) {
      AllowsLater(left, limit, reset, now);
    }
  }

  /** Call k comes at or after the reported reset, and only denials lie between. */
  predicate WaitedOut(left: Bucket, limit: int, denial: real, times: seq<real>, k: nat) {
    && k < |times| && Ordered(denial, times) && Admissions(left, limit, times, 0, k) == 0
    && times[k] >= DenialReset(denial) as real
  }

  /** Every such call is admitted. */
  ghost predicate ResetHonest(left: Bucket, limit: int, denial: real) {
    forall times: seq<real>, k: nat :: WaitedOut(left, limit, denial, times, k) ==> Admitted(left, limit, times, k)
  }

  lemma EnoughIsHonest(b: Bucket, limit: int, denial: real, times: seq<real>, k: nat)
    requires !Allows(b, limit, denial) && ResetSuffices(Spend(b, limit, denial).tokens, limit, denial)
    requires WaitedOut(Spend(b, limit, denial), limit, denial, times, k)
    ensures Admitted(Spend(b, limit, denial), limit, times, k)
  {
    var left := Spend(b, limit, denial);
    assert Allows(left, limit, times[k]) by { ResetHonestNext(b, limit, denial); }
    assert left.tokens <= limit as real && left.lastRefill == denial;
    DeniedLeaveNoTrace(left, limit, times, k);
  }

  lemma HonestIsEnough(b: Bucket, limit: int, denial: real)
    requires !Allows(b, limit, denial) && ResetHonest(Spend(b, limit, denial), limit, denial)
    ensures ResetSuffices(Spend(b, limit, denial).tokens, limit, denial)
  {
    var left, reset := Spend(b, limit, denial), DenialReset(denial) as real;
    ResetIsLate(denial);
    assert WaitedOut(left, limit, denial, [reset], 0);
    assert Admitted(left, limit, [reset], 0);
    forall now: real | now >= reset ensures Allows(left, limit, now) { AllowsLater(left, limit, reset, now); }
    ResetHonestNext(b, limit, denial);
  }

  /**
   The reset reported with a denial is honest if and only if it leaves time to refill the missing part of a token:
   then, and only then, is every call at or after it admitted that follows any number of denials alone.
   */
  lemma ResetHonestExactly(b: Bucket, limit: int, denial: real)
    requires !Allows(b, limit, denial)
    ensures ResetHonest(Spend(b, limit, denial), limit, denial)
            <==> ResetSuffices(Spend(b, limit, denial).tokens, limit, denial)
  {
    var left := Spend(b, limit, denial);
    if ResetSuffices(left.tokens, limit, denial) {
      forall times: seq<real>, k: nat | WaitedOut(left, limit, denial, times, k)
        ensures Admitted(left, limit, times, k)
      {
        EnoughIsHonest(b, limit, denial, times, k);
      }
    }
    if ResetHonest(left, limit, denial) { HonestIsEnough(b, limit, denial); }
  }

  lemma RefillKeepsSign(b: Bucket, limit: int, now: real)
    requires limit >= 0 && b.tokens >= 0.0 && b.lastRefill <= now
    ensures Spend(b, limit, now).tokens >= 0.0
  {
    GainOrder(b.lastRefill, b.lastRefill, now, limit);
  }

  lemma ResetIsLate(denial: real)
    ensures DenialReset(denial) as real - denial > 59.0
  {}

  lemma LongGain(from: real, to: real, limit: int)
    requires to - from > 59.0 && limit >= 2
    ensures Gain(from, to, limit) >= 1.0
  {
    MulOrder2(59.0, to - from, Rate(limit));
    assert 59.0 * Rate(limit) >= 1.0;
  }

  /** For limits of two or more a minute the reset always suffices, despite truncation to whole seconds. */
  lemma ResetSufficesFromTwo(b: Bucket, limit: int, denial: real)
    requires denial >= 0.0 && limit >= 2 && b.lastRefill <= denial && b.tokens >= 0.0
    ensures ResetSuffices(Spend(b, limit, denial).tokens, limit, denial)
  {
    RefillKeepsSign(b, limit, denial);
    ResetIsLate(denial);
    LongGain(denial, DenialReset(denial) as real, limit);
  }

  /** At one request a minute it does not: denied at 0.5 s with an empty bucket, and again at the reset. */
  lemma ResetTooEarlyAtOne()
    ensures var empty := Bucket(0.0, 0.5);
            !Allows(empty, 1, 0.5) && DenialReset(0.5) == 60 && !Allows(Spend(empty, 1, 0.5), 1, 60.0)
  {
    assert (60.5).Floor == 60;
    assert Gain(0.5, 60.0, 1) < 1.0;
  }

  lemma WaitedLongEnough(reset: int, later: real, now: real)
    requires later >= 0.0 && now >= later + RetryAfter(reset, later) as real
    ensures now >= reset as real
  {}

  /** A client that waits Retry-After seconds from the response, with only denials in between, gets in. */
  lemma RetryAfterIsHonest(b: Bucket, limit: int, denial: real, later: real, times: seq<real>, k: nat)
    requires limit >= 2 && b.tokens >= 0.0 && b.lastRefill <= denial && 0.0 <= denial <= later
    requires !Allows(b, limit, denial) && Ordered(denial, times) && k < |times|
    requires Admissions(Spend(b, limit, denial), limit, times, 0, k) == 0
    requires times[k] >= later + RetryAfter(DenialReset(denial), later) as real
    ensures Admitted(Spend(b, limit, denial), limit, times, k)
  {
    ResetSufficesFromTwo(b, limit, denial);
    WaitedLongEnough(DenialReset(denial), later, times[k]);
    EnoughIsHonest(b, limit, denial, times, k);
  }
}

/** Whole histories of the limiter, over all keys. */
module LimiterRuns {
  import opened TokenBucket
  import BucketTheorems

  /** A call: the clock read if its key is new, and the clock read by the call. */
  datatype Call = Call(key: string, created: real, now: real)

  function Next(buckets: map<string, Bucket>, limit: int, initial: int, c: Call): map<string, Bucket> {
    buckets[c.key := Spend(Found(buckets, c.key, initial, c.created), limit, c.now)]
  }

  function Verdicts(buckets: map<string, Bucket>, limit: int, initial: int, calls: seq<Call>): (r: seq<bool>)
    ensures |r| == |calls|
    decreases |calls|
  {
    if calls == [] then []
    else
      [Allows(Found(buckets, calls[0].key, initial, calls[0].created), limit, calls[0].now)]
      + Verdicts(Next(buckets, limit, initial, calls[0]), limit, initial, calls[1..])
  }

  function Kept<T>(xs: seq<T>, keep: seq<bool>): (r: seq<T>)
    requires |xs| == |keep|
  {
    if xs == [] then [] else (if keep[0] then [xs[0]] else []) + Kept(xs[1..], keep[1..])
  }

  lemma {:induction false} KeptSameLength<T, U>(xs: seq<T>, ys: seq<U>, keep: seq<bool>)
    requires |xs| == |ys| == |keep|
    ensures |Kept(xs, keep)| == |Kept(ys, keep)|
  {
    if xs != [] { KeptSameLength(xs[1..], ys[1..], keep[1..]); }
  }

  /** The verdicts on the calls of one key. */
  function OfKey(key: string, calls: seq<Call>, verdicts: seq<bool>): seq<bool>
    requires |calls| == |verdicts|
  {
    if calls == [] then []
    else (if calls[0].key == key then [verdicts[0]] else []) + OfKey(key, calls[1..], verdicts[1..])
  }

  predicate Clocked(from: real, calls: seq<Call>)
    decreases |calls|
  {
    calls != [] ==> from <= calls[0].created <= calls[0].now && Clocked(calls[0].now, calls[1..])
  }

  /** Only denied calls of the key are dropped; any calls of other keys may be. */
  predicate DropsOnlyDenied(key: string, calls: seq<Call>, verdicts: seq<bool>, keep: seq<bool>)
    requires |calls| == |verdicts| == |keep|
  {
    forall i :: 0 <= i < |calls| && calls[i].key == key && !keep[i] ==> !verdicts[i]
  }

  /** The key's bucket in the full run is its bucket in the thinned run, refilled later. */
  predicate RefilledLater(key: string, full: map<string, Bucket>, thin: map<string, Bucket>, limit: int, clock: real) {
    && (key in full <==> key in thin)
    && (key in full ==>
          && thin[key].lastRefill <= full[key].lastRefill <= clock
          && full[key] == Refill(thin[key], limit, full[key].lastRefill))
  }

  lemma RefillsCompose(b: Bucket, limit: int, mid: real, now: real)
    requires limit >= 0 && mid <= now
    ensures Refill(Refill(b, limit, mid), limit, now) == Refill(b, limit, now)
  {
    BucketTheorems.GainsAdd(b.lastRefill, mid, now, limit);
    BucketTheorems.GainOrder(mid, mid, now, limit);
  }

  lemma RefillCapped(b: Bucket, limit: int)
    requires b.tokens <= limit as real
    ensures Refill(b, limit, b.lastRefill) == b
  {}

  lemma NewKeyAdmitted(limit: int, initial: int, created: real, now: real)
    requires limit >= 1 && initial >= limit && created <= now
    ensures Allows(Bucket(initial as real, created), limit, now)
  {
    BucketTheorems.GainOrder(created, created, now, limit);
  }

  /** A key that is not in the table starts full: its first call gets in and leaves all but one token. */
  lemma FirstCallOfKey(buckets: map<string, Bucket>, limit: int, initial: int, c: Call)
    requires c.key !in buckets && limit >= 1 && initial >= limit && c.created <= c.now
    ensures var d := Decide(Found(buckets, c.key, initial, c.created), limit, c.now);
            d.allowed && d.remaining == limit - 1
    ensures Next(buckets, limit, initial, c) == buckets[c.key := Bucket(limit as real - 1.0, c.now)]
  {
    BucketTheorems.GainOrder(c.created, c.created, c.now, limit);
  }

  /** One call, kept or dropped, keeps the two runs of a key related. */
  lemma RelatedStep(key: string, full: map<string, Bucket>, thin: map<string, Bucket>, limit: int, initial: int,
                    clock: real, c: Call, keep: bool)
    requires limit >= 1 && initial >= limit && clock <= c.created <= c.now
    requires RefilledLater(key, full, thin, limit, clock)
    requires c.key == key && !keep ==> !Allows(Found(full, key, initial, c.created), limit, c.now)
    ensures RefilledLater(key, Next(full, limit, initial, c), if keep then Next(thin, limit, initial, c) else thin,
                          limit, c.now)
    ensures c.key == key ==> Allows(Found(full, key, initial, c.created), limit, c.now)
                             == Allows(Found(thin, key, initial, c.created), limit, c.now)
  {
    if c.key == key {
      var b := Found(full, key, initial, c.created);
      if key in full {
        RefillsCompose(thin[key], limit, full[key].lastRefill, c.now);
      } else {
        NewKeyAdmitted(limit, initial, c.created, c.now);
      }
      RefillCapped(Spend(b, limit, c.now), limit);
    }
  }

  lemma {:induction false} RelatedRuns(key: string, full: map<string, Bucket>, thin: map<string, Bucket>,
                                       limit: int, initial: int, clock: real, calls: seq<Call>, keep: seq<bool>)
    requires limit >= 1 && initial >= limit && |keep| == |calls| && Clocked(clock, calls)
    requires RefilledLater(key, full, thin, limit, clock)
    requires DropsOnlyDenied(key, calls, Verdicts(full, limit, initial, calls), keep)
    ensures |Kept(calls, keep)| == |Kept(Verdicts(full, limit, initial, calls), keep)|
    ensures OfKey(key, Kept(calls, keep), Verdicts(thin, limit, initial, Kept(calls, keep)))
            == OfKey(key, Kept(calls, keep), Kept(Verdicts(full, limit, initial, calls), keep))
    decreases |calls|
  {
    KeptSameLength(calls, Verdicts(full, limit, initial, calls), keep);
    if calls != [] {
      var c, rest := calls[0], calls[1..];
      var verdicts := Verdicts(full, limit, initial, calls);
      var fullNext := Next(full, limit, initial, c);
      var thinNext := if keep[0] then Next(thin, limit, initial, c) else thin;
      RelatedStep(key, full, thin, limit, initial, clock, c, keep[0]);
      assert verdicts[1..] == Verdicts(fullNext, limit, initial, rest);
      forall i | 0 <= i < |rest| && rest[i].key == key && !keep[1..][i] ensures !verdicts[1..][i] {
        assert calls[i + 1].key == key && !keep[i + 1];
      }
      RelatedRuns(key, fullNext, thinNext, limit, initial, c.now, rest, keep[1..]);
      var kept, keptVerdicts := Kept(rest, keep[1..]), Kept(verdicts[1..], keep[1..]);
      if keep[0] {
        assert Kept(calls, keep) == [c] + kept && Kept(verdicts, keep) == [verdicts[0]] + keptVerdicts;
        VerdictsCons(thin, limit, initial, c, kept);
        OfKeyCons(key, c, kept, verdicts[0], keptVerdicts);
        OfKeyCons(key, c, kept, Allows(Found(thin, key, initial, c.created), limit, c.now),
                  Verdicts(thinNext, limit, initial, kept));
      } else {
        assert Kept(calls, keep) == kept && Kept(verdicts, keep) == keptVerdicts;
      }
    }
  }

  lemma OfKeyCons(key: string, c: Call, calls: seq<Call>, v: bool, verdicts: seq<bool>)
    requires |calls| == |verdicts|
    ensures OfKey(key, [c] + calls, [v] + verdicts) == (if c.key == key then [v] else []) + OfKey(key, calls, verdicts)
  {
    assert ([c] + calls)[1..] == calls && ([v] + verdicts)[1..] == verdicts;
  }

  lemma VerdictsCons(buckets: map<string, Bucket>, limit: int, initial: int, c: Call, calls: seq<Call>)
    ensures Verdicts(buckets, limit, initial, [c] + calls)
            == [Allows(Found(buckets, c.key, initial, c.created), limit, c.now)]
               + Verdicts(Next(buckets, limit, initial, c), limit, initial, calls)
  {
    assert ([c] + calls)[1..] == calls;
  }

  /** Below one request a minute nothing is ever admitted. */
  lemma {:induction false} NothingBelowOne(key: string, buckets: map<string, Bucket>, limit: int, initial: int,
                                           calls: seq<Call>)
    requires limit < 1
    ensures forall i :: 0 <= i < |calls| ==> !Verdicts(buckets, limit, initial, calls)[i]
    decreases |calls|
  {
    if calls != [] { NothingBelowOne(key, Next(buckets, limit, initial, calls[0]), limit, initial, calls[1..]); }
  }

  lemma {:induction false} SameOfKey(key: string, calls: seq<Call>, a: seq<bool>, b: seq<bool>)
    requires |a| == |b| == |calls| && forall i :: 0 <= i < |a| ==> !a[i] && !b[i]
    ensures OfKey(key, calls, a) == OfKey(key, calls, b)
  {
    if calls != [] { SameOfKey(key, calls[1..], a[1..], b[1..]); }
  }

  lemma {:induction false} KeptAllFalse(xs: seq<bool>, keep: seq<bool>)
    requires |xs| == |keep| && forall i :: 0 <= i < |xs| ==> !xs[i]
    ensures forall i :: 0 <= i < |Kept(xs, keep)| ==> !Kept(xs, keep)[i]
  {
    if xs != [] { KeptAllFalse(xs[1..], keep[1..]); }
  }

  /**
   Denied calls are transparent and keys independent: dropping any denied calls of a key and any calls of
   other keys from a history leaves every remaining verdict of that key as it was.
   */
  lemma DeniedAndOthersAreTransparent(key: string, limit: int, initial: int, calls: seq<Call>, keep: seq<bool>)
    requires initial >= limit && |keep| == |calls| && Clocked(0.0, calls)
    requires DropsOnlyDenied(key, calls, Verdicts(map[], limit, initial, calls), keep)
    ensures |Kept(calls, keep)| == |Kept(Verdicts(map[], limit, initial, calls), keep)|
    ensures OfKey(key, Kept(calls, keep), Verdicts(map[], limit, initial, Kept(calls, keep)))
            == OfKey(key, Kept(calls, keep), Kept(Verdicts(map[], limit, initial, calls), keep))
  {
    var verdicts := Verdicts(map[], limit, initial, calls);
    if limit >= 1 {
      RelatedRuns(key, map[], map[], limit, initial, 0.0, calls, keep);
    } else {
      KeptSameLength(calls, verdicts, keep);
      NothingBelowOne(key, map[], limit, initial, calls);
      NothingBelowOne(key, map[], limit, initial, Kept(calls, keep));
      KeptAllFalse(verdicts, keep);
      SameOfKey(key, Kept(calls, keep), Verdicts(map[], limit, initial, Kept(calls, keep)), Kept(verdicts, keep));
    }
  }
}
