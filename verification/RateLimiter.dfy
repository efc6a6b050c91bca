/** The in-memory rate limiter: one deque of timestamps per key, pruned lazily
    from the front whenever a configured key is checked. */
module RateLimiter {
  import opened Wrappers
  import opened MachineInts

  /** Readings of the monotonic clock, in nanoseconds. */
  type Instant = nat

  const NANOS_PER_SEC: nat := 1_000_000_000
  /** An entry leaves the window at a whole-second age above 60, so at 61 s. */
  const SPAN: nat := 61 * NANOS_PER_SEC

  datatype RateLimitEntry = RateLimitEntry(timestamp: Instant, tokens: u64)

  datatype RateLimitConfig = RateLimitConfig(
    requestsPerMinute: Option<i32>,
    requestsPerDay: Option<i32>,
    tokensPerMinute: Option<i32>,
    tokensPerDay: Option<i32>)
  {
    predicate IsEmpty() {
      && requestsPerMinute.None? && requestsPerDay.None?
      && tokensPerMinute.None? && tokensPerDay.None?
    }
  }

  datatype Rejection =
    | RequestsExceeded(count: i32, limit: i32)
    | TokensExceeded(total: u64, limit: i32)

  /** `now.duration_since(then).as_secs()`: saturates at zero, truncates. */
  function AgeSecs(now: Instant, recorded: Instant): nat {
    if now <= recorded then 0 else (now - recorded) / NANOS_PER_SEC
  }

  predicate Expired(now: Instant, e: RateLimitEntry) {
    AgeSecs(now, e.timestamp) > 60
  }

  function DequeOf(entries: map<string, seq<RateLimitEntry>>, key: string): seq<RateLimitEntry> {
    if key in entries then entries[key] else []
  }

  /** What is left after popping expired entries from the front. */
  function Pruned(now: Instant, q: seq<RateLimitEntry>): seq<RateLimitEntry> {
    if q != [] && Expired(now, q[0]) then Pruned(now, q[1..]) else q
  }

  function SumTokens(q: seq<RateLimitEntry>): nat {
    if q == [] then 0 else SumTokens(q[..|q| - 1]) + q[|q| - 1].tokens
  }

  /** The u64 sum of the tokens; additions wrap. */
  function TokenTotal(q: seq<RateLimitEntry>): u64 {
    SumTokens(q) % TWO_64
  }

  /** The verdict on an already pruned deque, casts included. */
  function Verdict(config: RateLimitConfig, q: seq<RateLimitEntry>): Option<Rejection> {
    if config.requestsPerMinute.Some? && AsI32(|q|) >= config.requestsPerMinute.value then
      Some(RequestsExceeded(AsI32(|q|), config.requestsPerMinute.value))
    else if config.tokensPerMinute.Some? && AsI32(TokenTotal(q)) >= config.tokensPerMinute.value then
      Some(TokensExceeded(TokenTotal(q), config.tokensPerMinute.value))
    else
      None
  }

  /** What the limits mean: both counts, uncut, stay below their limits. */
  predicate WithinLimits(config: RateLimitConfig, q: seq<RateLimitEntry>) {
    && (config.requestsPerMinute.Some? ==> |q| < config.requestsPerMinute.value)
    && (config.tokensPerMinute.Some? ==> SumTokens(q) < config.tokensPerMinute.value)
  }

  lemma ExpiresAtSpan(now: Instant, e: RateLimitEntry)
    ensures Expired(now, e) <==> now >= e.timestamp + SPAN
  {
  }

  /** The sum is the sum: of a join the two sums added, and of one entry its tokens. */
  lemma {:induction false} TokensAddUp(a: seq<RateLimitEntry>, b: seq<RateLimitEntry>)
    ensures SumTokens(a + b) == SumTokens(a) + SumTokens(b)
    ensures forall e :: SumTokens([e]) == e.tokens
  {
    if b == [] {
      assert a + b == a;
    } else {
      TokensAddUp(a, b[..|b| - 1]);
      assert (a + b)[..|a + b| - 1] == a + b[..|b| - 1];
    }
  }

  /** Below 2^31 requests and tokens the casts change nothing: a check passes within the
      limits, rejects for requests from the request limit on and for tokens from the token
      limit on, requests first, and names the limit and what it counted. */
  lemma VerdictIsExact(config: RateLimitConfig, q: seq<RateLimitEntry>)
    requires |q| < TWO_31 && SumTokens(q) < TWO_31
    ensures Verdict(config, q).None? <==> WithinLimits(config, q)
    ensures match Verdict(config, q)
            case None =>
              && (config.requestsPerMinute.Some? ==> |q| < config.requestsPerMinute.value)
              && (config.tokensPerMinute.Some? ==> SumTokens(q) < config.tokensPerMinute.value)
            case Some(RequestsExceeded(count, limit)) =>
              config.requestsPerMinute == Some(limit) && count == |q| && |q| >= limit
            case Some(TokensExceeded(total, limit)) =>
              && (config.requestsPerMinute.Some? ==> |q| < config.requestsPerMinute.value)
              && config.tokensPerMinute == Some(limit) && total == SumTokens(q) && SumTokens(q) >= limit
  {
    assert AsI32(|q|) == |q| && TokenTotal(q) == SumTokens(q) && AsI32(SumTokens(q)) == SumTokens(q);
  }

  class RateLimitStore {
    var entries: map<string, seq<RateLimitEntry>>

    constructor ()
      ensures entries == map[]
    {
      entries := map[];
    }

    /** `now` is the clock reading the caller took before the lock. */
    method CheckRateLimit(now: Instant, keyHash: string, config: RateLimitConfig)
      returns (rejection: Option<Rejection>)
      modifies this
      ensures entries == old(entries)[keyHash := Pruned(now, DequeOf(old(entries), keyHash))]
      ensures rejection == Verdict(config, entries[keyHash])
    {
      var q := DequeOf(entries, keyHash);
      while q != [] && Expired(now, q[0])
        invariant Pruned(now, q) == Pruned(now, DequeOf(old(entries), keyHash))
        decreases |q|
      {
        q := q[1..];
      }
      entries := entries[keyHash := q];

      if config.requestsPerMinute.Some? {
        var limit := config.requestsPerMinute.value;
        var count := AsI32(|q|);
        if count >= limit {
          return Some(RequestsExceeded(count, limit));
        }
      }

      if config.tokensPerMinute.Some? {
        var limit := config.tokensPerMinute.value;
        var total: u64 := 0;
        for i := 0 to |q|
          invariant total == TokenTotal(q[..i])
        {
          assert q[..i + 1][..i] == q[..i];
          total := (total + q[i].tokens) % TWO_64;
        }
        assert q[..|q|] == q;
        if AsI32(total) >= limit {
          return Some(TokensExceeded(total, limit));
        }
      }
      return None;
    }

    /** `now` is read while the lock is held. */
    method RecordRateLimit(now: Instant, keyHash: string, tokens: u64)
      modifies this
      ensures entries == old(entries)[keyHash := DequeOf(old(entries), keyHash) + [RateLimitEntry(now, tokens)]]
    {
      entries := entries[keyHash := DequeOf(entries, keyHash) + [RateLimitEntry(now, tokens)]];
    }
  }
}
