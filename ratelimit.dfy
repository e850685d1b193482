/** The token-bucket rate limiter (internal/middleware/ratelimit.go).
    The bucket store is the shared Redis hash space in which the limiter's
    script runs as one atomic step; the limiter and its HTTP middleware decide
    from the script's answer and from whether the store could be reached. */
module RateLimit {
  import opened Domain
  import Config

  /** The hash stored under one key: a fractional token count and the time,
      in milliseconds, of the last refill. */
  datatype Bucket = Bucket(tokens: real, lastTime: int)

  /** Every write re-arms this inactivity expiry; expiry itself is not modelled. */
  const BucketExpirySeconds: nat := 60

  const KeyPrefix := "ratelimit:"
  const TooManyRequests: int := 429
  const RateLimitMessage := "Rate limit exceeded. Try again later."

  function Min(a: real, b: real): real {
    if a <= b then a else b
  }

  /** The token count after refilling up to `now`: a key with no hash starts
      as a full bucket last refilled now; otherwise the elapsed seconds times
      the rate are added, and the result is capped at the capacity. */
  function Refill(stored: Option<Bucket>, capacity: real, rate: real, now: int): (tokens: real)
    ensures tokens <= capacity
    ensures stored.None? ==> tokens == capacity
    ensures stored.Some? && tokens < capacity ==>
      tokens == stored.value.tokens + (now - stored.value.lastTime) as real / 1000.0 * rate
    ensures stored.Some? ==>
      tokens <= stored.value.tokens + (now - stored.value.lastTime) as real / 1000.0 * rate
  {
    var b := if stored.Some? then stored.value else Bucket(capacity, now);
    var elapsed := (now - b.lastTime) as real / 1000.0;
    Min(capacity, b.tokens + elapsed * rate)
  }

  /** The script's answer and the hash it writes back. */
  datatype Verdict = Verdict(allowed: bool, bucket: Bucket)

  /** One run of the token-bucket script on the hash stored under a key. */
  function TokenBucket(stored: Option<Bucket>, capacity: real, rate: real, now: int, requested: real): (v: Verdict)
    ensures v.bucket.lastTime == now
    ensures v.allowed <==> Refill(stored, capacity, rate, now) >= requested
    ensures v.bucket.tokens == Refill(stored, capacity, rate, now) - (if v.allowed then requested else 0.0)
  {
    var newTokens := Refill(stored, capacity, rate, now);
    if newTokens >= requested then Verdict(true, Bucket(newTokens - requested, now))
    else Verdict(false, Bucket(newTokens, now))
  }

  /** A well-formed bucket holds between 0 and `capacity` tokens. */
  predicate InRange(stored: Option<Bucket>, capacity: real, now: int) {
    stored.Some? ==> 0.0 <= stored.value.tokens <= capacity && stored.value.lastTime <= now
  }

  /** With a clock that does not run backwards and a non-negative rate, the
      script keeps the stored token count between 0 and the capacity. */
  lemma TokensStayInRange(stored: Option<Bucket>, capacity: real, rate: real, now: int, requested: real)
    requires 0.0 <= capacity && 0.0 <= rate && 0.0 <= requested
    requires InRange(stored, capacity, now)
    ensures 0.0 <= Refill(stored, capacity, rate, now)
    ensures InRange(Some(TokenBucket(stored, capacity, rate, now, requested).bucket), capacity, now)
  {
    if stored.Some? {
      var elapsed := (now - stored.value.lastTime) as real / 1000.0;
      assert 0.0 <= elapsed * rate;
    }
  }

  /** A drained bucket serves a request again once 1/rate seconds have
      passed, as long as it can hold a whole token. */
  lemma RecoversAfterWait(b: Bucket, capacity: real, rate: real, now: int)
    requires 1.0 <= capacity && 0.0 < rate && 0.0 <= b.tokens
    requires (now - b.lastTime) as real * rate >= 1000.0
    ensures TokenBucket(Some(b), capacity, rate, now, 1.0).allowed
  {
    var elapsed := (now - b.lastTime) as real / 1000.0;
    assert elapsed * rate == (now - b.lastTime) as real * rate / 1000.0;
  }

  function Repeat<T>(x: T, n: nat): (s: seq<T>)
    ensures |s| == n && forall i :: 0 <= i < n ==> s[i] == x
  {
    if n == 0 then [] else [x] + Repeat(x, n - 1)
  }

  /** The answers of successive single-token requests on one key, at the
      given times, starting from the stored hash. */
  function Replay(stored: Option<Bucket>, capacity: real, rate: real, times: seq<int>): (answers: seq<bool>)
    ensures |answers| == |times|
    decreases |times|
  {
    if times == [] then []
    else
      var v := TokenBucket(stored, capacity, rate, times[0], 1.0);
      [v.allowed] + Replay(Some(v.bucket), capacity, rate, times[1..])
  }

  lemma {:induction false} DrainAtOneInstant(k: nat, capacity: real, rate: real, now: int)
    requires k as real <= capacity
    ensures Replay(Some(Bucket(k as real, now)), capacity, rate, Repeat(now, k + 1)) == Repeat(true, k) + [false]
  {
    var v := TokenBucket(Some(Bucket(k as real, now)), capacity, rate, now, 1.0);
    assert Refill(Some(Bucket(k as real, now)), capacity, rate, now) == k as real;
    assert Repeat(now, k + 1)[1..] == Repeat(now, k);
    if k > 0 {
      assert v == Verdict(true, Bucket((k - 1) as real, now));
      DrainAtOneInstant(k - 1, capacity, rate, now);
      assert Repeat(true, k) == [true] + Repeat(true, k - 1);
    }
  }

  /** A burst from a fresh key with an integral capacity C, all at one
      instant: exactly the first C requests are allowed and the next is denied. */
  lemma {:induction false} BurstThenDeny(c: nat, rate: real, now: int)
    ensures Replay(None, c as real, rate, Repeat(now, c + 1)) == Repeat(true, c) + [false]
  {
    assert Repeat(now, c + 1)[1..] == Repeat(now, c);
    if c > 0 {
      DrainAtOneInstant(c - 1, c as real, rate, now);
      assert Repeat(now, c) == Repeat(now, (c - 1) + 1);
      assert Repeat(true, c) == [true] + Repeat(true, c - 1);
    }
  }

  /** The Redis keyspace the script runs against: one hash per limited key. */
  class BucketStore {
    var buckets: map<string, Bucket>
    /** The expiry, in seconds, the script last set on each key. */
    var ttl: map<string, nat>

    constructor ()
      ensures buckets == map[] && ttl == map[]
    {
      buckets := map[];
      ttl := map[];
    }

    /** `tokenBucketScript`, run atomically: HMGET, refill, consume or not,
        HMSET and EXPIRE; it answers 1 to allow and 0 to deny. */
    method RunTokenBucket(key: string, capacity: real, rate: real, now: int, requested: real) returns (result: int)
      modifies this
      ensures var v := TokenBucket(if key in old(buckets) then Some(old(buckets)[key]) else None,
                                   capacity, rate, now, requested);
        && buckets == old(buckets)[key := v.bucket]
        && ttl == old(ttl)[key := BucketExpirySeconds]
        && result == if v.allowed then 1 else 0
    {
      ghost var stored := if key in buckets then Some(buckets[key]) else None;
      var tokens, lastTime;
      if key in buckets {
        tokens, lastTime := buckets[key].tokens, buckets[key].lastTime;
      } else {
        tokens, lastTime := capacity, now;
      }
      var elapsed := (now - lastTime) as real / 1000.0;
      var newTokens := Min(capacity, tokens + elapsed * rate);
      assert newTokens == Refill(stored, capacity, rate, now);
      if newTokens >= requested {
        newTokens := newTokens - requested;
        buckets := buckets[key := Bucket(newTokens, now)];
        result := 1;
      } else {
        buckets := buckets[key := Bucket(newTokens, now)];
        result := 0;
      }
      ttl := ttl[key := BucketExpirySeconds];
    }
  }

  /** What the middleware does with a request. */
  datatype Decision = Proceed | Abort(status: int, error: string)

  class RateLimiter {
    const store: BucketStore
    const capacity: int
    const rate: real
    const enabled: bool

    constructor (store: BucketStore, cfg: Config.RateLimitConfig)
      ensures this.store == store
      ensures capacity == cfg.capacity && rate == cfg.rate && enabled == cfg.enabled
    {
      this.store := store;
      capacity := cfg.capacity;
      rate := cfg.rate;
      enabled := cfg.enabled;
    }

    /** The script's verdict for `key` at `now` on the current store. */
    ghost function VerdictFor(key: string, now: int): Verdict
      reads this, store
    {
      TokenBucket(if key in store.buckets then Some(store.buckets[key]) else None,
                  capacity as real, rate, now, 1.0)
    }

    /** `Allow`. `now` is the wall clock in milliseconds and `link` whether the
        script call reached Redis. Disabled: always allowed, store untouched.
        Store error: (false, err), store untouched. Otherwise one token is
        requested and the answer is whether the script returned 1. */
    method Allow(key: string, now: int, link: Outcome) returns (allowed: bool, err: Option<Error>)
      modifies store
      ensures !enabled ==> allowed && err == None && unchanged(store)
      ensures enabled && link.Fail? ==> !allowed && err == Some(link.error) && unchanged(store)
      ensures enabled && link.Ok? ==>
        var v := old(VerdictFor(key, now));
        && err == None && allowed == v.allowed
        && store.buckets == old(store.buckets)[key := v.bucket]
        && store.ttl == old(store.ttl)[key := BucketExpirySeconds]
    {
      if !enabled {
        return true, None;
      }
      if link.Fail? {
        return false, Some(link.error);
      }
      var result := store.RunTokenBucket(key, capacity as real, rate, now, 1.0);
      return result == 1, None;
    }

    /** The decision logic of `Middleware`: the key is "ratelimit:" followed
        by the client address; disabled or store error lets the request
        through (fail open), a denial aborts it with 429. */
    method Middleware(clientIp: string, now: int, link: Outcome) returns (d: Decision)
      modifies store
      ensures !enabled || link.Fail? ==> d == Proceed && unchanged(store)
      ensures enabled && link.Ok? ==>
        var v := old(VerdictFor(KeyPrefix + clientIp, now));
        && store.buckets == old(store.buckets)[KeyPrefix + clientIp := v.bucket]
        && store.ttl == old(store.ttl)[KeyPrefix + clientIp := BucketExpirySeconds]
        && d == if v.allowed then Proceed else Abort(TooManyRequests, RateLimitMessage)
    {
      if !enabled {
        return Proceed;
      }
      var key := KeyPrefix + clientIp;
      var allowed, err := Allow(key, now, link);
      if err.Some? {
        return Proceed;
      }
      if !allowed {
        return Abort(TooManyRequests, RateLimitMessage);
      }
      return Proceed;
    }
  }
}
