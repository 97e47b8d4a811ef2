/**
 * RateLimiter: a counter per (scope, identifier) that check increments
 * with the window TTL, rejecting once the count exceeds the limit; and
 * allow_once, a marker written under the same key.
 */
module RateLimit {
  import opened Wrappers
  import opened CacheBase

  const DefaultNamespace := "ratelimit"
  const DefaultTtl := 10
  const DefaultLimit := 5
  const OnceMarker := VText("1")

  /** The exceptions check raises: RateLimitExceeded, or the backend's ValueError. */
  datatype LimitError = Exceeded(retryAfter: int, key: string) | Backend(e: CacheError)

  /** How a guarded block ends: stopped by check, or run (and whether it raised). */
  datatype GuardOutcome = Blocked(error: LimitError) | Ran(raised: bool)

  /** What the backend offers as get_ttl: nothing (MemoryCache), a raising call, or a value. */
  datatype TtlProbe = NoGetTtl | GetTtlRaises | GetTtlReturns(remaining: Option<int>)

  /** get_ttl_remaining */
  function TtlRemaining(probe: TtlProbe): Option<int>
  {
    match probe
    case GetTtlReturns(r) => r
    case _ => None
  }

  /** retry_after or self.ttl: the remaining TTL, falling back to the window on None or 0. */
  function RetryAfter(probe: TtlProbe, ttl: int): (r: int)
    ensures (probe.NoGetTtl? || probe.GetTtlRaises?) ==> r == ttl
    ensures probe.GetTtlReturns? && probe.remaining.Some? && probe.remaining.value != 0 ==> r == probe.remaining.value
    ensures probe.GetTtlReturns? && (probe.remaining.None? || probe.remaining.value == 0) ==> r == ttl
  {
    var remaining := TtlRemaining(probe);
    if remaining.Some? && remaining.value != 0 then remaining.value else ttl
  }

  /** The limiter's key for a (scope, identifier) pair on a backend with namespace cacheNs. */
  function LimitKey(cacheNs: string, namespace: string, scope: string, identifier: Part): string
  {
    BuildKey(cacheNs, [PStr(namespace), PStr(scope), PStr(PartText(identifier))])
  }

  /** check on the in-memory backend, which has no get_ttl. */
  function CheckResult(s: Store, key: string, limit: int, ttl: int): Result<(), LimitError>
  {
    match IncrResult(s, key, 1)
    case Failure(e) => Failure(Backend(e))
    case Success(count) =>
      if count > limit then Failure(Exceeded(RetryAfter(NoGetTtl, ttl), key)) else Success(())
  }

  function AfterCheck(s: Store, key: string, ttl: int, now: int): Store
  {
    AfterIncr(s, key, 1, ttl, now)
  }

  function AllowOnceResult(s: Store, key: string): bool
  {
    key !in s.values
  }

  function AfterAllowOnce(s: Store, key: string, ttl: int, now: int): Store
  {
    if key in s.values then s else AfterSet(s, key, OnceMarker, ttl, now)
  }

  // ---------------------------------------------------------------------
  // Properties

  /** The count check would read: 0 for a missing key. */
  function Counter(s: Store, key: string): Option<int>
  {
    if key !in s.values then Some(0) else IntOfValue(s.values[key])
  }

  /** The outcomes of successive checks at the given instants. */
  function Checks(s: Store, key: string, limit: int, ttl: int, times: seq<int>): (outcomes: seq<Result<(), LimitError>>)
    ensures |outcomes| == |times|
    decreases |times|
  {
    if times == [] then []
    else [CheckResult(s, key, limit, ttl)] + Checks(AfterCheck(s, key, ttl, times[0]), key, limit, ttl, times[1..])
  }

  /**
   * Starting from a count of n, the i-th of a run of checks (from 0) passes
   * exactly when n + i + 1 <= limit; the instants do not matter, because the
   * in-memory incr never looks at the recorded expiry.
   */
  lemma {:induction false} ChecksCount(s: Store, key: string, limit: int, ttl: int, times: seq<int>, n: int)
    requires Counter(s, key) == Some(n)
    ensures forall i :: 0 <= i < |times| ==> (Checks(s, key, limit, ttl, times)[i].Success? <==> n + i + 1 <= limit)
    ensures forall i :: 0 <= i < |times| && n + i + 1 > limit ==>
      Checks(s, key, limit, ttl, times)[i] == Failure(Exceeded(ttl, key))
    decreases |times|
  {
    if times != [] {
      var next := AfterCheck(s, key, ttl, times[0]);
      assert IncrResult(s, key, 1) == Success(n + 1);
      assert Counter(next, key) == Some(n + 1);
      ChecksCount(next, key, limit, ttl, times[1..], n + 1);
      var outs := Checks(s, key, limit, ttl, times);
      assert outs[1..] == Checks(next, key, limit, ttl, times[1..]);
    }
  }

  /** With the default limit 5, a fresh counter lets calls 1-5 pass and rejects the 6th. */
  lemma SixthCheckFails(s: Store, key: string, times: seq<int>)
    requires key !in s.values && |times| == 6
    ensures forall i :: 0 <= i < 5 ==> Checks(s, key, DefaultLimit, DefaultTtl, times)[i].Success?
    ensures Checks(s, key, DefaultLimit, DefaultTtl, times)[5] == Failure(Exceeded(DefaultTtl, key))
  {
    ChecksCount(s, key, DefaultLimit, DefaultTtl, times, 0);
  }

  /** A rejected check has still incremented the counter. */
  lemma RejectedCheckCounts(s: Store, key: string, limit: int, ttl: int, now: int, n: int)
    requires Counter(s, key) == Some(n) && n + 1 > limit
    ensures CheckResult(s, key, limit, ttl).Failure?
    ensures AfterCheck(s, key, ttl, now).values[key] == VInt(n + 1)
  {
  }

  /** Every check re-applies the window: the expiry is counted from the latest hit. */
  lemma CheckRestartsWindow(s: Store, key: string, ttl: int, now: int)
    requires Counter(s, key).Some? && ttl != 0
    ensures AfterCheck(s, key, ttl, now).expiry[key] == now + ttl
  {
  }

  /** After reset the next check sees count 1. */
  lemma ResetThenCheck(s: Store, key: string, ttl: int, now: int)
    ensures IncrResult(AfterDelete(s, key), key, 1) == Success(1)
    ensures AfterCheck(AfterDelete(s, key), key, ttl, now).values[key] == VInt(1)
  {
  }

  /** allow_once gives True and then False, and the refusal writes nothing. */
  lemma AllowOnceTwice(s: Store, key: string, ttl: int, t1: int, t2: int)
    requires key !in s.values
    ensures AllowOnceResult(s, key)
    ensures !AllowOnceResult(AfterAllowOnce(s, key, ttl, t1), key)
    ensures AfterAllowOnce(AfterAllowOnce(s, key, ttl, t1), key, ttl, t2) == AfterAllowOnce(s, key, ttl, t1)
  {
  }

  /** allow_once and check share the key: after allow_once's "1" a check counts 2. */
  lemma AllowOnceFeedsCheck(s: Store, key: string, limit: int, ttl: int, now: int)
    requires key !in s.values
    ensures IncrResult(AfterAllowOnce(s, key, ttl, now), key, 1) == Success(2)
  {
    assert Text.ParseInt("1") == Some(1) by {
      assert Text.Strip("1") == "1";
      assert Text.DropUnderscores("1") == "1";
    }
  }

  // ---------------------------------------------------------------------
  // The limiter

  class RateLimiter {
    const cache: MemoryCache
    const namespace: string
    const ttl: int
    const limit: int

    constructor (cache: MemoryCache, namespace: string, ttl: int, limit: int)
      ensures this.cache == cache && this.namespace == namespace
      ensures this.ttl == ttl && this.limit == limit
    {
      this.cache := cache;
      this.namespace := namespace;
      this.ttl := ttl;
      this.limit := limit;
    }

    function Key(scope: string, identifier: Part): string
    {
      LimitKey(cache.namespace, namespace, scope, identifier)
    }

    method Check(scope: string, identifier: Part, now: int) returns (r: Result<(), LimitError>)
      modifies cache
      ensures r == CheckResult(old(cache.Model()), Key(scope, identifier), limit, ttl)
      ensures cache.Model() == AfterCheck(old(cache.Model()), Key(scope, identifier), ttl, now)
    {
      var key := Key(scope, identifier);
      var count := cache.Incr(key, 1, ttl, now);
      if count.Failure? {
        return Failure(Backend(count.error));
      }
      if count.value > limit {
        var retryAfter := GetTtlRemaining(key);
        return Failure(Exceeded(if retryAfter.Some? && retryAfter.value != 0 then retryAfter.value else ttl, key));
      }
      return Success(());
    }

    /** get_ttl_remaining: the in-memory backend has no get_ttl, so there is nothing to report. */
    method GetTtlRemaining(key: string) returns (r: Option<int>)
      ensures r == TtlRemaining(NoGetTtl)
    {
      r := None;
    }

    method Reset(scope: string, identifier: Part)
      modifies cache
      ensures cache.Model() == AfterDelete(old(cache.Model()), Key(scope, identifier))
    {
      var _ := cache.Delete(Key(scope, identifier));
    }

    method AllowOnce(scope: string, identifier: Part, now: int) returns (allowed: bool)
      modifies cache
      ensures allowed == AllowOnceResult(old(cache.Model()), Key(scope, identifier))
      ensures cache.Model() == AfterAllowOnce(old(cache.Model()), Key(scope, identifier), ttl, now)
    {
      var key := Key(scope, identifier);
      var present := cache.Exists(key);
      if present {
        return false;
      }
      var _ := cache.Set(key, OnceMarker, ttl, now);
      return true;
    }

    /**
     * `async with guard(scope, identifier)`: check before the block; the
     * block runs only when the check passed, and its exception (if `raises`)
     * is never suppressed.
     */
    method Guard(scope: string, identifier: Part, now: int, raises: bool) returns (r: GuardOutcome)
      modifies cache
      ensures CheckResult(old(cache.Model()), Key(scope, identifier), limit, ttl).Failure? ==>
        r == Blocked(CheckResult(old(cache.Model()), Key(scope, identifier), limit, ttl).error)
      ensures CheckResult(old(cache.Model()), Key(scope, identifier), limit, ttl).Success? ==> r == Ran(raises)
      ensures cache.Model() == AfterCheck(old(cache.Model()), Key(scope, identifier), ttl, now)
    {
      var checked := Check(scope, identifier, now);
      if checked.Failure? {
        return Blocked(checked.error);
      }
      return Ran(raises);
    }
  }
}
