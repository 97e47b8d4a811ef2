/**
 * IdempotencyManager: a token is registered by writing "locked" under
 * build_key(namespace, token); a second registration of the same token
 * conflicts until the key is released.
 */
module Idempotency {
  import opened Wrappers
  import opened CacheBase

  const DefaultNamespace := "idempotency"
  const DefaultTtl := 60
  const Locked := VText("locked")

  /** register either stores the marker or raises IdempotencyConflict(key). */
  datatype RegisterOutcome = Registered | Conflict(key: string)

  /** How a guarded block ends. */
  datatype GuardOutcome =
    | Rejected(key: string)   // register raised IdempotencyConflict; the block did not run
    | Completed               // the block ran and returned
    | Raised                  // the block raised; the exception reaches the caller

  /** The key a manager uses for a token on a backend with namespace cacheNs. */
  function TokenKey(cacheNs: string, namespace: string, token: string): string
  {
    BuildKey(cacheNs, [PStr(namespace), PStr(token)])
  }

  function RegisterResult(s: Store, key: string): RegisterOutcome
  {
    if key in s.values then Conflict(key) else Registered
  }

  function AfterRegister(s: Store, key: string, ttl: int, now: int): Store
  {
    if key in s.values then s else AfterSet(s, key, Locked, ttl, now)
  }

  /** The store after a guarded block: the token stays on success and is released on failure. */
  function AfterGuard(s: Store, key: string, ttl: int, now: int, raises: bool): Store
  {
    if key in s.values then s
    else if raises then AfterDelete(AfterRegister(s, key, ttl, now), key)
    else AfterRegister(s, key, ttl, now)
  }

  function GuardResult(s: Store, key: string, raises: bool): GuardOutcome
  {
    if key in s.values then Rejected(key) else if raises then Raised else Completed
  }

  // ---------------------------------------------------------------------
  // Properties

  /** Of two sequential registrations of one token the first succeeds and the second conflicts. */
  lemma RegisterTwice(s: Store, key: string, ttl: int, t1: int, t2: int)
    requires key !in s.values
    ensures RegisterResult(s, key) == Registered
    ensures RegisterResult(AfterRegister(s, key, ttl, t1), key) == Conflict(key)
  {
  }

  /** A conflicting registration writes nothing. */
  lemma ConflictWritesNothing(s: Store, key: string, ttl: int, now: int)
    requires RegisterResult(s, key).Conflict?
    ensures AfterRegister(s, key, ttl, now) == s
  {
  }

  /** A fresh registration stores "locked" with the manager's TTL. */
  lemma RegisterStoresMarker(s: Store, key: string, ttl: int, now: int)
    requires RegisterResult(s, key) == Registered
    ensures AfterRegister(s, key, ttl, now).values[key] == Locked
    ensures ttl != 0 ==> AfterRegister(s, key, ttl, now).expiry[key] == now + ttl
  {
  }

  /** After release the token can be registered again, whether or not it was registered. */
  lemma ReleaseThenRegister(s: Store, key: string)
    ensures RegisterResult(AfterDelete(s, key), key) == Registered
  {
  }

  /**
   * On the in-memory backend the token outlives its TTL: check and register
   * use exists, which ignores expiry, so only a get that finds the key
   * expired (or a release) frees it.
   */
  lemma TokenOutlivesTtl(s: Store, key: string, ttl: int, now: int, later: int)
    requires key !in s.values && ttl > 0 && later > now + ttl
    ensures RegisterResult(AfterRegister(s, key, ttl, now), key) == Conflict(key)
    ensures RegisterResult(AfterGet(AfterRegister(s, key, ttl, now), key, later), key) == Registered
  {
  }

  /** A guard releases the token exactly when its block raised, and never hides the exception. */
  lemma GuardKeepsOnSuccessReleasesOnFailure(s: Store, key: string, ttl: int, now: int)
    requires key !in s.values
    ensures key in AfterGuard(s, key, ttl, now, false).values
    ensures GuardResult(s, key, false) == Completed
    ensures key !in AfterGuard(s, key, ttl, now, true).values
    ensures GuardResult(s, key, true) == Raised
    ensures RegisterResult(AfterGuard(s, key, ttl, now, true), key) == Registered
  {
  }

  /** ensure_idempotent uses the same key as a manager with the default namespace. */
  lemma EnsureIdempotentSharesKey(cacheNs: string, token: string)
    ensures BuildKey(cacheNs, [PStr(DefaultNamespace), PStr(token)]) == TokenKey(cacheNs, DefaultNamespace, token)
  {
  }

  // ---------------------------------------------------------------------
  // The manager

  class IdempotencyManager {
    const cache: MemoryCache
    const namespace: string
    const ttl: int

    constructor (cache: MemoryCache, namespace: string, ttl: int)
      ensures this.cache == cache && this.namespace == namespace && this.ttl == ttl
    {
      this.cache := cache;
      this.namespace := namespace;
      this.ttl := ttl;
    }

    function Key(token: string): string
    {
      TokenKey(cache.namespace, namespace, token)
    }

    /** check: true exactly when the token's key exists. */
    method Check(token: string) returns (b: bool)
      ensures b <==> Key(token) in cache.store
    {
      b := cache.Exists(Key(token));
    }

    method Register(token: string, now: int) returns (r: RegisterOutcome)
      modifies cache
      ensures r == RegisterResult(old(cache.Model()), Key(token))
      ensures cache.Model() == AfterRegister(old(cache.Model()), Key(token), ttl, now)
    {
      var key := Key(token);
      var already := cache.Exists(key);
      if already {
        return Conflict(key);
      }
      var _ := cache.Set(key, Locked, ttl, now);
      return Registered;
    }

    /** release deletes the key unconditionally. */
    method Release(token: string)
      modifies cache
      ensures cache.Model() == AfterDelete(old(cache.Model()), Key(token))
    {
      var _ := cache.Delete(Key(token));
    }

    /**
     * `async with guard(token)`: register on entry; on exit release only if
     * the block raised. The block is not part of the model: `raises` says
     * how it ends, and it does not touch the cache.
     */
    method Guard(token: string, now: int, raises: bool) returns (r: GuardOutcome)
      modifies cache
      ensures r == GuardResult(old(cache.Model()), Key(token), raises)
      ensures cache.Model() == AfterGuard(old(cache.Model()), Key(token), ttl, now, raises)
    {
      var registered := Register(token, now);
      if registered.Conflict? {
        return Rejected(registered.key);
      }
      if raises {
        Release(token);
        return Raised;
      }
      return Completed;
    }
  }

  /** ensure_idempotent: register under the fixed "idempotency" namespace of the backend. */
  method EnsureIdempotent(cache: MemoryCache, token: string, now: int, ttl: int) returns (r: RegisterOutcome)
    modifies cache
    ensures r == RegisterResult(old(cache.Model()), TokenKey(cache.namespace, DefaultNamespace, token))
    ensures cache.Model() == AfterRegister(old(cache.Model()), TokenKey(cache.namespace, DefaultNamespace, token), ttl, now)
  {
    var key := cache.Key([PStr(DefaultNamespace), PStr(token)]);
    var already := cache.Exists(key);
    if already {
      return Conflict(key);
    }
    var _ := cache.Set(key, Locked, ttl, now);
    return Registered;
  }
}
