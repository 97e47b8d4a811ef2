/**
 * UserCache: a user's short profile and verified WebApp sessions, kept in
 * the cache backend under build_key(namespace, "profile", user_id) and
 * build_key(namespace, "session", session_hash).
 */
module UserCache {
  import opened Wrappers
  import opened CacheBase
  import opened CacheDocs

  const DefaultNamespace := "users"
  const DefaultTtlProfile := 600
  const DefaultTtlSession := 900

  function ProfileKey(backend: string, ns: string, userId: string): string
  {
    BuildKey(backend, [PStr(ns), PStr("profile"), PStr(userId)])
  }

  function SessionKey(backend: string, ns: string, sessionHash: string): string
  {
    BuildKey(backend, [PStr(ns), PStr("session"), PStr(sessionHash)])
  }

  lemma ProfileKeyIsNotSessionKey(backend: string, ns: string, userId: string, sessionHash: string)
    ensures ProfileKey(backend, ns, userId) != SessionKey(backend, ns, sessionHash)
  {
    BuildKeysDifferInSecondPart(backend, ns, "profile", [PStr(userId)], "session", [PStr(sessionHash)]);
    assert [PStr(ns), PStr("profile")] + [PStr(userId)] == [PStr(ns), PStr("profile"), PStr(userId)];
    assert [PStr(ns), PStr("session")] + [PStr(sessionHash)] == [PStr(ns), PStr("session"), PStr(sessionHash)];
  }

  /** The document cache_session stores. */
  function SessionDoc(userId: string, data: map<string, Json>): (j: Json)
    ensures j.JObj? && Truthy(j) && j.fields.Keys == {"user_id", "data"}
    ensures j.fields["user_id"] == JStr(userId) && j.fields["data"] == JObj(data)
  {
    var fields := map["user_id" := JStr(userId), "data" := JObj(data)];
    assert "user_id" in fields;
    JObj(fields)
  }

  /** `profile.get("role") if profile else None`; None is JNull. */
  function RoleOf(profile: Option<Json>): Result<Json, CacheError>
  {
    if profile.None? || !Truthy(profile.value) then Success(JNull)
    else FieldOr(profile.value, "role", JNull)
  }

  /** `role == "admin"` */
  function IsAdminOf(profile: Option<Json>): Result<bool, CacheError>
  {
    match RoleOf(profile)
    case Failure(e) => Failure(e)
    case Success(role) => Success(role == JStr("admin"))
  }

  /**
   * `profile is not None and profile.get("status") == "active"`: a decoded
   * null is None to Python, while an empty profile is still asked.
   */
  function IsActiveOf(profile: Option<Json>): Result<bool, CacheError>
  {
    if profile.None? || profile.value == JNull then Success(false)
    else match FieldOr(profile.value, "status", JNull)
      case Failure(e) => Failure(e)
      case Success(status) => Success(status == JStr("active"))
  }

  /** get_summary's dict: the short form when no profile is cached. */
  datatype ProfileSummary =
    | Short(userId: string)
    | Full(id: Json, username: Json, role: Json, balance: Json, isActive: bool)

  function SummaryOf(userId: string, profile: Option<Json>): Result<ProfileSummary, CacheError>
  {
    if profile.None? || !Truthy(profile.value) then Success(Short(userId))
    else if !profile.value.JObj? then Failure(AttributeError)
    else
      var f := profile.value.fields;
      var get := (k: string) => if k in f then f[k] else JNull;
      Success(Full(get("id"), get("username"), get("role"), get("balance"), get("status") == JStr("active")))
  }

  /** An exception raised by update_balance_in_cache, and the store after it. */
  datatype BalanceUpdate = BalanceUpdate(error: Option<CacheError>, store: Store)

  /**
   * update_balance_in_cache: with no (or a falsy) profile nothing is written;
   * otherwise the profile's balance is replaced and the profile set again.
   */
  function UpdateBalance(s: Store, key: string, newBalance: real, ttl: int, now: int): BalanceUpdate
  {
    var s1 := AfterGet(s, key, now);
    match ReadDoc(s, key, now)
    case Failure(e) => BalanceUpdate(Some(e), s1)
    case Success(None) => BalanceUpdate(None, s1)
    case Success(Some(p)) =>
      if !Truthy(p) then BalanceUpdate(None, s1)
      else if !p.JObj? then BalanceUpdate(Some(TypeError), s1)
      else BalanceUpdate(None, AfterSet(s1, key, ToJson(JObj(p.fields["balance" := JNum(newBalance)])), ttl, now))
  }

  // ---------------------------------------------------------------------
  // Properties

  /**
   * Within the TTL a profile just cached answers the quick checks from its
   * own fields: the role, whether it is "admin", whether the status is "active".
   */
  lemma ProfileRoundTrip(s: Store, key: string, profile: map<string, Json>, ttl: int, now: int, later: int)
    requires ttl > 0 && later <= now + ttl && profile != map[]
    ensures var p := ReadDoc(AfterSet(s, key, ToJson(JObj(profile)), ttl, now), key, later);
      && p == Success(Some(JObj(profile)))
      && RoleOf(p.value) == Success(if "role" in profile then profile["role"] else JNull)
      && (IsAdminOf(p.value) == Success(true) <==> "role" in profile && profile["role"] == JStr("admin"))
      && (IsActiveOf(p.value) == Success(true) <==> "status" in profile && profile["status"] == JStr("active"))
      && SummaryOf("", p.value).value.Full?
  {
    ReadDocAfterSet(s, key, JObj(profile), ttl, now, later);
  }

  /**
   * An empty profile dict is falsy for get_role and get_summary but not for
   * is_active, which still asks it for "status".
   */
  lemma EmptyProfile(userId: string)
    ensures RoleOf(Some(JObj(map[]))) == Success(JNull)
    ensures IsActiveOf(Some(JObj(map[]))) == Success(false)
    ensures SummaryOf(userId, Some(JObj(map[]))) == Success(Short(userId))
    ensures IsActiveOf(Some(JStr(""))) == Failure(AttributeError)
    ensures RoleOf(Some(JStr(""))) == Success(JNull)
  {
  }

  /**
   * A cached "null" decodes to None: is_active answers False and get_role
   * None, exactly as for a missing profile, where any other non-dict fails.
   */
  lemma NullProfile(s: Store, key: string, userId: string, ttl: int, now: int, later: int)
    requires ttl > 0 && later <= now + ttl
    ensures var p := ReadDoc(AfterSet(s, key, ToJson(JNull), ttl, now), key, later);
      && p == Success(Some(JNull))
      && IsActiveOf(p.value) == Success(false)
      && RoleOf(p.value) == Success(JNull)
      && SummaryOf(userId, p.value) == Success(Short(userId))
  {
    ReadDocAfterSet(s, key, JNull, ttl, now, later);
  }

  /** With no profile cached: no role, not an admin, not active, and the short summary. */
  lemma NoProfile(userId: string)
    ensures RoleOf(None) == Success(JNull)
    ensures IsAdminOf(None) == Success(false)
    ensures IsActiveOf(None) == Success(false)
    ensures SummaryOf(userId, None) == Success(Short(userId))
  {
  }

  /** update_balance_in_cache replaces the balance and keeps every other field of the profile. */
  lemma UpdateBalanceKeepsOtherFields(s: Store, key: string, profile: map<string, Json>, balance: real,
                                      ttl: int, now: int, later: int, latest: int)
    requires ttl > 0 && now <= later <= now + ttl && latest <= later + ttl && profile != map[]
    ensures var s1 := AfterSet(s, key, ToJson(JObj(profile)), ttl, now);
      var u := UpdateBalance(s1, key, balance, ttl, later);
      && u.error.None?
      && ReadDoc(u.store, key, latest) == Success(Some(JObj(profile["balance" := JNum(balance)])))
      && (forall k :: k in profile && k != "balance" ==> ReadDoc(u.store, key, latest).value.value.fields[k] == profile[k])
  {
    var s1 := AfterSet(s, key, ToJson(JObj(profile)), ttl, now);
    ReadDocAfterSet(s, key, JObj(profile), ttl, now, later);
    assert AfterGet(s1, key, later) == s1;
    ReadDocAfterSet(s1, key, JObj(profile["balance" := JNum(balance)]), ttl, later, latest);
  }

  /** With no profile cached, update_balance_in_cache writes nothing. */
  lemma UpdateBalanceWithoutProfile(s: Store, key: string, balance: real, ttl: int, now: int)
    requires Tidy(s) && key !in s.values
    ensures UpdateBalance(s, key, balance, ttl, now) == BalanceUpdate(None, s)
  {
  }

  /**
   * A session reads back as {user_id, data} within its TTL; invalidating the
   * session leaves the profile, and invalidating the profile leaves the session.
   */
  lemma SessionLifecycle(s: Store, backend: string, ns: string, userId: string, sessionHash: string,
                         data: map<string, Json>, ttl: int, now: int, later: int)
    requires ttl > 0 && later <= now + ttl
    ensures var sk := SessionKey(backend, ns, sessionHash); var pk := ProfileKey(backend, ns, userId);
      var s1 := AfterSet(s, sk, ToJson(SessionDoc(userId, data)), ttl, now);
      && ReadDoc(s1, sk, later) == Success(Some(SessionDoc(userId, data)))
      && sk in s1.values
      && ReadDoc(AfterDelete(s1, sk), sk, later) == Success(None)
      && GetResult(AfterDelete(s1, sk), pk, later) == GetResult(s, pk, later)
      && GetResult(AfterDelete(s1, pk), sk, later) == GetResult(s1, sk, later)
  {
    ProfileKeyIsNotSessionKey(backend, ns, userId, sessionHash);
    ReadDocAfterSet(s, SessionKey(backend, ns, sessionHash), SessionDoc(userId, data), ttl, now, later);
  }

  // ---------------------------------------------------------------------
  // The adapter

  class UserCache {
    const cache: MemoryCache
    const namespace: string
    const ttlProfile: int
    const ttlSession: int

    constructor (cache: MemoryCache, namespace: string, ttlProfile: int, ttlSession: int)
      ensures this.cache == cache && this.namespace == namespace
      ensures this.ttlProfile == ttlProfile && this.ttlSession == ttlSession
    {
      this.cache := cache;
      this.namespace := namespace;
      this.ttlProfile := ttlProfile;
      this.ttlSession := ttlSession;
    }

    function Profile(userId: string): string
    {
      ProfileKey(cache.namespace, namespace, userId)
    }

    method SetProfile(userId: string, profile: map<string, Json>, now: int) returns (ok: bool)
      modifies cache
      ensures ok
      ensures cache.Model() == AfterSet(old(cache.Model()), Profile(userId), ToJson(JObj(profile)), ttlProfile, now)
    {
      ok := cache.Set(cache.Key([PStr(namespace), PStr("profile"), PStr(userId)]), ToJson(JObj(profile)), ttlProfile, now);
    }

    method GetProfile(userId: string, now: int) returns (r: Result<Option<Json>, CacheError>)
      modifies cache
      ensures r == ReadDoc(old(cache.Model()), Profile(userId), now)
      ensures cache.Model() == AfterGet(old(cache.Model()), Profile(userId), now)
    {
      var raw := cache.Get(cache.Key([PStr(namespace), PStr("profile"), PStr(userId)]), now);
      if raw.None? || !TruthyValue(raw.value) {
        return Success(None);
      }
      var doc := FromJson(raw);
      if doc.Failure? {
        return Failure(doc.error);
      }
      return Success(Some(doc.value));
    }

    method InvalidateProfile(userId: string)
      modifies cache
      ensures cache.Model() == AfterDelete(old(cache.Model()), Profile(userId))
    {
      var _ := cache.Delete(cache.Key([PStr(namespace), PStr("profile"), PStr(userId)]));
    }

    method RefreshProfileTtl(userId: string, now: int) returns (ok: bool)
      modifies cache
      ensures ok <==> Profile(userId) in old(cache.Model()).values
      ensures cache.Model() == AfterExpire(old(cache.Model()), Profile(userId), ttlProfile, now)
    {
      ok := cache.Expire(cache.Key([PStr(namespace), PStr("profile"), PStr(userId)]), ttlProfile, now);
    }

    method CacheSession(sessionHash: string, userId: string, data: map<string, Json>, now: int) returns (ok: bool)
      modifies cache
      ensures ok
      ensures cache.Model() == AfterSet(old(cache.Model()), SessionKey(cache.namespace, namespace, sessionHash),
                                        ToJson(SessionDoc(userId, data)), ttlSession, now)
    {
      var payload := map["user_id" := JStr(userId), "data" := JObj(data)];
      ok := cache.Set(cache.Key([PStr(namespace), PStr("session"), PStr(sessionHash)]), ToJson(JObj(payload)), ttlSession, now);
    }

    method GetSession(sessionHash: string, now: int) returns (r: Result<Option<Json>, CacheError>)
      modifies cache
      ensures r == ReadDoc(old(cache.Model()), SessionKey(cache.namespace, namespace, sessionHash), now)
      ensures cache.Model() == AfterGet(old(cache.Model()), SessionKey(cache.namespace, namespace, sessionHash), now)
    {
      var raw := cache.Get(cache.Key([PStr(namespace), PStr("session"), PStr(sessionHash)]), now);
      if raw.None? || !TruthyValue(raw.value) {
        return Success(None);
      }
      var doc := FromJson(raw);
      if doc.Failure? {
        return Failure(doc.error);
      }
      return Success(Some(doc.value));
    }

    method InvalidateSession(sessionHash: string)
      modifies cache
      ensures cache.Model() == AfterDelete(old(cache.Model()), SessionKey(cache.namespace, namespace, sessionHash))
    {
      var _ := cache.Delete(cache.Key([PStr(namespace), PStr("session"), PStr(sessionHash)]));
    }

    method IsSessionActive(sessionHash: string) returns (active: bool)
      ensures active <==> SessionKey(cache.namespace, namespace, sessionHash) in cache.Model().values
    {
      active := cache.Exists(cache.Key([PStr(namespace), PStr("session"), PStr(sessionHash)]));
    }

    method GetRole(userId: string, now: int) returns (r: Result<Json, CacheError>)
      modifies cache
      ensures var p := ReadDoc(old(cache.Model()), Profile(userId), now);
        r == (if p.Failure? then Failure(p.error) else RoleOf(p.value))
      ensures cache.Model() == AfterGet(old(cache.Model()), Profile(userId), now)
    {
      var profile := GetProfile(userId, now);
      if profile.Failure? {
        return Failure(profile.error);
      }
      r := RoleOf(profile.value);
    }

    method IsAdmin(userId: string, now: int) returns (r: Result<bool, CacheError>)
      modifies cache
      ensures var p := ReadDoc(old(cache.Model()), Profile(userId), now);
        r == (if p.Failure? then Failure(p.error) else IsAdminOf(p.value))
      ensures cache.Model() == AfterGet(old(cache.Model()), Profile(userId), now)
    {
      var role := GetRole(userId, now);
      if role.Failure? {
        return Failure(role.error);
      }
      return Success(role.value == JStr("admin"));
    }

    method IsActive(userId: string, now: int) returns (r: Result<bool, CacheError>)
      modifies cache
      ensures var p := ReadDoc(old(cache.Model()), Profile(userId), now);
        r == (if p.Failure? then Failure(p.error) else IsActiveOf(p.value))
      ensures cache.Model() == AfterGet(old(cache.Model()), Profile(userId), now)
    {
      var profile := GetProfile(userId, now);
      if profile.Failure? {
        return Failure(profile.error);
      }
      if profile.value.None? || profile.value.value == JNull {
        return Success(false);
      }
      var status := FieldOr(profile.value.value, "status", JNull);
      if status.Failure? {
        return Failure(status.error);
      }
      return Success(status.value == JStr("active"));
    }

    method UpdateBalanceInCache(userId: string, newBalance: real, now: int) returns (error: Option<CacheError>)
      modifies cache
      ensures BalanceUpdate(error, cache.Model()) == UpdateBalance(old(cache.Model()), Profile(userId), newBalance, ttlProfile, now)
    {
      var profile := GetProfile(userId, now);
      if profile.Failure? {
        return Some(profile.error);
      }
      if profile.value.None? || !Truthy(profile.value.value) {
        return None;
      }
      var p := profile.value.value;
      if !p.JObj? {
        return Some(TypeError);
      }
      var _ := SetProfile(userId, p.fields["balance" := JNum(newBalance)], now);
      return None;
    }

    method GetSummary(userId: string, now: int) returns (r: Result<ProfileSummary, CacheError>)
      modifies cache
      ensures var p := ReadDoc(old(cache.Model()), Profile(userId), now);
        r == (if p.Failure? then Failure(p.error) else SummaryOf(userId, p.value))
      ensures cache.Model() == AfterGet(old(cache.Model()), Profile(userId), now)
    {
      var profile := GetProfile(userId, now);
      if profile.Failure? {
        return Failure(profile.error);
      }
      r := SummaryOf(userId, profile.value);
    }
  }
}
