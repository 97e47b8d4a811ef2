/**
 * TaskCache: a user's active task, a task's proof awaiting review and the
 * "task already given" markers, kept in the cache backend under
 * build_key(namespace, "active", user_id), build_key(namespace, "proof", task_id)
 * and build_key(namespace, "given", user_id, order_id).
 */
module TaskCache {
  import opened Wrappers
  import opened CacheBase
  import opened CacheDocs

  const DefaultNamespace := "tasks"
  const DefaultTtlActive := 300
  const DefaultTtlProof := 900

  function ActiveKey(backend: string, ns: string, userId: string): string
  {
    BuildKey(backend, [PStr(ns), PStr("active"), PStr(userId)])
  }

  function ProofKey(backend: string, ns: string, taskId: string): string
  {
    BuildKey(backend, [PStr(ns), PStr("proof"), PStr(taskId)])
  }

  function GivenKey(backend: string, ns: string, userId: string, orderId: string): string
  {
    BuildKey(backend, [PStr(ns), PStr("given"), PStr(userId), PStr(orderId)])
  }

  /** The three kinds of key never collide. */
  lemma KeysAreDistinct(backend: string, ns: string, userId: string, taskId: string, orderId: string, otherUser: string)
    ensures ActiveKey(backend, ns, userId) != ProofKey(backend, ns, taskId)
    ensures ActiveKey(backend, ns, otherUser) != GivenKey(backend, ns, userId, orderId)
    ensures ProofKey(backend, ns, taskId) != GivenKey(backend, ns, userId, orderId)
  {
    BuildKeysDifferInSecondPart(backend, ns, "active", [PStr(userId)], "proof", [PStr(taskId)]);
    BuildKeysDifferInSecondPart(backend, ns, "active", [PStr(otherUser)], "given", [PStr(userId), PStr(orderId)]);
    BuildKeysDifferInSecondPart(backend, ns, "proof", [PStr(taskId)], "given", [PStr(userId), PStr(orderId)]);
    assert [PStr(ns), PStr("active")] + [PStr(userId)] == [PStr(ns), PStr("active"), PStr(userId)];
    assert [PStr(ns), PStr("active")] + [PStr(otherUser)] == [PStr(ns), PStr("active"), PStr(otherUser)];
    assert [PStr(ns), PStr("proof")] + [PStr(taskId)] == [PStr(ns), PStr("proof"), PStr(taskId)];
    assert [PStr(ns), PStr("given")] + [PStr(userId), PStr(orderId)] == [PStr(ns), PStr("given"), PStr(userId), PStr(orderId)];
  }

  /** The document cache_active_task stores. */
  function ActiveDoc(taskId: string, orderId: string): (j: Json)
    ensures j.JObj? && Truthy(j) && j.fields.Keys == {"task_id", "order_id"}
    ensures j.fields["task_id"] == JStr(taskId) && j.fields["order_id"] == JStr(orderId)
  {
    var fields := map["task_id" := JStr(taskId), "order_id" := JStr(orderId)];
    assert "task_id" in fields;
    JObj(fields)
  }

  /** `bool(active and active.get("task_id") == task_id)` */
  function ActiveMatches(active: Option<Json>, taskId: string): Result<bool, CacheError>
  {
    if active.None? || !Truthy(active.value) then Success(false)
    else match FieldOr(active.value, "task_id", JNull)
      case Failure(e) => Failure(e)
      case Success(v) => Success(v == JStr(taskId))
  }

  /** get_user_summary's dict; an absent field reads as JNull (Python's None). */
  datatype UserSummary = UserSummary(hasActiveTask: bool, activeTaskId: Json, activeOrderId: Json)

  function SummaryOf(active: Option<Json>): Result<UserSummary, CacheError>
  {
    if active.None? || !Truthy(active.value) then Success(UserSummary(false, JNull, JNull))
    else match FieldOr(active.value, "task_id", JNull)
      case Failure(e) => Failure(e)
      case Success(t) => match FieldOr(active.value, "order_id", JNull)
        case Failure(e) => Failure(e)
        case Success(o) => Success(UserSummary(true, t, o))
  }

  // ---------------------------------------------------------------------
  // Properties

  /**
   * Within the TTL, the active task just cached is the one is_task_active
   * recognises (and no other), and the summary reports its ids.
   */
  lemma ActiveTaskRoundTrip(s: Store, key: string, taskId: string, orderId: string, other: string,
                            ttl: int, now: int, later: int)
    requires ttl > 0 && later <= now + ttl && other != taskId
    ensures var s1 := AfterSet(s, key, ToJson(ActiveDoc(taskId, orderId)), ttl, now);
      var active := ReadDoc(s1, key, later);
      && active == Success(Some(ActiveDoc(taskId, orderId)))
      && ActiveMatches(active.value, taskId) == Success(true)
      && ActiveMatches(active.value, other) == Success(false)
      && SummaryOf(active.value) == Success(UserSummary(true, JStr(taskId), JStr(orderId)))
  {
    ReadDocAfterSet(s, key, ActiveDoc(taskId, orderId), ttl, now, later);
  }

  /** After clear_active_task no task is active and the summary is empty. */
  lemma ClearedTaskIsInactive(s: Store, key: string, taskId: string, now: int)
    ensures var active := ReadDoc(AfterDelete(s, key), key, now);
      && active == Success(None)
      && ActiveMatches(active.value, taskId) == Success(false)
      && SummaryOf(active.value) == Success(UserSummary(false, JNull, JNull))
  {
  }

  /** A proof reads back until its TTL runs out; delete_proof removes it and leaves the active task. */
  lemma ProofLifecycle(s: Store, backend: string, ns: string, taskId: string, userId: string,
                       proof: map<string, Json>, ttl: int, now: int, later: int)
    requires ttl > 0 && later <= now + ttl
    ensures var pk := ProofKey(backend, ns, taskId); var ak := ActiveKey(backend, ns, userId);
      var s1 := AfterSet(s, pk, ToJson(JObj(proof)), ttl, now);
      && ReadDoc(s1, pk, later) == Success(Some(JObj(proof)))
      && GetResult(s1, ak, later) == GetResult(s, ak, later)
      && ReadDoc(AfterDelete(s1, pk), pk, later) == Success(None)
      && GetResult(AfterDelete(s1, pk), ak, later) == GetResult(s, ak, later)
  {
    var pk := ProofKey(backend, ns, taskId);
    var ak := ActiveKey(backend, ns, userId);
    KeysAreDistinct(backend, ns, userId, taskId, "", userId);
    ReadDocAfterSet(s, pk, JObj(proof), ttl, now, later);
  }

  /**
   * After mark_task_given, was_task_given holds for that user and order, also
   * past the TTL until a get removes the key; for colon-free ids another order
   * keeps its own answer.
   */
  lemma GivenIsRemembered(s: Store, backend: string, ns: string, userId: string, orderId: string, otherOrder: string,
                          ttl: int, now: int)
    requires ':' !in backend && ':' !in ns && ':' !in userId && ':' !in orderId && ':' !in otherOrder
    requires otherOrder != orderId
    ensures var gk := GivenKey(backend, ns, userId, orderId);
      var s1 := AfterSet(s, gk, VText("1"), ttl, now);
      && gk in s1.values
      && (GivenKey(backend, ns, userId, otherOrder) in s1.values <==> GivenKey(backend, ns, userId, otherOrder) in s.values)
  {
    var ps1 := [PStr(ns), PStr("given"), PStr(userId), PStr(orderId)];
    var ps2 := [PStr(ns), PStr("given"), PStr(userId), PStr(otherOrder)];
    assert PartTexts(ps1)[3] == orderId && PartTexts(ps2)[3] == otherOrder;
    if GivenKey(backend, ns, userId, orderId) == GivenKey(backend, ns, userId, otherOrder) {
      BuildKeyInjective(backend, ps1, backend, ps2);
      assert false;
    }
  }

  // ---------------------------------------------------------------------
  // The adapter

  class TaskCache {
    const cache: MemoryCache
    const namespace: string
    const ttlActive: int
    const ttlProof: int

    constructor (cache: MemoryCache, namespace: string, ttlActive: int, ttlProof: int)
      ensures this.cache == cache && this.namespace == namespace
      ensures this.ttlActive == ttlActive && this.ttlProof == ttlProof
    {
      this.cache := cache;
      this.namespace := namespace;
      this.ttlActive := ttlActive;
      this.ttlProof := ttlProof;
    }

    method CacheActiveTask(userId: string, taskId: string, orderId: string, now: int) returns (ok: bool)
      modifies cache
      ensures ok
      ensures cache.Model() == AfterSet(old(cache.Model()), ActiveKey(cache.namespace, namespace, userId),
                                        ToJson(ActiveDoc(taskId, orderId)), ttlActive, now)
    {
      var data := map["task_id" := JStr(taskId), "order_id" := JStr(orderId)];
      ok := cache.Set(cache.Key([PStr(namespace), PStr("active"), PStr(userId)]), ToJson(JObj(data)), ttlActive, now);
    }

    method GetActiveTask(userId: string, now: int) returns (r: Result<Option<Json>, CacheError>)
      modifies cache
      ensures r == ReadDoc(old(cache.Model()), ActiveKey(cache.namespace, namespace, userId), now)
      ensures cache.Model() == AfterGet(old(cache.Model()), ActiveKey(cache.namespace, namespace, userId), now)
    {
      var raw := cache.Get(cache.Key([PStr(namespace), PStr("active"), PStr(userId)]), now);
      if raw.None? || !TruthyValue(raw.value) {
        return Success(None);
      }
      var doc := FromJson(raw);
      if doc.Failure? {
        return Failure(doc.error);
      }
      return Success(Some(doc.value));
    }

    method ClearActiveTask(userId: string)
      modifies cache
      ensures cache.Model() == AfterDelete(old(cache.Model()), ActiveKey(cache.namespace, namespace, userId))
    {
      var _ := cache.Delete(cache.Key([PStr(namespace), PStr("active"), PStr(userId)]));
    }

    method IsTaskActive(userId: string, taskId: string, now: int) returns (r: Result<bool, CacheError>)
      modifies cache
      ensures var active := ReadDoc(old(cache.Model()), ActiveKey(cache.namespace, namespace, userId), now);
        r == (if active.Failure? then Failure(active.error) else ActiveMatches(active.value, taskId))
      ensures cache.Model() == AfterGet(old(cache.Model()), ActiveKey(cache.namespace, namespace, userId), now)
    {
      var active := GetActiveTask(userId, now);
      if active.Failure? {
        return Failure(active.error);
      }
      if active.value.None? || !Truthy(active.value.value) {
        return Success(false);
      }
      var id := FieldOr(active.value.value, "task_id", JNull);
      if id.Failure? {
        return Failure(id.error);
      }
      return Success(id.value == JStr(taskId));
    }

    method CacheProof(taskId: string, proof: map<string, Json>, now: int) returns (ok: bool)
      modifies cache
      ensures ok
      ensures cache.Model() == AfterSet(old(cache.Model()), ProofKey(cache.namespace, namespace, taskId), ToJson(JObj(proof)), ttlProof, now)
    {
      ok := cache.Set(cache.Key([PStr(namespace), PStr("proof"), PStr(taskId)]), ToJson(JObj(proof)), ttlProof, now);
    }

    method GetProof(taskId: string, now: int) returns (r: Result<Option<Json>, CacheError>)
      modifies cache
      ensures r == ReadDoc(old(cache.Model()), ProofKey(cache.namespace, namespace, taskId), now)
      ensures cache.Model() == AfterGet(old(cache.Model()), ProofKey(cache.namespace, namespace, taskId), now)
    {
      var raw := cache.Get(cache.Key([PStr(namespace), PStr("proof"), PStr(taskId)]), now);
      if raw.None? || !TruthyValue(raw.value) {
        return Success(None);
      }
      var doc := FromJson(raw);
      if doc.Failure? {
        return Failure(doc.error);
      }
      return Success(Some(doc.value));
    }

    method DeleteProof(taskId: string)
      modifies cache
      ensures cache.Model() == AfterDelete(old(cache.Model()), ProofKey(cache.namespace, namespace, taskId))
    {
      var _ := cache.Delete(cache.Key([PStr(namespace), PStr("proof"), PStr(taskId)]));
    }

    method MarkTaskGiven(userId: string, orderId: string, now: int) returns (ok: bool)
      modifies cache
      ensures ok
      ensures cache.Model() == AfterSet(old(cache.Model()), GivenKey(cache.namespace, namespace, userId, orderId), VText("1"), ttlActive, now)
    {
      ok := cache.Set(cache.Key([PStr(namespace), PStr("given"), PStr(userId), PStr(orderId)]), VText("1"), ttlActive, now);
    }

    method WasTaskGiven(userId: string, orderId: string) returns (given: bool)
      ensures given <==> GivenKey(cache.namespace, namespace, userId, orderId) in cache.Model().values
    {
      given := cache.Exists(cache.Key([PStr(namespace), PStr("given"), PStr(userId), PStr(orderId)]));
    }

    /**
     * clear_given_tasks deletes the keys the backend's `keys` lists; the
     * in-memory backend has no `keys`, so nothing is deleted.
     */
    method ClearGivenTasks(userId: string)
      ensures cache.Model() == old(cache.Model())
    {
    }

    method GetUserSummary(userId: string, now: int) returns (r: Result<UserSummary, CacheError>)
      modifies cache
      ensures var active := ReadDoc(old(cache.Model()), ActiveKey(cache.namespace, namespace, userId), now);
        r == (if active.Failure? then Failure(active.error) else SummaryOf(active.value))
      ensures cache.Model() == AfterGet(old(cache.Model()), ActiveKey(cache.namespace, namespace, userId), now)
    {
      var active := GetActiveTask(userId, now);
      if active.Failure? {
        return Failure(active.error);
      }
      r := SummaryOf(active.value);
    }
  }
}
