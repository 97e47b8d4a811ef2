/**
 * OrderCache: per-order statistics and per-owner active-order lists kept
 * as JSON documents in the cache backend under
 * build_key(namespace, order_id, "stats") and
 * build_key(namespace, "user", owner_id, "active").
 */
module OrderCache {
  import opened Wrappers
  import opened Text
  import opened CacheBase
  import opened CacheDocs

  const DefaultNamespace := "orders"
  const DefaultTtl := 300

  /** The summary get_summary_for_user returns. */
  datatype Summary = Summary(activeCount: int, avgProgress: real, totalDone: int)

  function StatsKey(backend: string, ns: string, orderId: Part): string
  {
    BuildKey(backend, [PStr(ns), orderId, PStr("stats")])
  }

  function ActiveKey(backend: string, ns: string, ownerId: string): string
  {
    BuildKey(backend, [PStr(ns), PStr("user"), PStr(ownerId), PStr("active")])
  }

  /** A stats key ends in "stats" and an active-list key in "active", so they never collide. */
  lemma StatsKeyIsNotActiveKey(backend: string, ns: string, orderId: Part, ownerId: string)
    ensures StatsKey(backend, ns, orderId) != ActiveKey(backend, ns, ownerId)
  {
    var a := StatsKey(backend, ns, orderId);
    var b := ActiveKey(backend, ns, ownerId);
    BuildKeyEndsWithLast(backend, [PStr(ns), orderId, PStr("stats")]);
    BuildKeyEndsWithLast(backend, [PStr(ns), PStr("user"), PStr(ownerId), PStr("active")]);
    assert a[|a| - 1] == a[|a| - 5..][4] == 's';
    assert b[|b| - 1] == b[|b| - 6..][5] == 'e';
  }

  /** The document set_order_stats stores: owner_id only when it is truthy. */
  function StatsDoc(total: int, done: int, status: string, ownerId: Option<string>): (j: Json)
    ensures j.JObj? && Truthy(j)
    ensures "total" in j.fields && j.fields["total"] == JInt(total)
    ensures "done" in j.fields && j.fields["done"] == JInt(done)
    ensures "status" in j.fields && j.fields["status"] == JStr(status)
    ensures ("owner_id" in j.fields) <==> ownerId.Some? && ownerId.value != ""
    ensures "owner_id" in j.fields ==> j.fields["owner_id"] == JStr(ownerId.value)
    ensures j.fields.Keys <= {"total", "done", "status", "owner_id"}
  {
    var base := map["total" := JInt(total), "done" := JInt(done), "status" := JStr(status)];
    var fields := if ownerId.Some? && ownerId.value != "" then base["owner_id" := JStr(ownerId.value)] else base;
    assert "total" in fields;
    JObj(fields)
  }

  /** A list of str order ids as a JSON list. */
  function StrList(ids: seq<string>): (j: seq<Json>)
    ensures |j| == |ids| && forall i :: 0 <= i < |ids| ==> j[i] == JStr(ids[i])
  {
    seq(|ids|, i requires 0 <= i < |ids| => JStr(ids[i]))
  }

  /** The result of update_done_count and the store after it. */
  datatype Update = Update(result: Result<Option<int>, CacheError>, store: Store)

  /**
   * update_done_count: read the stats; none (or falsy) gives None; otherwise
   * done becomes int(done or 0) + increment and the document is stored back.
   */
  function UpdateDone(s: Store, key: string, increment: int, ttl: int, now: int): Update
  {
    var s1 := AfterGet(s, key, now);
    match ReadDoc(s, key, now)
    case Failure(e) => Update(Failure(e), s1)
    case Success(None) => Update(Success(None), s1)
    case Success(Some(j)) =>
      if !Truthy(j) then Update(Success(None), s1)
      else match IntField(j, "done", 0)
        case Failure(e) => Update(Failure(e), s1)
        case Success(d) =>
          Update(Success(Some(d + increment)), AfterSet(s1, key, ToJson(JObj(j.fields["done" := JInt(d + increment)])), ttl, now))
  }

  /**
   * get_active_orders: [] when nothing (or a falsy raw text) is cached;
   * otherwise whatever from_json decodes, even a falsy document such as null.
   */
  function ActiveOrders(s: Store, key: string, now: int): Result<Json, CacheError>
  {
    match ReadDoc(s, key, now)
    case Failure(e) => Failure(e)
    case Success(None) => Success(JList([]))
    case Success(Some(j)) => Success(j)
  }

  function Max1(t: int): (m: int)
    ensures m >= 1 && m >= t && (t >= 1 ==> m == t)
  {
    if t > 1 then t else 1
  }

  /** done / max(1, total) * 100 for a stats document (rounding dropped). */
  function ProgressOf(j: Json): Result<Option<real>, CacheError>
  {
    if !Truthy(j) then Success(None)
    else match IntField(j, "total", 1)
      case Failure(e) => Failure(e)
      case Success(t) => match IntField(j, "done", 0)
        case Failure(e) => Failure(e)
        case Success(d) => Success(Some(d as real / Max1(t) as real * 100.0))
  }

  function Progress(s: Store, key: string, now: int): Result<Option<real>, CacheError>
  {
    match ReadDoc(s, key, now)
    case Failure(e) => Failure(e)
    case Success(None) => Success(None)
    case Success(Some(j)) => ProgressOf(j)
  }

  // ---------------------------------------------------------------------
  // get_summary_for_user's loop

  /** The loop's state: the store, the progresses so far, total_done, and the exception that ended it. */
  datatype Scan = Scan(store: Store, progresses: seq<real>, totalDone: int, error: Option<CacheError>)

  /**
   * str(order_id) as a key part, for the ids whose str() the model formats:
   * str, int, None and bool. A float, list or dict id has no model of its
   * str() and ends the loop as a TypeError.
   */
  function IdPart(item: Json): Option<Part>
  {
    match item
    case JStr(s) => Some(PStr(s))
    case JInt(i) => Some(PInt(i))
    case JNull => Some(PStr("None"))
    case JBool(b) => Some(PStr(if b then "True" else "False"))
    case _ => None
  }

  /** One iteration: read the order's stats and, if any, add its progress and done count. */
  function ScanStep(acc: Scan, backend: string, ns: string, item: Json, now: int): Scan
  {
    if acc.error.Some? then acc
    else match IdPart(item)
      case None => acc.(error := Some(TypeError))
      case Some(p) =>
        var key := StatsKey(backend, ns, p);
        var s1 := AfterGet(acc.store, key, now);
        match ReadDoc(acc.store, key, now)
        case Failure(e) => acc.(store := s1, error := Some(e))
        case Success(None) => acc.(store := s1)
        case Success(Some(j)) =>
          if !Truthy(j) then acc.(store := s1)
          else match IntField(j, "done", 0)
            case Failure(e) => acc.(store := s1, error := Some(e))
            case Success(d) => match IntField(j, "total", 1)
              case Failure(e) => acc.(store := s1, error := Some(e))
              case Success(t) => Scan(s1, acc.progresses + [d as real / Max1(t) as real], acc.totalDone + d, None)
  }

  /** The loop over the ids, left to right. */
  function ScanIds(s: Store, backend: string, ns: string, items: seq<Json>, now: int): Scan
    decreases |items|
  {
    if items == [] then Scan(s, [], 0, None)
    else ScanStep(ScanIds(s, backend, ns, items[..|items| - 1], now), backend, ns, items[|items| - 1], now)
  }

  /** Once an exception ends the loop, the remaining ids change nothing. */
  lemma {:induction false} ScanStopsAtError(s: Store, backend: string, ns: string, items: seq<Json>, i: nat, now: int)
    requires i <= |items| && ScanIds(s, backend, ns, items[..i], now).error.Some?
    ensures ScanIds(s, backend, ns, items, now) == ScanIds(s, backend, ns, items[..i], now)
    decreases |items| - i
  {
    if i < |items| {
      assert items[..i + 1][..i] == items[..i];
      ScanStopsAtError(s, backend, ns, items, i + 1, now);
    } else {
      assert items[..i] == items;
    }
  }

  function Sum(xs: seq<real>): real
  {
    if xs == [] then 0.0 else Sum(xs[..|xs| - 1]) + xs[|xs| - 1]
  }

  /** round(sum(progresses) / len(progresses) * 100, 2) without the rounding; 0.0 for none. */
  function Average(xs: seq<real>): real
  {
    if xs == [] then 0.0 else Sum(xs) / |xs| as real * 100.0
  }

  datatype SummaryRun = SummaryRun(result: Result<Summary, CacheError>, store: Store)

  /**
   * What `for order_id in order_ids` walks: a list's items, or a str's
   * characters one by one. A dict (whose key order the model does not keep)
   * and a number are reported as the TypeError case.
   */
  function Iterated(j: Json): (r: Option<seq<Json>>)
    ensures j.JList? ==> r == Some(j.items)
    ensures j.JStr? ==> r == Some(Chars(j.s))
    ensures !j.JList? && !j.JStr? ==> r.None?
  {
    if j.JList? then Some(j.items)
    else if j.JStr? then Some(Chars(j.s))
    else None
  }

  /** A str's characters, each as a one-character str. */
  function Chars(s: string): (r: seq<Json>)
    ensures |r| == |s| && forall i :: 0 <= i < |s| ==> r[i] == JStr([s[i]])
  {
    if s == "" then [] else Chars(s[..|s| - 1]) + [JStr([s[|s| - 1]])]
  }

  /**
   * get_summary_for_user: zeros for no (or a falsy) active list; otherwise
   * active_count is the number of ids, while the progress average and
   * total_done cover only the ids whose stats are cached.
   */
  function SummaryFor(s: Store, backend: string, ns: string, ownerId: string, now: int): SummaryRun
  {
    var key := ActiveKey(backend, ns, ownerId);
    var s1 := AfterGet(s, key, now);
    match ActiveOrders(s, key, now)
    case Failure(e) => SummaryRun(Failure(e), s1)
    case Success(j) =>
      if !Truthy(j) then SummaryRun(Success(Summary(0, 0.0, 0)), s1)
      else match Iterated(j)
        case None => SummaryRun(Failure(TypeError), s1)
        case Some(items) =>
          var sc := ScanIds(s1, backend, ns, items, now);
          if sc.error.Some? then SummaryRun(Failure(sc.error.value), sc.store)
          else SummaryRun(Success(Summary(|items|, Average(sc.progresses), sc.totalDone)), sc.store)
  }

  /** The summary of a truthy, iterable active value is the scan of its items. */
  lemma SummaryForOfItems(s: Store, backend: string, ns: string, ownerId: string, now: int, j: Json, items: seq<Json>)
    requires ActiveOrders(s, ActiveKey(backend, ns, ownerId), now) == Success(j)
    requires Truthy(j) && Iterated(j) == Some(items)
    ensures var sc := ScanIds(AfterGet(s, ActiveKey(backend, ns, ownerId), now), backend, ns, items, now);
      SummaryFor(s, backend, ns, ownerId, now) ==
        if sc.error.Some? then SummaryRun(Failure(sc.error.value), sc.store)
        else SummaryRun(Success(Summary(|items|, Average(sc.progresses), sc.totalDone)), sc.store)
  {
  }

  // ---------------------------------------------------------------------
  // Properties

  /** get_order_stats after set_order_stats returns {total, done, status[, owner_id]} until the TTL runs out. */
  lemma StatsRoundTrip(s: Store, backend: string, ns: string, orderId: string, total: int, done: int,
                       status: string, ownerId: Option<string>, ttl: int, now: int, later: int)
    requires ttl > 0 && later <= now + ttl
    ensures var key := StatsKey(backend, ns, PStr(orderId));
      ReadDoc(AfterSet(s, key, ToJson(StatsDoc(total, done, status, ownerId)), ttl, now), key, later)
        == Success(Some(StatsDoc(total, done, status, ownerId)))
  {
    ReadDocAfterSet(s, StatsKey(backend, ns, PStr(orderId)), StatsDoc(total, done, status, ownerId), ttl, now, later);
  }

  /** update_done_count adds the increment to done, stores it back and returns it; the other fields stay. */
  lemma UpdateDoneAfterSet(s: Store, key: string, total: int, done: int, status: string, ownerId: Option<string>,
                           increment: int, ttl: int, now: int, later: int)
    requires ttl > 0 && later <= now + ttl
    ensures var s1 := AfterSet(s, key, ToJson(StatsDoc(total, done, status, ownerId)), ttl, now);
      UpdateDone(s1, key, increment, ttl, later) ==
        Update(Success(Some(done + increment)), AfterSet(s1, key, ToJson(StatsDoc(total, done + increment, status, ownerId)), ttl, later))
  {
    var doc := StatsDoc(total, done, status, ownerId);
    var s1 := AfterSet(s, key, ToJson(doc), ttl, now);
    ReadDocAfterSet(s, key, doc, ttl, now, later);
    assert AfterGet(s1, key, later) == s1;
    assert doc.fields["done" := JInt(done + increment)] == StatsDoc(total, done + increment, status, ownerId).fields;
  }

  /** With no stats cached, update_done_count returns None and writes nothing. */
  lemma UpdateDoneWithoutStats(s: Store, key: string, increment: int, ttl: int, now: int)
    requires Tidy(s) && key !in s.values
    ensures UpdateDone(s, key, increment, ttl, now) == Update(Success(None), s)
  {
  }

  /** get_active_orders returns the list cache_active_orders stored, and [] when none is cached. */
  lemma ActiveOrdersRoundTrip(s: Store, key: string, ids: seq<string>, ttl: int, now: int, later: int)
    requires ttl > 0 && later <= now + ttl
    ensures ActiveOrders(AfterSet(s, key, ToJson(JList(StrList(ids))), ttl, now), key, later) == Success(JList(StrList(ids)))
    ensures ids == [] ==> ActiveOrders(AfterSet(s, key, ToJson(JList(StrList(ids))), ttl, now), key, later) == Success(JList([]))
    ensures Tidy(s) && key !in s.values ==> ActiveOrders(s, key, now) == Success(JList([]))
  {
    ReadDocAfterSet(s, key, JList(StrList(ids)), ttl, now, later);
  }

  /**
   * Only the raw text is tested for truthiness: a stored document that
   * decodes to a falsy value (null, {}, 0, "") is returned as decoded.
   */
  lemma ActiveOrdersPassesDecoded(s: Store, key: string, j: Json, ttl: int, now: int, later: int)
    requires ttl > 0 && later <= now + ttl
    ensures ActiveOrders(AfterSet(s, key, ToJson(j), ttl, now), key, later) == Success(j)
    ensures ActiveOrders(AfterSet(s, key, ToJson(JNull), ttl, now), key, later) == Success(JNull)
  {
    ReadDocAfterSet(s, key, j, ttl, now, later);
    ReadDocAfterSet(s, key, JNull, ttl, now, later);
  }

  /** invalidate_order removes the order's stats and leaves the owner's list; invalidate_user_orders the reverse. */
  lemma InvalidationsAreIndependent(s: Store, backend: string, ns: string, orderId: string, ownerId: string, now: int)
    ensures var sk := StatsKey(backend, ns, PStr(orderId)); var ak := ActiveKey(backend, ns, ownerId);
      && ReadDoc(AfterDelete(s, sk), sk, now) == Success(None)
      && GetResult(AfterDelete(s, sk), ak, now) == GetResult(s, ak, now)
      && ReadDoc(AfterDelete(s, ak), ak, now) == Success(None)
      && GetResult(AfterDelete(s, ak), sk, now) == GetResult(s, sk, now)
  {
    StatsKeyIsNotActiveKey(backend, ns, PStr(orderId), ownerId);
  }

  /**
   * get_progress_percent of cached stats is done / max(1, total) * 100: a
   * total of 0 or less divides by 1, and done == total > 0 gives 100.
   */
  lemma ProgressOfStats(total: int, done: int, status: string, ownerId: Option<string>)
    ensures ProgressOf(StatsDoc(total, done, status, ownerId)) == Success(Some(done as real / Max1(total) as real * 100.0))
    ensures total <= 0 ==> ProgressOf(StatsDoc(total, done, status, ownerId)) == Success(Some(done as real * 100.0))
    ensures done == total >= 1 ==> ProgressOf(StatsDoc(total, done, status, ownerId)) == Success(Some(100.0))
  {
    var j := StatsDoc(total, done, status, ownerId);
    assert IntField(j, "total", 1) == Success(total);
    assert IntField(j, "done", 0) == Success(done);
    var m := Max1(total) as real;
    assert ProgressOf(j) == Success(Some(done as real / m * 100.0));
    if total <= 0 {
      assert m == 1.0;
    }
    if done == total >= 1 {
      assert m == done as real;
      assert done as real / m == 1.0;
    }
  }

  /** Without stats, get_progress_percent is None. */
  lemma ProgressWithoutStats(s: Store, key: string, now: int)
    requires key !in s.values
    ensures Progress(s, key, now) == Success(None)
  {
  }

  /** With no active list cached, the summary is all zeros. */
  lemma SummaryWithoutList(s: Store, backend: string, ns: string, ownerId: string, now: int)
    requires ActiveKey(backend, ns, ownerId) !in s.values
    ensures SummaryFor(s, backend, ns, ownerId, now).result == Success(Summary(0, 0.0, 0))
  {
  }

  /** Ids whose stats are not cached add nothing to the scan. */
  lemma {:induction false} ScanWithoutStats(s: Store, backend: string, ns: string, ids: seq<string>, now: int)
    requires Tidy(s)
    requires forall i :: 0 <= i < |ids| ==> StatsKey(backend, ns, PStr(ids[i])) !in s.values
    ensures ScanIds(s, backend, ns, StrList(ids), now) == Scan(s, [], 0, None)
    decreases |ids|
  {
    if ids != [] {
      var init := ids[..|ids| - 1];
      assert StrList(ids)[..|ids| - 1] == StrList(init);
      ScanWithoutStats(s, backend, ns, init, now);
    }
  }

  /** active_count counts every listed id even when no stats are cached; total_done and the average are then 0. */
  lemma SummaryCountsAllIds(s: Store, backend: string, ns: string, ownerId: string, ids: seq<string>, ttl: int, now: int)
    requires Tidy(s) && ids != [] && ttl > 0
    requires forall i :: 0 <= i < |ids| ==> StatsKey(backend, ns, PStr(ids[i])) !in s.values
    ensures var s1 := AfterSet(s, ActiveKey(backend, ns, ownerId), ToJson(JList(StrList(ids))), ttl, now);
      SummaryFor(s1, backend, ns, ownerId, now).result == Success(Summary(|ids|, 0.0, 0))
  {
    var ak := ActiveKey(backend, ns, ownerId);
    var s1 := AfterSet(s, ak, ToJson(JList(StrList(ids))), ttl, now);
    ActiveOrdersRoundTrip(s, ak, ids, ttl, now, now);
    forall i | 0 <= i < |ids| ensures StatsKey(backend, ns, PStr(ids[i])) !in s1.values {
      StatsKeyIsNotActiveKey(backend, ns, PStr(ids[i]), ownerId);
    }
    assert Tidy(s1);
    assert AfterGet(s1, ak, now) == s1;
    ScanWithoutStats(s1, backend, ns, ids, now);
  }

  // ---------------------------------------------------------------------
  // The adapter

  class OrderCache {
    const cache: MemoryCache
    const namespace: string
    const ttl: int

    constructor (cache: MemoryCache, namespace: string, ttl: int)
      ensures this.cache == cache && this.namespace == namespace && this.ttl == ttl
    {
      this.cache := cache;
      this.namespace := namespace;
      this.ttl := ttl;
    }

    method SetOrderStats(orderId: string, total: int, done: int, status: string, ownerId: Option<string>, now: int)
      returns (ok: bool)
      modifies cache
      ensures ok
      ensures cache.Model() == AfterSet(old(cache.Model()), StatsKey(cache.namespace, namespace, PStr(orderId)),
                                        ToJson(StatsDoc(total, done, status, ownerId)), ttl, now)
    {
      var data := map["total" := JInt(total), "done" := JInt(done), "status" := JStr(status)];
      if ownerId.Some? && ownerId.value != "" {
        data := data["owner_id" := JStr(ownerId.value)];
      }
      ok := cache.Set(cache.Key([PStr(namespace), PStr(orderId), PStr("stats")]), ToJson(JObj(data)), ttl, now);
    }

    method GetOrderStats(orderId: Part, now: int) returns (r: Result<Option<Json>, CacheError>)
      modifies cache
      ensures r == ReadDoc(old(cache.Model()), StatsKey(cache.namespace, namespace, orderId), now)
      ensures cache.Model() == AfterGet(old(cache.Model()), StatsKey(cache.namespace, namespace, orderId), now)
    {
      var raw := cache.Get(cache.Key([PStr(namespace), orderId, PStr("stats")]), now);
      if raw.None? || !TruthyValue(raw.value) {
        return Success(None);
      }
      var doc := FromJson(raw);
      if doc.Failure? {
        return Failure(doc.error);
      }
      return Success(Some(doc.value));
    }

    method UpdateDoneCount(orderId: string, increment: int, now: int) returns (r: Result<Option<int>, CacheError>)
      modifies cache
      ensures Update(r, cache.Model()) == UpdateDone(old(cache.Model()), StatsKey(cache.namespace, namespace, PStr(orderId)), increment, ttl, now)
    {
      var stats := GetOrderStats(PStr(orderId), now);
      if stats.Failure? {
        return Failure(stats.error);
      }
      if stats.value.None? || !Truthy(stats.value.value) {
        return Success(None);
      }
      var j := stats.value.value;
      var done := IntField(j, "done", 0);
      if done.Failure? {
        return Failure(done.error);
      }
      var updated := JObj(j.fields["done" := JInt(done.value + increment)]);
      var _ := cache.Set(cache.Key([PStr(namespace), PStr(orderId), PStr("stats")]), ToJson(updated), ttl, now);
      return Success(Some(done.value + increment));
    }

    method CacheActiveOrders(ownerId: string, ids: seq<string>, now: int) returns (ok: bool)
      modifies cache
      ensures ok
      ensures cache.Model() == AfterSet(old(cache.Model()), ActiveKey(cache.namespace, namespace, ownerId), ToJson(JList(StrList(ids))), ttl, now)
    {
      ok := cache.Set(cache.Key([PStr(namespace), PStr("user"), PStr(ownerId), PStr("active")]), ToJson(JList(StrList(ids))), ttl, now);
    }

    method GetActiveOrders(ownerId: string, now: int) returns (r: Result<Json, CacheError>)
      modifies cache
      ensures r == ActiveOrders(old(cache.Model()), ActiveKey(cache.namespace, namespace, ownerId), now)
      ensures cache.Model() == AfterGet(old(cache.Model()), ActiveKey(cache.namespace, namespace, ownerId), now)
    {
      var raw := cache.Get(cache.Key([PStr(namespace), PStr("user"), PStr(ownerId), PStr("active")]), now);
      if raw.None? || !TruthyValue(raw.value) {
        return Success(JList([]));
      }
      var doc := FromJson(raw);
      if doc.Failure? {
        return Failure(doc.error);
      }
      return Success(doc.value);
    }

    method InvalidateOrder(orderId: string)
      modifies cache
      ensures cache.Model() == AfterDelete(old(cache.Model()), StatsKey(cache.namespace, namespace, PStr(orderId)))
    {
      var _ := cache.Delete(cache.Key([PStr(namespace), PStr(orderId), PStr("stats")]));
    }

    method InvalidateUserOrders(ownerId: string)
      modifies cache
      ensures cache.Model() == AfterDelete(old(cache.Model()), ActiveKey(cache.namespace, namespace, ownerId))
    {
      var _ := cache.Delete(cache.Key([PStr(namespace), PStr("user"), PStr(ownerId), PStr("active")]));
    }

    method RefreshTtl(orderId: string, now: int) returns (ok: bool)
      modifies cache
      ensures ok <==> StatsKey(cache.namespace, namespace, PStr(orderId)) in old(cache.Model()).values
      ensures cache.Model() == AfterExpire(old(cache.Model()), StatsKey(cache.namespace, namespace, PStr(orderId)), ttl, now)
    {
      ok := cache.Expire(cache.Key([PStr(namespace), PStr(orderId), PStr("stats")]), ttl, now);
    }

    method GetProgressPercent(orderId: string, now: int) returns (r: Result<Option<real>, CacheError>)
      modifies cache
      ensures r == Progress(old(cache.Model()), StatsKey(cache.namespace, namespace, PStr(orderId)), now)
      ensures cache.Model() == AfterGet(old(cache.Model()), StatsKey(cache.namespace, namespace, PStr(orderId)), now)
    {
      var stats := GetOrderStats(PStr(orderId), now);
      if stats.Failure? {
        return Failure(stats.error);
      }
      if stats.value.None? {
        return Success(None);
      }
      r := ProgressOf(stats.value.value);
    }

    /** The loop of get_summary_for_user over the iterated ids. */
    method ScanActiveIds(items: seq<Json>, now: int) returns (progresses: seq<real>, totalDone: int, error: Option<CacheError>)
      modifies cache
      ensures Scan(cache.Model(), progresses, totalDone, error) == ScanIds(old(cache.Model()), cache.namespace, namespace, items, now)
    {
      ghost var start := cache.Model();
      progresses, totalDone := [], 0;
      var i := 0;
      while i < |items|
        invariant 0 <= i <= |items|
        invariant ScanIds(start, cache.namespace, namespace, items[..i], now) == Scan(cache.Model(), progresses, totalDone, None)
      {
        assert items[..i + 1][..i] == items[..i];
        var part := IdPart(items[i]);
        if part.None? {
          ScanStopsAtError(start, cache.namespace, namespace, items, i + 1, now);
          return progresses, totalDone, Some(TypeError);
        }
        var stats := GetOrderStats(part.value, now);
        if stats.Failure? {
          ScanStopsAtError(start, cache.namespace, namespace, items, i + 1, now);
          return progresses, totalDone, Some(stats.error);
        }
        if stats.value.Some? && Truthy(stats.value.value) {
          var done := IntField(stats.value.value, "done", 0);
          if done.Failure? {
            ScanStopsAtError(start, cache.namespace, namespace, items, i + 1, now);
            return progresses, totalDone, Some(done.error);
          }
          var total := IntField(stats.value.value, "total", 1);
          if total.Failure? {
            ScanStopsAtError(start, cache.namespace, namespace, items, i + 1, now);
            return progresses, totalDone, Some(total.error);
          }
          progresses := progresses + [done.value as real / Max1(total.value) as real];
          totalDone := totalDone + done.value;
        }
        i := i + 1;
      }
      assert items[..i] == items;
      error := None;
    }

    method GetSummaryForUser(ownerId: string, now: int) returns (r: Result<Summary, CacheError>)
      modifies cache
      ensures SummaryRun(r, cache.Model()) == SummaryFor(old(cache.Model()), cache.namespace, namespace, ownerId, now)
    {
      ghost var s0 := cache.Model();
      var active := GetActiveOrders(ownerId, now);
      if active.Failure? {
        return Failure(active.error);
      }
      var list := active.value;
      if !Truthy(list) {
        return Success(Summary(0, 0.0, 0));
      }
      var iterated := Iterated(list);
      if iterated.None? {
        return Failure(TypeError);
      }
      var items := iterated.value;
      SummaryForOfItems(s0, cache.namespace, namespace, ownerId, now, list, items);
      var progresses, totalDone, error := ScanActiveIds(items, now);
      if error.Some? {
        return Failure(error.value);
      }
      return Success(Summary(|items|, Average(progresses), totalDone));
    }
  }
}
