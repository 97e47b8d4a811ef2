/**
 * The cache backend contract (CacheBackend) and its in-memory
 * implementation (MemoryCache): namespaced keys, a value map and an
 * expiry map whose instants are compared with an explicit `now`.
 */
module CacheBase {
  import opened Wrappers
  import opened Text
  import opened Durations

  /**
   * A decoded Python object as the JSON layer sees it: None, bool, int,
   * float, str, list and dict with str keys.
   */
  datatype Json =
    | JNull
    | JBool(b: bool)
    | JInt(i: int)
    | JNum(r: real)
    | JStr(s: string)
    | JList(items: seq<Json>)
    | JObj(fields: map<string, Json>)

  /**
   * What the store holds under a key: an int (written by incr), a str
   * written verbatim (the "locked" and "1" markers), or the str that
   * to_json produced from a document.
   */
  datatype Value = VInt(n: int) | VText(text: string) | VDoc(doc: Json)

  /** The exceptions that escape the backend and its callers: TypeError, ValueError and AttributeError. */
  datatype CacheError = TypeError | ValueError | AttributeError

  /** A key part: build_key accepts str or int. */
  datatype Part = PStr(s: string) | PInt(i: int)

  /** str(p) */
  function PartText(p: Part): string
  {
    match p
    case PStr(s) => s
    case PInt(i) => IntToString(i)
  }

  function PartTexts(parts: seq<Part>): (texts: seq<string>)
    ensures |texts| == |parts|
    ensures forall i :: 0 <= i < |parts| ==> texts[i] == PartText(parts[i])
  {
    if parts == [] then [] else [PartText(parts[0])] + PartTexts(parts[1..])
  }

  /** CacheBackend.build_key: the namespace, ":", then the parts joined by ":". */
  function BuildKey(namespace: string, parts: seq<Part>): string
  {
    namespace + ":" + Join(":", PartTexts(parts))
  }

  /** No str part carries the separator (int parts never do). */
  predicate ColonFree(namespace: string, parts: seq<Part>)
  {
    ':' !in namespace && forall i :: 0 <= i < |parts| ==> ':' !in PartText(parts[i])
  }

  lemma IntTextHasNoColon(i: int)
    ensures ':' !in IntToString(i)
  {
  }

  /** Splitting a built key on ":" gives back the namespace and every part's text. */
  lemma {:induction false} BuildKeySplits(namespace: string, parts: seq<Part>)
    requires parts != [] && ColonFree(namespace, parts)
    ensures Split(BuildKey(namespace, parts), ':') == [namespace] + PartTexts(parts)
  {
    var texts := PartTexts(parts);
    var all := [namespace] + texts;
    assert Join(":", all) == BuildKey(namespace, parts) by {
      assert all[1..] == texts;
    }
    forall p | p in all
      ensures ':' !in p
    {
      if p != namespace {
        var i :| 0 <= i < |texts| && texts[i] == p;
      }
    }
    SplitOfJoin(all, ':');
  }

  /**
   * Keys built from colon-free parts determine the namespace and the parts'
   * texts; parts with equal str() forms (the int 1 and the str "1") collide.
   */
  lemma BuildKeyInjective(ns1: string, ps1: seq<Part>, ns2: string, ps2: seq<Part>)
    requires ps1 != [] && ColonFree(ns1, ps1)
    requires ps2 != [] && ColonFree(ns2, ps2)
    requires BuildKey(ns1, ps1) == BuildKey(ns2, ps2)
    ensures ns1 == ns2 && PartTexts(ps1) == PartTexts(ps2)
  {
    BuildKeySplits(ns1, ps1);
    BuildKeySplits(ns2, ps2);
    assert ([ns1] + PartTexts(ps1))[1..] == PartTexts(ps1);
    assert ([ns2] + PartTexts(ps2))[1..] == PartTexts(ps2);
  }

  /** A key ends with the str() of its last part. */
  lemma BuildKeyEndsWithLast(namespace: string, parts: seq<Part>)
    requires parts != []
    ensures var k := BuildKey(namespace, parts); var t := PartText(parts[|parts| - 1]);
      |k| >= |t| && k[|k| - |t|..] == t
  {
    var texts := PartTexts(parts);
    JoinEndsWithLast(":", texts);
    var j := Join(":", texts);
    var k := namespace + ":" + j;
    assert k[|k| - |texts[|texts| - 1]|..] == j[|j| - |texts[|texts| - 1]|..];
  }

  /** Keys whose second parts start with different letters differ, whatever the other parts are. */
  lemma BuildKeysDifferInSecondPart(namespace: string, first: string, w1: string, rest1: seq<Part>, w2: string, rest2: seq<Part>)
    requires w1 != "" && w2 != "" && w1[0] != w2[0]
    ensures BuildKey(namespace, [PStr(first), PStr(w1)] + rest1) != BuildKey(namespace, [PStr(first), PStr(w2)] + rest2)
  {
    var t1 := PartTexts([PStr(first), PStr(w1)] + rest1);
    var t2 := PartTexts([PStr(first), PStr(w2)] + rest2);
    var k1 := BuildKey(namespace, [PStr(first), PStr(w1)] + rest1);
    var k2 := BuildKey(namespace, [PStr(first), PStr(w2)] + rest2);
    var at := |namespace| + 1 + |first| + 1;
    assert k1 == namespace + ":" + (first + ":" + Join(":", t1[1..]));
    assert k2 == namespace + ":" + (first + ":" + Join(":", t2[1..]));
    assert Join(":", t1[1..])[0] == w1[0];
    assert Join(":", t2[1..])[0] == w2[0];
    assert k1[at] == w1[0];
    assert k2[at] == w2[0];
  }

  /** The docstring's example key. */
  lemma BuildKeyExample()
    ensures BuildKey("uzinex_boost", [PStr("user"), PInt(123), PStr("profile")])
            == "uzinex_boost:user:123:profile"
  {
    assert IntToString(123) == "123" by {
      assert NatToString(1) == "1";
      assert NatToString(12) == "12";
    }
    assert PartTexts([PStr("user"), PInt(123), PStr("profile")]) == ["user", "123", "profile"];
  }

  /** CacheBackend.from_json: None decodes to None, undecodable text is returned as it is. */
  function FromJson(raw: Option<Value>): Result<Json, CacheError>
  {
    match raw
    case None => Success(JNull)
    case Some(VDoc(j)) => Success(j)
    case Some(VText(s)) => Success(JStr(s))
    case Some(VInt(_)) => Failure(TypeError)
  }

  /** CacheBackend.to_json: the compact JSON text of a document. */
  function ToJson(j: Json): (v: Value)
    ensures FromJson(Some(v)) == Success(j)
  {
    VDoc(j)
  }

  /** The argument of CacheBackend.ttl: None, a timedelta or an int. */
  datatype TtlArg = NoTtl | Delta(d: TimeDelta) | Secs(n: int)

  /** CacheBackend.ttl */
  function Ttl(arg: TtlArg): (r: Option<int>)
    ensures arg.NoTtl? <==> r.None?
    ensures arg.Secs? ==> r == Some(arg.n)
    ensures arg.Delta? ==> r == Some(WholeSeconds(arg.d))
  {
    match arg
    case NoTtl => None
    case Delta(d) => Some(WholeSeconds(d))
    case Secs(n) => Some(n)
  }

  // ---------------------------------------------------------------------
  // The store and its operations, as values

  datatype Store = Store(values: map<string, Value>, expiry: map<string, int>)

  const EmptyStore := Store(map[], map[])

  /** Every recorded expiry belongs to a stored key. */
  predicate Tidy(s: Store)
  {
    s.expiry.Keys <= s.values.Keys
  }

  predicate Expired(s: Store, key: string, now: int)
  {
    key in s.expiry && s.expiry[key] < now
  }

  function Forget(s: Store, key: string): Store
  {
    Store(s.values - {key}, s.expiry - {key})
  }

  /** What MemoryCache.get returns. */
  function GetResult(s: Store, key: string, now: int): Option<Value>
  {
    if Expired(s, key, now) then None
    else if key in s.values then Some(s.values[key])
    else None
  }

  /** The store after MemoryCache.get: an expired key is removed. */
  function AfterGet(s: Store, key: string, now: int): Store
  {
    if Expired(s, key, now) then Forget(s, key) else s
  }

  /** The store after MemoryCache.set: the expiry is recorded only for a nonzero `expire`. */
  function AfterSet(s: Store, key: string, v: Value, expire: int, now: int): Store
  {
    Store(s.values[key := v], if expire != 0 then s.expiry[key := now + expire] else s.expiry)
  }

  /** What MemoryCache.delete returns: 1 when a value was stored. */
  function DeleteCount(s: Store, key: string): int
  {
    if key in s.values then 1 else 0
  }

  function AfterDelete(s: Store, key: string): Store
  {
    Forget(s, key)
  }

  /** int(value) on a stored value. */
  function IntOfValue(v: Value): Option<int>
  {
    match v
    case VInt(n) => Some(n)
    case VText(t) => ParseInt(t)
    // The JSON text of an int is its decimal form; the text of any other
    // document starts with a quote, bracket or letter, or holds a '.', and
    // int() rejects it.
    case VDoc(d) => if d.JInt? then ParseInt(IntToString(d.i)) else None
  }

  /** What MemoryCache.incr returns: int(stored or 0) + amount, or the ValueError. */
  function IncrResult(s: Store, key: string, amount: int): Result<int, CacheError>
  {
    if key !in s.values then Success(amount)
    else match IntOfValue(s.values[key])
      case Some(n) => Success(n + amount)
      case None => Failure(ValueError)
  }

  function AfterIncr(s: Store, key: string, amount: int, expire: int, now: int): Store
  {
    match IncrResult(s, key, amount)
    case Success(n) => AfterSet(s, key, VInt(n), expire, now)
    case Failure(_) => s
  }

  function AfterExpire(s: Store, key: string, seconds: int, now: int): Store
  {
    if key in s.values then Store(s.values, s.expiry[key := now + seconds]) else s
  }

  // ---------------------------------------------------------------------
  // Properties of the store

  /** A value just set is read back until its expiry passes. */
  lemma GetAfterSet(s: Store, key: string, v: Value, expire: int, now: int, later: int)
    requires expire > 0 && later <= now + expire
    ensures GetResult(AfterSet(s, key, v, expire, now), key, later) == Some(v)
  {
  }

  /** A set without expiry keeps whatever expiry the key had before. */
  lemma SetWithoutExpireKeepsExpiry(s: Store, key: string, v: Value, now: int)
    ensures AfterSet(s, key, v, 0, now).expiry == s.expiry
    ensures AfterSet(s, key, v, 0, now).values[key] == v
  {
  }

  /** Once the expiry has passed, get returns None and removes value and expiry. */
  lemma GetExpired(s: Store, key: string, v: Value, expire: int, now: int, later: int)
    requires expire != 0 && later > now + expire
    ensures var t := AfterSet(s, key, v, expire, now);
      GetResult(t, key, later) == None
      && key !in AfterGet(t, key, later).values && key !in AfterGet(t, key, later).expiry
  {
  }

  /** exists looks only at values: an expired key that no get has touched still exists. */
  lemma ExistsIgnoresExpiry(s: Store, key: string, v: Value, expire: int, now: int, later: int)
    requires expire != 0 && later > now + expire
    ensures key in AfterSet(s, key, v, expire, now).values
  {
  }

  /** delete reports whether a value was stored and leaves neither value nor expiry. */
  lemma DeleteRemoves(s: Store, key: string, now: int)
    ensures DeleteCount(s, key) == 1 <==> key in s.values
    ensures DeleteCount(s, key) == 0 <==> key !in s.values
    ensures GetResult(AfterDelete(s, key), key, now) == None
    ensures key !in AfterDelete(s, key).values && key !in AfterDelete(s, key).expiry
  {
  }

  /** incr treats a missing key as 0 and stores the int it returns. */
  lemma IncrStoresResult(s: Store, key: string, amount: int, expire: int, now: int)
    ensures key !in s.values ==> IncrResult(s, key, amount) == Success(amount)
    ensures IncrResult(s, key, amount).Success? ==>
      AfterIncr(s, key, amount, expire, now).values[key] == VInt(IncrResult(s, key, amount).value)
    ensures IncrResult(s, key, amount).Success? && expire != 0 ==>
      AfterIncr(s, key, amount, expire, now).expiry[key] == now + expire
  {
  }

  /** Two increments add up, whatever expiry the first one set. */
  lemma {:induction false} IncrTwice(s: Store, key: string, a: int, b: int, e1: int, e2: int, t1: int, t2: int)
    requires IncrResult(s, key, a).Success?
    ensures IncrResult(AfterIncr(s, key, a, e1, t1), key, b)
            == Success(IncrResult(s, key, a).value + b)
  {
  }

  /** A counter written by incr holds an int that incr reads back. */
  lemma IntOfDocInt(i: int)
    ensures IntOfValue(VDoc(JInt(i))) == Some(i)
  {
    ParseIntOfIntToString(i);
  }

  /** expire on an absent key changes nothing; on a present key it only moves the expiry. */
  lemma ExpireOnlyMovesExpiry(s: Store, key: string, seconds: int, now: int)
    ensures key !in s.values ==> AfterExpire(s, key, seconds, now) == s
    ensures key in s.values ==>
      AfterExpire(s, key, seconds, now).values == s.values
      && AfterExpire(s, key, seconds, now).expiry[key] == now + seconds
  {
  }

  /** Every operation on one key leaves every other key as it was. */
  lemma OtherKeysUntouched(s: Store, key: string, other: string, v: Value, n: int, e: int, now: int)
    requires other != key
    ensures GetResult(AfterGet(s, key, now), other, now) == GetResult(s, other, now)
    ensures GetResult(AfterSet(s, key, v, e, now), other, now) == GetResult(s, other, now)
    ensures GetResult(AfterDelete(s, key), other, now) == GetResult(s, other, now)
    ensures GetResult(AfterIncr(s, key, n, e, now), other, now) == GetResult(s, other, now)
    ensures GetResult(AfterExpire(s, key, n, now), other, now) == GetResult(s, other, now)
  {
  }

  /** No operation records an expiry for a key without a value. */
  lemma OperationsKeepTidy(s: Store, key: string, v: Value, n: int, e: int, now: int)
    requires Tidy(s)
    ensures Tidy(AfterGet(s, key, now))
    ensures Tidy(AfterSet(s, key, v, e, now))
    ensures Tidy(AfterDelete(s, key))
    ensures Tidy(AfterIncr(s, key, n, e, now))
    ensures Tidy(AfterExpire(s, key, n, now))
    ensures Tidy(EmptyStore)
  {
  }

  // ---------------------------------------------------------------------
  // MemoryCache

  /** MemoryCache: the in-memory backend; the lock is dropped (calls are sequential). */
  class MemoryCache {
    const namespace: string
    var store: map<string, Value>
    var ttl: map<string, int>

    function Model(): Store
      reads this
    {
      Store(store, ttl)
    }

    constructor ()
      ensures namespace == "memory" && Model() == EmptyStore
    {
      namespace := "memory";
      store := map[];
      ttl := map[];
    }

    method Get(key: string, now: int) returns (r: Option<Value>)
      modifies this
      ensures r == GetResult(old(Model()), key, now)
      ensures Model() == AfterGet(old(Model()), key, now)
    {
      if key in ttl && ttl[key] < now {
        var _ := Delete(key);
        return None;
      }
      r := if key in store then Some(store[key]) else None;
    }

    method Set(key: string, value: Value, expire: int, now: int) returns (ok: bool)
      modifies this
      ensures ok
      ensures Model() == AfterSet(old(Model()), key, value, expire, now)
    {
      store := store[key := value];
      if expire != 0 {
        ttl := ttl[key := now + expire];
      }
      return true;
    }

    method Delete(key: string) returns (count: int)
      modifies this
      ensures count == DeleteCount(old(Model()), key)
      ensures Model() == AfterDelete(old(Model()), key)
    {
      var existed := key in store;
      store := store - {key};
      ttl := ttl - {key};
      count := if existed then 1 else 0;
    }

    method Exists(key: string) returns (b: bool)
      ensures b <==> key in store
    {
      b := key in store;
    }

    method Incr(key: string, amount: int, expire: int, now: int) returns (r: Result<int, CacheError>)
      modifies this
      ensures r == IncrResult(old(Model()), key, amount)
      ensures Model() == AfterIncr(old(Model()), key, amount, expire, now)
    {
      var current := 0;
      if key in store {
        var parsed := IntOfValue(store[key]);
        if parsed.None? {
          return Failure(ValueError);
        }
        current := parsed.value;
      }
      current := current + amount;
      store := store[key := VInt(current)];
      if expire != 0 {
        ttl := ttl[key := now + expire];
      }
      return Success(current);
    }

    method Expire(key: string, seconds: int, now: int) returns (ok: bool)
      modifies this
      ensures ok <==> key in old(store)
      ensures Model() == AfterExpire(old(Model()), key, seconds, now)
    {
      if key !in store {
        return false;
      }
      ttl := ttl[key := now + seconds];
      return true;
    }

    method Close()
      modifies this
      ensures Model() == EmptyStore
    {
      store := map[];
      ttl := map[];
    }

    /** CacheBackend.build_key on this backend's namespace. */
    function Key(parts: seq<Part>): string
      reads this
    {
      BuildKey(namespace, parts)
    }
  }
}
