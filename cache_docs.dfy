/**
 * What the cache adapters (order, task and user caches) do with a stored
 * value: the `if not raw` test, from_json, dict.get and int() on the
 * decoded document.
 */
module CacheDocs {
  import opened Wrappers
  import opened Text
  import opened CacheBase

  /** Python truth of a stored value: 0 and "" are false; JSON text is never empty. */
  predicate TruthyValue(v: Value)
  {
    match v
    case VInt(n) => n != 0
    case VText(t) => t != ""
    case VDoc(_) => true
  }

  /** Python truth of a decoded document. */
  predicate Truthy(j: Json)
  {
    match j
    case JNull => false
    case JBool(b) => b
    case JInt(i) => i != 0
    case JNum(r) => r != 0.0
    case JStr(s) => s != ""
    case JList(items) => items != []
    case JObj(fields) => fields != map[]
  }

  /** get(key) followed by `if not raw: return None` and from_json(raw). */
  function ReadDoc(s: Store, key: string, now: int): (r: Result<Option<Json>, CacheError>)
    ensures GetResult(s, key, now).None? ==> r == Success(None)
    ensures (exists j :: GetResult(s, key, now) == Some(VDoc(j))) ==> r == Success(Some(GetResult(s, key, now).value.doc))
  {
    var raw := GetResult(s, key, now);
    if raw.None? || !TruthyValue(raw.value) then Success(None)
    else match FromJson(raw)
      case Success(j) => Success(Some(j))
      case Failure(e) => Failure(e)
  }

  /** A document just stored with a positive TTL reads back until the TTL runs out. */
  lemma ReadDocAfterSet(s: Store, key: string, j: Json, ttl: int, now: int, later: int)
    requires ttl > 0 && later <= now + ttl
    ensures ReadDoc(AfterSet(s, key, ToJson(j), ttl, now), key, later) == Success(Some(j))
  {
    GetAfterSet(s, key, ToJson(j), ttl, now, later);
  }

  /** doc.get(field, default): a dict gives the field or the default; anything else has no .get. */
  function FieldOr(j: Json, field: string, default: Json): (r: Result<Json, CacheError>)
    ensures j.JObj? ==> r == Success(if field in j.fields then j.fields[field] else default)
    ensures !j.JObj? ==> r == Failure(AttributeError)
  {
    if j.JObj? then Success(if field in j.fields then j.fields[field] else default)
    else Failure(AttributeError)
  }

  /** int(r) for a float: truncation toward zero. */
  function Truncate(r: real): (i: int)
    ensures r >= 0.0 ==> i as real <= r < i as real + 1.0
    ensures r < 0.0 ==> i as real - 1.0 < r <= i as real
  {
    if r >= 0.0 then r.Floor else -((-r).Floor)
  }

  /** int(x) on a decoded document. */
  function IntOf(j: Json): (r: Result<int, CacheError>)
    ensures j.JInt? ==> r == Success(j.i)
  {
    match j
    case JInt(i) => Success(i)
    case JBool(b) => Success(if b then 1 else 0)
    case JNum(x) => Success(Truncate(x))
    case JStr(s) => if ParseInt(s).Some? then Success(ParseInt(s).value) else Failure(ValueError)
    case _ => Failure(TypeError)
  }

  /** int(doc.get(field, default)) */
  function IntField(j: Json, field: string, default: int): (r: Result<int, CacheError>)
    ensures j.JObj? && field in j.fields && j.fields[field].JInt? ==> r == Success(j.fields[field].i)
    ensures j.JObj? && field !in j.fields ==> r == Success(default)
    ensures !j.JObj? ==> r == Failure(AttributeError)
  {
    match FieldOr(j, field, JInt(default))
    case Success(v) => IntOf(v)
    case Failure(e) => Failure(e)
  }
}
