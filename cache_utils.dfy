/**
 * The stand-alone cache helpers: build_cache_key, which drops None parts
 * and strips the rest (unlike CacheBackend.build_key), and a from_json
 * that swallows every decoding exception.
 */
module CacheUtils {
  import opened Wrappers
  import opened Text
  import opened PyValues
  import opened CacheBase

  /** [str(p).strip() for p in parts if p is not None] */
  function CleanParts(parts: seq<PyValue>): seq<string>
  {
    if parts == [] then []
    else
      var rest := CleanParts(parts[1..]);
      if parts[0].PyNone? then rest else [Strip(Str(parts[0]))] + rest
  }

  /** Every part of a built key is already stripped: stripping it again changes nothing. */
  lemma {:induction false} CleanPartsAreStripped(parts: seq<PyValue>)
    ensures forall t :: t in CleanParts(parts) ==> Strip(t) == t
  {
    if parts != [] {
      var rest := CleanParts(parts[1..]);
      assert forall t :: t in rest ==> Strip(t) == t by {
        CleanPartsAreStripped(parts[1..]);
      }
      if !parts[0].PyNone? {
        var t := Strip(Str(parts[0]));
        assert Strip(t) == t by {
          StripIsIdempotent(Str(parts[0]));
        }
        assert CleanParts(parts) == [t] + rest;
      }
    }
  }

  lemma StripIsIdempotent(s: string)
    ensures Strip(Strip(s)) == Strip(s)
  {
    var t := Strip(s);
    if t != "" {
      assert !IsSpace(TrimStart(s)[0]);
      assert t[0] == TrimStart(s)[0];
      StripOfDigitText(t);
    }
  }

  /** build_cache_key: the namespace and the cleaned parts, joined by ":". */
  function BuildCacheKey(namespace: string, parts: seq<PyValue>): string
  {
    Join(":", [namespace] + CleanParts(parts))
  }

  /** A Part as build_cache_key receives it. */
  function Lift(parts: seq<Part>): (vs: seq<PyValue>)
    ensures |vs| == |parts|
    ensures forall i :: 0 <= i < |parts| ==> !vs[i].PyNone? && Str(vs[i]) == PartText(parts[i])
  {
    if parts == [] then []
    else [match parts[0] case PStr(s) => PyText(s) case PInt(i) => PyInt(i)] + Lift(parts[1..])
  }

  lemma {:induction false} CleanPartsOfStripped(parts: seq<Part>)
    requires forall i :: 0 <= i < |parts| ==> Strip(PartText(parts[i])) == PartText(parts[i])
    ensures CleanParts(Lift(parts)) == PartTexts(parts)
  {
    if parts != [] {
      CleanPartsOfStripped(parts[1..]);
      assert Lift(parts)[1..] == Lift(parts[1..]);
    }
  }

  /**
   * With at least one part, no None and nothing to strip, the two key
   * builders agree.
   */
  lemma BuildCacheKeyAgreesWithBuildKey(namespace: string, parts: seq<Part>)
    requires parts != []
    requires forall i :: 0 <= i < |parts| ==> Strip(PartText(parts[i])) == PartText(parts[i])
    ensures BuildCacheKey(namespace, Lift(parts)) == BuildKey(namespace, parts)
  {
    CleanPartsOfStripped(parts);
    var all := [namespace] + PartTexts(parts);
    assert all[1..] == PartTexts(parts);
  }

  /**
   * Where they differ: build_cache_key strips the blanks around a part,
   * build_key keeps them (" 7 " gives "ns:7" and "ns: 7 ").
   */
  lemma BuildCacheKeyStrips(namespace: string, w: string)
    requires w != [] && !IsSpace(w[0]) && !IsSpace(w[|w| - 1])
    ensures BuildCacheKey(namespace, [PyText(" " + w + " ")]) == namespace + ":" + w
    ensures BuildKey(namespace, [PStr(" " + w + " ")]) == namespace + ": " + w + " "
  {
    var p := " " + w + " ";
    assert BuildCacheKey(namespace, [PyText(p)]) == namespace + ":" + w by {
      assert CleanParts([PyText(p)]) == [w] by {
        CleanPartsOfOne(PyText(p));
        StripOfPadded(w);
      }
      JoinOfTwo(namespace, w);
    }
    assert BuildKey(namespace, [PStr(p)]) == namespace + ":" + p by {
      assert PartTexts([PStr(p)]) == [p];
    }
    assert namespace + ":" + p == namespace + ": " + w + " ";
  }

  lemma CleanPartsOfOne(v: PyValue)
    ensures CleanParts([v]) == if v.PyNone? then [] else [Strip(Str(v))]
  {
    assert [v][1..] == [];
  }

  lemma JoinOfTwo(a: string, b: string)
    ensures Join(":", [a, b]) == a + ":" + b
  {
    assert [a, b][1..] == [b];
  }

  /** With no parts build_cache_key gives the bare namespace while build_key leaves a trailing ":". */
  lemma BuildCacheKeyOfNoParts(namespace: string)
    ensures BuildCacheKey(namespace, []) == namespace
    ensures BuildKey(namespace, []) == namespace + ":"
  {
    assert [namespace] + [] == [namespace];
  }

  /** A None part is dropped, separator and all. */
  lemma BuildCacheKeyDropsNone(namespace: string, parts: seq<PyValue>)
    ensures BuildCacheKey(namespace, [PyNone] + parts) == BuildCacheKey(namespace, parts)
  {
    assert ([PyNone] + parts)[1..] == parts;
  }

  /**
   * from_json of the cache utilities: None is None, and any value that
   * json.loads refuses, an int included, is returned as it is.
   */
  function LenientFromJson(raw: Option<Value>): (j: Json)
    ensures raw.None? ==> j == JNull
  {
    match raw
    case None => JNull
    case Some(VDoc(d)) => d
    case Some(VText(s)) => JStr(s)
    case Some(VInt(n)) => JInt(n)
  }

  /** It agrees with CacheBackend.from_json except on an int, where the backend's version raises TypeError. */
  lemma LenientFromJsonAgrees(raw: Option<Value>)
    ensures FromJson(raw).Success? ==> LenientFromJson(raw) == FromJson(raw).value
    ensures FromJson(raw).Failure? <==> raw.Some? && raw.value.VInt?
    ensures raw.Some? && raw.value.VInt? ==> LenientFromJson(raw) == JInt(raw.value.n)
  {
  }

  /** Whatever to_json wrote comes back. */
  lemma LenientFromJsonOfToJson(j: Json)
    ensures LenientFromJson(Some(ToJson(j))) == j
  {
  }
}
