/**
 * validate_webapp_data: the Telegram adapter's init-data check. The query
 * string is parsed as parse_qsl(strict_parsing=True) does it and turned
 * into a dict; user, auth_date and hash must be there; the other fields,
 * sorted by key as "key=value" lines joined by "\n", are signed and
 * compared with the hash; then auth_date is read and its age checked.
 *
 * The HMAC over SHA-256 of the bot token is the parameter sign, URL
 * decoding is unquote, and reading the user JSON is userIdOf and
 * usernameOf; the clock is now.
 */
module WebAppAuth {
  import opened Wrappers
  import opened Text
  import opened Sorting

  /** max_age_seconds by default: a day. */
  const DefaultMaxAge: int := 86400

  /** The messages InvalidInitData is raised with. */
  datatype Reason = MissingInitData | MissingFields | InvalidSignature | InvalidAuthDate | InvalidUserJson

  /**
   * InvalidInitData and ExpiredInitData, plus the two exceptions that
   * escape unconverted: parse_qsl's ValueError for a field without "=",
   * compare_digest's TypeError for a hash that is not ASCII, and the
   * ValueError or OverflowError of datetime.fromtimestamp for an
   * auth_date outside the years 1 to 9999.
   */
  datatype WebAppError = InvalidInitData(reason: Reason) | ExpiredInitData | BadQueryField | CompareTypeError
                       | TimestampOutOfRange

  /** 0001-01-01T00:00:00Z, the first second a datetime can hold. */
  const MinTimestamp: int := -62135596800
  /** 10000-01-01T00:00:00Z, the first second past the last year a datetime can hold. */
  const MaxTimestamp: int := 253402300800

  /** datetime.fromtimestamp(ts, tz=timezone.utc) returns instead of raising. */
  predicate InDatetimeRange(ts: int)
  {
    MinTimestamp <= ts < MaxTimestamp
  }

  /** WebAppValidationResult; auth_datetime is kept as its timestamp. */
  datatype ValidationResult = ValidationResult(valid: bool, userId: int, username: Option<string>, authDate: int)

  // ---------------------------------------------------------------------
  // parse_qsl and dict

  /**
   * parse_qsl(..., strict_parsing=True) over the "&"-separated segments:
   * a segment without "=" (an empty one included) raises, a blank value
   * drops the pair, and name and value are decoded.
   */
  function ParseQsl(segs: seq<string>, unquote: string -> string): Result<seq<(string, string)>, WebAppError>
  {
    if segs == [] then Success([])
    else
      match ParseQsl(segs[..|segs| - 1], unquote)
      case Failure(e) => Failure(e)
      case Success(pairs) =>
        var seg := segs[|segs| - 1];
        if '=' !in seg then Failure(BadQueryField)
        else
          var kv := SplitOnce(seg, '=');
          if kv.1 == "" then Success(pairs) else Success(pairs + [(unquote(kv.0), unquote(kv.1))])
  }

  /** Parsing fails exactly when some segment has no "=". */
  lemma {:induction false} ParseQslFails(segs: seq<string>, unquote: string -> string)
    ensures ParseQsl(segs, unquote).Failure? <==> exists j :: 0 <= j < |segs| && '=' !in segs[j]
    ensures ParseQsl(segs, unquote).Failure? ==> ParseQsl(segs, unquote).error == BadQueryField
  {
    if segs != [] {
      var prefix := segs[..|segs| - 1];
      ParseQslFails(prefix, unquote);
      if exists j :: 0 <= j < |prefix| && '=' !in prefix[j] {
        var j :| 0 <= j < |prefix| && '=' !in prefix[j];
        assert segs[j] == prefix[j];
      }
      if exists j :: 0 <= j < |segs| && '=' !in segs[j] {
        var j :| 0 <= j < |segs| && '=' !in segs[j];
        if j < |prefix| {
          assert prefix[j] == segs[j];
        }
      }
    }
  }

  /** A field with a blank value is dropped as if it had not been sent. */
  lemma ParseQslDropsBlank(segs: seq<string>, name: string, unquote: string -> string)
    requires '=' !in name
    ensures ParseQsl(segs + [name + "="], unquote) == ParseQsl(segs, unquote)
  {
    var seg := name + "=";
    assert (segs + [seg])[..|segs|] == segs;
    var kv := SplitOnce(seg, '=');
    assert |kv.0| == |name| by {
      assert forall j :: 0 <= j < |name| ==> seg[j] != '=';
      assert seg[|kv.0|] == '=';
      assert seg[|name|] == '=';
      assert forall j :: 0 <= j < |kv.0| ==> seg[j] == kv.0[j] && kv.0[j] != '=';
    }
    assert kv.1 == "";
  }

  /** dict(pairs): a later pair for the same name wins. */
  function ToDict(pairs: seq<(string, string)>): (d: map<string, string>)
    ensures forall k :: k in d <==> exists j :: 0 <= j < |pairs| && pairs[j].0 == k
  {
    if pairs == [] then map[]
    else
      var prefix := pairs[..|pairs| - 1];
      assert forall j :: 0 <= j < |prefix| ==> prefix[j] == pairs[j];
      ToDict(prefix)[pairs[|pairs| - 1].0 := pairs[|pairs| - 1].1]
  }

  /** The last pair sent for a name is the one the dict keeps. */
  lemma ToDictLastWins(pairs: seq<(string, string)>, k: string, v: string)
    ensures ToDict(pairs + [(k, v)])[k] == v
  {
    assert (pairs + [(k, v)])[..|pairs|] == pairs;
  }

  // ---------------------------------------------------------------------
  // The data-check string

  /** The members of a set of keys, in some order. */
  ghost function SeqOfSet(s: set<string>): (xs: seq<string>)
    ensures |xs| == |s|
    ensures forall x :: x in xs <==> x in s
  {
    if s == {} then []
    else
      var x :| x in s;
      [x] + SeqOfSet(s - {x})
  }

  /** sorted(parsed_data.items()) less the hash: the keys, in order. */
  ghost function SortedKeys(d: map<string, string>): seq<string>
  {
    Sort(SeqOfSet(d.Keys - {"hash"}))
  }

  /** The "key=value" line of every key. */
  function Lines(d: map<string, string>, keys: seq<string>): (lines: seq<string>)
    requires forall k :: k in keys ==> k in d
    ensures |lines| == |keys|
    ensures forall i :: 0 <= i < |keys| ==> lines[i] == keys[i] + "=" + d[keys[i]]
  {
    if keys == [] then [] else [keys[0] + "=" + d[keys[0]]] + Lines(d, keys[1..])
  }

  /** "\n".join(f"{k}={v}" for k, v in sorted(parsed_data.items()) if k != "hash") */
  ghost function DataCheckString(d: map<string, string>): string
  {
    SortedKeysFacts(d);
    Join("\n", Lines(d, SortedKeys(d)))
  }

  /** The lines are in key order and there is one for every field except the hash. */
  lemma SortedKeysFacts(d: map<string, string>)
    ensures Sorted(SortedKeys(d))
    ensures forall k :: k in SortedKeys(d) <==> k in d && k != "hash"
    ensures |SortedKeys(d)| == |d.Keys - {"hash"}|
  {
    var xs := SeqOfSet(d.Keys - {"hash"});
    var ks := Sort(xs);
    assert |ks| == |multiset(ks)| == |multiset(xs)| == |xs|;
    forall k
      ensures k in ks <==> k in d && k != "hash"
    {
      assert k in ks <==> k in multiset(ks);
      assert k in xs <==> k in multiset(xs);
    }
  }

  /** Lines agree wherever the two dicts agree. */
  lemma {:induction false} LinesAgree(d1: map<string, string>, d2: map<string, string>, keys: seq<string>)
    requires forall k :: k in keys ==> k in d1 && k in d2 && d1[k] == d2[k]
    ensures Lines(d1, keys) == Lines(d2, keys)
  {
    if keys != [] {
      LinesAgree(d1, d2, keys[1..]);
    }
  }

  /** The hash does not sign itself: whatever its value, or without it, the data-check string is the same. */
  lemma DataCheckStringIgnoresHash(d: map<string, string>, h: string)
    ensures DataCheckString(d["hash" := h]) == DataCheckString(d)
    ensures DataCheckString(d - {"hash"}) == DataCheckString(d)
  {
    var e := d["hash" := h];
    var f := d - {"hash"};
    assert e.Keys - {"hash"} == d.Keys - {"hash"};
    assert f.Keys - {"hash"} == d.Keys - {"hash"};
    DataCheckStringAgrees(e, d);
    DataCheckStringAgrees(f, d);
  }

  /** Two dicts with the same fields besides the hash, and the same values there, sign the same string. */
  lemma DataCheckStringAgrees(d1: map<string, string>, d2: map<string, string>)
    requires d1.Keys - {"hash"} == d2.Keys - {"hash"}
    requires forall k :: k in d1 && k in d2 && k != "hash" ==> d1[k] == d2[k]
    ensures DataCheckString(d1) == DataCheckString(d2)
  {
    assert SortedKeys(d1) == SortedKeys(d2);
    SortedKeysFacts(d2);
    assert forall k :: k in SortedKeys(d2) ==> k in d2 && k != "hash" && k in d2.Keys - {"hash"};
    LinesAgree(d1, d2, SortedKeys(d2));
  }

  // ---------------------------------------------------------------------
  // validate_webapp_data

  /** A dict entry that all([...]) accepts: present and not empty. */
  predicate Present(d: map<string, string>, key: string)
  {
    key in d && d[key] != ""
  }

  /** compare_digest accepts str arguments only when they are ASCII. */
  predicate IsAscii(s: string)
  {
    forall i :: 0 <= i < |s| ==> s[i] < '\U{80}'
  }

  /** The checks after parsing, in the order the source makes them. */
  ghost function CheckFields(d: map<string, string>, sign: string -> string, userIdOf: string -> Option<int>,
                       usernameOf: string -> Option<string>, now: int, maxAge: int): Result<ValidationResult, WebAppError>
  {
    if !(Present(d, "user") && Present(d, "auth_date") && Present(d, "hash")) then Failure(InvalidInitData(MissingFields))
    else if !IsAscii(d["hash"]) then Failure(CompareTypeError)
    else if sign(DataCheckString(d)) != d["hash"] then Failure(InvalidInitData(InvalidSignature))
    else
      match ParseInt(d["auth_date"])
      case None => Failure(InvalidInitData(InvalidAuthDate))
      case Some(ts) =>
        if now - ts > maxAge then Failure(ExpiredInitData)
        else
          match userIdOf(d["user"])
          case None => Failure(InvalidInitData(InvalidUserJson))
          case Some(id) =>
            if !InDatetimeRange(ts) then Failure(TimestampOutOfRange)
            else Success(ValidationResult(true, id, usernameOf(d["user"]), ts))
  }

  /** validate_webapp_data */
  ghost function ValidateWebAppData(initData: string, sign: string -> string, unquote: string -> string,
                              userIdOf: string -> Option<int>, usernameOf: string -> Option<string>,
                              now: int, maxAge: int): Result<ValidationResult, WebAppError>
  {
    if initData == "" then Failure(InvalidInitData(MissingInitData))
    else
      match ParseQsl(Split(initData, '&'), unquote)
      case Failure(e) => Failure(e)
      case Success(pairs) => CheckFields(ToDict(pairs), sign, userIdOf, usernameOf, now, maxAge)
  }

  /**
   * After parsing, success means: user, auth_date and hash are present and
   * not empty, the hash is ASCII and is the signature of the data-check
   * string, auth_date is an int at most maxAge seconds old that a datetime
   * can hold, and the user JSON gave an id; the result is then valid and
   * carries that id and auth_date.
   */
  lemma CheckFieldsSuccess(d: map<string, string>, sign: string -> string, userIdOf: string -> Option<int>,
                           usernameOf: string -> Option<string>, now: int, maxAge: int)
    ensures var r := CheckFields(d, sign, userIdOf, usernameOf, now, maxAge);
      r.Success? <==>
        Present(d, "user") && Present(d, "auth_date") && Present(d, "hash")
        && IsAscii(d["hash"]) && sign(DataCheckString(d)) == d["hash"]
        && ParseInt(d["auth_date"]).Some? && now - ParseInt(d["auth_date"]).value <= maxAge
        && userIdOf(d["user"]).Some? && InDatetimeRange(ParseInt(d["auth_date"]).value)
    ensures var r := CheckFields(d, sign, userIdOf, usernameOf, now, maxAge);
      r.Success? ==>
        r.value.valid && Some(r.value.userId) == userIdOf(d["user"]) && r.value.username == usernameOf(d["user"])
        && Some(r.value.authDate) == ParseInt(d["auth_date"]) && now - r.value.authDate <= maxAge
        && InDatetimeRange(r.value.authDate)
  {
  }

  /** Whatever fails before the field checks is an empty input or a field without "=". */
  lemma ValidateWebAppDataParses(initData: string, sign: string -> string, unquote: string -> string,
                                 userIdOf: string -> Option<int>, usernameOf: string -> Option<string>,
                                 now: int, maxAge: int)
    ensures var r := ValidateWebAppData(initData, sign, unquote, userIdOf, usernameOf, now, maxAge);
      initData != "" && ParseQsl(Split(initData, '&'), unquote).Success? ==>
        r == CheckFields(ToDict(ParseQsl(Split(initData, '&'), unquote).value), sign, userIdOf, usernameOf, now, maxAge)
    ensures var r := ValidateWebAppData(initData, sign, unquote, userIdOf, usernameOf, now, maxAge);
      initData != "" && (exists j :: 0 <= j < |Split(initData, '&')| && '=' !in Split(initData, '&')[j]) ==>
        r == Failure(BadQueryField)
  {
    ParseQslFails(Split(initData, '&'), unquote);
  }

  /** Empty input, a missing field, a bad signature and a stale auth_date are each refused with their own error. */
  lemma ValidateWebAppDataRefusals(d: map<string, string>, sign: string -> string, unquote: string -> string,
                                   userIdOf: string -> Option<int>, usernameOf: string -> Option<string>,
                                   now: int, maxAge: int)
    ensures ValidateWebAppData("", sign, unquote, userIdOf, usernameOf, now, maxAge) == Failure(InvalidInitData(MissingInitData))
    ensures !Present(d, "hash") ==> CheckFields(d, sign, userIdOf, usernameOf, now, maxAge) == Failure(InvalidInitData(MissingFields))
    ensures Present(d, "user") && Present(d, "auth_date") && Present(d, "hash") && IsAscii(d["hash"])
            && sign(DataCheckString(d)) != d["hash"]
            ==> CheckFields(d, sign, userIdOf, usernameOf, now, maxAge) == Failure(InvalidInitData(InvalidSignature))
    ensures Present(d, "user") && Present(d, "auth_date") && Present(d, "hash") && IsAscii(d["hash"])
            && sign(DataCheckString(d)) == d["hash"]
            && ParseInt(d["auth_date"]).Some? && now - ParseInt(d["auth_date"]).value > maxAge
            ==> CheckFields(d, sign, userIdOf, usernameOf, now, maxAge) == Failure(ExpiredInitData)
    ensures Present(d, "user") && Present(d, "auth_date") && Present(d, "hash") && IsAscii(d["hash"])
            && sign(DataCheckString(d)) == d["hash"]
            && ParseInt(d["auth_date"]).Some? && now - ParseInt(d["auth_date"]).value <= maxAge
            && userIdOf(d["user"]).Some? && ParseInt(d["auth_date"]).value >= MaxTimestamp
            ==> CheckFields(d, sign, userIdOf, usernameOf, now, maxAge) == Failure(TimestampOutOfRange)
  {
  }
}
