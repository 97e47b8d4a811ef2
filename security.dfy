/**
 * The security layer: the Telegram Mini App init-data check of the core
 * (split on "&", each field at its first "=", the "hash" field set apart,
 * the other "key=value" segments sorted and joined by "\n" and signed),
 * the JWT payload builder and the identifier check of create_user_session.
 * The HMAC key derivation and digest are one parameter, sign; JWT encoding
 * itself is not part of this model.
 */
module Security {
  import opened Wrappers
  import opened Text
  import opened Sorting
  import opened PyValues

  // ---------------------------------------------------------------------
  // validate_telegram_init_data

  /**
   * The ways validate_telegram_init_data refuses: the 400 for empty input,
   * the 403 for a bad signature, and the UnboundLocalError raised when no
   * "hash" field was sent.
   */
  datatype AuthError = MissingInitData | InvalidSignature | UnboundHash

  /** The loop's state: the data_check list, data_dict and received_hash. */
  datatype Scanned = Scanned(checks: seq<string>, dict: map<string, string>, hash: Option<string>)

  /** One segment of init_data: ignored without "=", set apart when its key is "hash", otherwise checked and kept. */
  function ScanItem(acc: Scanned, item: string): Scanned
  {
    if '=' !in item then acc
    else
      var kv := SplitOnce(item, '=');
      if kv.0 == "hash" then acc.(hash := Some(kv.1))
      else Scanned(acc.checks + [kv.0 + "=" + kv.1], acc.dict[kv.0 := kv.1], acc.hash)
  }

  /** The loop over the segments, from the first to the last. */
  function Scan(items: seq<string>): Scanned
  {
    if items == [] then Scanned([], map[], None)
    else ScanItem(Scan(items[..|items| - 1]), items[|items| - 1])
  }

  /** "\n".join(sorted(data_check)) */
  function CheckString(checks: seq<string>): string
  {
    Join("\n", Sort(checks))
  }

  /** The outcome of validate_telegram_init_data. */
  function InitDataResult(initData: string, sign: string -> string): Result<map<string, string>, AuthError>
  {
    if initData == "" then Failure(MissingInitData)
    else
      var s := Scan(Split(initData, '&'));
      if s.hash.None? then Failure(UnboundHash)
      else if sign(CheckString(s.checks)) != s.hash.value then Failure(InvalidSignature)
      else Success(s.dict)
  }

  /** validate_telegram_init_data, loop and all. */
  method ValidateTelegramInitData(initData: string, sign: string -> string)
    returns (r: Result<map<string, string>, AuthError>)
    ensures r == InitDataResult(initData, sign)
  {
    if initData == "" {
      return Failure(MissingInitData);
    }
    var items := Split(initData, '&');
    var checks: seq<string> := [];
    var dict: map<string, string> := map[];
    var receivedHash: Option<string> := None;
    var i := 0;
    while i < |items|
      invariant 0 <= i <= |items|
      invariant Scan(items[..i]) == Scanned(checks, dict, receivedHash)
    {
      var item := items[i];
      assert items[..i + 1][..i] == items[..i];
      if '=' in item {
        var kv := SplitOnce(item, '=');
        var key, value := kv.0, kv.1;
        if key == "hash" {
          receivedHash := Some(value);
        } else {
          checks := checks + [key + "=" + value];
          dict := dict[key := value];
        }
      }
      i := i + 1;
    }
    assert items[..|items|] == items;
    var checkString := CheckString(checks);
    if receivedHash.None? {
      return Failure(UnboundHash);
    }
    if sign(checkString) != receivedHash.value {
      return Failure(InvalidSignature);
    }
    return Success(dict);
  }

  /** A segment that goes into the data-check list: it has "=" and its key is not "hash". */
  predicate Checked(item: string)
  {
    '=' in item && SplitOnce(item, '=').0 != "hash"
  }

  /** The segments that are checked, in the order received. */
  function Kept(items: seq<string>): seq<string>
  {
    if items == [] then []
    else Kept(items[..|items| - 1]) + (if Checked(items[|items| - 1]) then [items[|items| - 1]] else [])
  }

  /**
   * The data-check list is the received segments themselves, less those
   * without "=" and the hash, each unchanged; and every returned pair is
   * one of them, so nothing is returned that the signature does not cover.
   * The returned dict never has a "hash" key.
   */
  lemma {:induction false} ScanFacts(items: seq<string>)
    ensures Scan(items).checks == Kept(items)
    ensures "hash" !in Scan(items).dict
    ensures forall k :: k in Scan(items).dict ==> k + "=" + Scan(items).dict[k] in Kept(items)
  {
    if items != [] {
      var prefix, item := items[..|items| - 1], items[|items| - 1];
      ScanFacts(prefix);
      if '=' in item {
        var kv := SplitOnce(item, '=');
        assert kv.0 + "=" + kv.1 == item;
      }
    }
  }

  /** How many times x is among the checked segments: as often as among all segments, when x is checked at all. */
  lemma {:induction false} KeptCount(items: seq<string>, x: string)
    ensures multiset(Kept(items))[x] == if Checked(x) then multiset(items)[x] else 0
  {
    if items != [] {
      var prefix, item := items[..|items| - 1], items[|items| - 1];
      KeptCount(prefix, x);
      assert items == prefix + [item];
    }
  }

  /**
   * The data-check string does not depend on the order of the segments:
   * any rearrangement of init_data's fields is signed the same way.
   */
  lemma CheckStringIgnoresOrder(a: seq<string>, b: seq<string>)
    requires multiset(a) == multiset(b)
    ensures CheckString(Scan(a).checks) == CheckString(Scan(b).checks)
  {
    ScanFacts(a);
    ScanFacts(b);
    forall x
      ensures multiset(Kept(a))[x] == multiset(Kept(b))[x]
    {
      KeptCount(a, x);
      KeptCount(b, x);
    }
    assert multiset(Kept(a)) == multiset(Kept(b));
    SortedPermutationIsUnique(Sort(Kept(a)), Sort(Kept(b)));
  }

  /** A segment without "=" changes nothing; of several "hash" fields the last one counts. */
  lemma ScanIgnoresAndOverrides(items: seq<string>, item: string, h: string)
    ensures '=' !in item ==> Scan(items + [item]) == Scan(items)
    ensures Scan(items + ["hash=" + h]).hash == Some(h)
    ensures Scan(items + ["hash=" + h]).checks == Scan(items).checks
  {
    assert (items + [item])[..|items|] == items;
    var hi := "hash=" + h;
    assert (items + [hi])[..|items|] == items;
    assert hi[4] == '=' && hi[..4] == "hash" && hi[5..] == h;
    assert SplitOnce(hi, '=') == ("hash", h) by {
      var kv := SplitOnce(hi, '=');
      assert forall j :: 0 <= j < 4 ==> hi[j] != '=';
      assert '=' in kv.0 + "=" ==> |kv.0| >= 4;
      assert (kv.0 + "=")[|kv.0|] == '=';
      assert hi[|kv.0|] == '=';
      assert |kv.0| <= 4;
      assert kv.0 == hi[..4];
      assert kv.1 == hi[5..];
    }
  }

  /**
   * It succeeds exactly when init_data is not empty, carries a hash, and
   * the signature of the data-check string equals it; it then returns the
   * non-hash fields, values as received (no URL-decoding).
   */
  lemma InitDataSuccess(initData: string, sign: string -> string)
    ensures var s := Scan(Split(initData, '&'));
      InitDataResult(initData, sign).Success? <==>
        initData != "" && s.hash.Some? && sign(CheckString(s.checks)) == s.hash.value
    ensures InitDataResult(initData, sign).Success? ==>
      var d := InitDataResult(initData, sign).value;
      "hash" !in d && forall k :: k in d ==> k + "=" + d[k] in Kept(Split(initData, '&'))
    ensures initData == "" ==> InitDataResult(initData, sign) == Failure(MissingInitData)
  {
    ScanFacts(Split(initData, '&'));
  }

  // ---------------------------------------------------------------------
  // build_user_payload and create_user_session

  /** build_user_payload: {"sub": str(user_id)}, and "username" only when it is truthy. */
  function BuildUserPayload(userId: int, username: PyValue): (p: map<string, PyValue>)
    ensures "sub" in p && p.Keys <= {"sub", "username"}
  {
    var payload := map["sub" := PyText(IntToString(userId))];
    if Truthy(username) then payload["username" := username] else payload
  }

  /** The subject reads back as the user id, and the username is there exactly when it is truthy, unchanged. */
  lemma BuildUserPayloadRoundTrip(userId: int, username: PyValue)
    ensures ToInt(BuildUserPayload(userId, username)["sub"]) == Success(userId)
    ensures "username" in BuildUserPayload(userId, username) <==> Truthy(username)
    ensures Truthy(username) ==> BuildUserPayload(userId, username)["username"] == username
  {
    var p := BuildUserPayload(userId, username);
    assert p["sub"] == PyText(IntToString(userId));
    assert ToInt(PyText(IntToString(userId))) == Success(userId) by {
      ParseIntOfIntToString(userId);
    }
  }

  /** The user that create_user_session receives: a mapping, or an object whose attributes are read. */
  datatype UserArg = UserMapping(items: map<string, PyValue>) | UserObject(attrs: map<string, PyValue>)

  /** The ValueError for a user without an identifier, or what int() raises on it. */
  datatype SessionError = NoIdentifier | BadIdentifier(e: ConversionError)

  /** m.get(key) and getattr(obj, key, None): None when absent. */
  function Get(m: map<string, PyValue>, key: string): (v: PyValue)
    ensures key !in m ==> v == PyNone
  {
    if key in m then m[key] else PyNone
  }

  /** user.get("id") or user.get("sub") for a mapping, the id attribute otherwise. */
  function Identifier(user: UserArg): PyValue
  {
    match user
    case UserMapping(items) => if Truthy(Get(items, "id")) then Get(items, "id") else Get(items, "sub")
    case UserObject(attrs) => Get(attrs, "id")
  }

  function Username(user: UserArg): PyValue
  {
    match user
    case UserMapping(items) => Get(items, "username")
    case UserObject(attrs) => Get(attrs, "username")
  }

  /** The payload create_user_session hands to create_session_token, or why it raises. */
  function SessionPayload(user: UserArg): Result<map<string, PyValue>, SessionError>
  {
    var id := Identifier(user);
    if !Truthy(id) then Failure(NoIdentifier)
    else
      match ToInt(id)
      case Failure(e) => Failure(BadIdentifier(e))
      case Success(n) => Success(BuildUserPayload(n, Username(user)))
  }

  /** A user without a truthy identifier is refused; a mapping falls back from a falsy "id" to "sub". */
  lemma SessionPayloadIdentifier(user: UserArg)
    ensures !Truthy(Identifier(user)) ==> SessionPayload(user) == Failure(NoIdentifier)
    ensures user.UserMapping? && !Truthy(Get(user.items, "id")) ==> Identifier(user) == Get(user.items, "sub")
  {
  }

  /** An int identifier is never 0 and becomes the subject; any accepted identifier reads back from the subject. */
  lemma SessionPayloadSubject(user: UserArg)
    ensures Identifier(user).PyInt? && Truthy(Identifier(user)) ==>
      SessionPayload(user).Success? && SessionPayload(user).value["sub"] == PyText(IntToString(Identifier(user).i))
      && Identifier(user).i != 0
    ensures SessionPayload(user).Success? ==> ToInt(SessionPayload(user).value["sub"]) == ToInt(Identifier(user))
  {
    var id := Identifier(user);
    if SessionPayload(user).Success? {
      var n := ToInt(id).value;
      assert SessionPayload(user).value == BuildUserPayload(n, Username(user));
      BuildUserPayloadRoundTrip(n, Username(user));
    }
  }

  /** A mapping with neither "id" nor "sub" is refused, whatever else it has. */
  lemma SessionPayloadNeedsIdentifier(items: map<string, PyValue>)
    requires "id" !in items && "sub" !in items
    ensures SessionPayload(UserMapping(items)) == Failure(NoIdentifier)
  {
  }
}
