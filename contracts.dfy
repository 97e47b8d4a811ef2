/**
 * The bot service's data-transfer objects and their to_dict serialisers,
 * with readers that take the dictionaries back, so that what each
 * serialiser keeps, renames and leaves out can be stated as a round trip.
 */
module Contracts {
  import opened Wrappers
  import opened CacheBase

  /** None as null, a str as itself. */
  function OptText(o: Option<string>): (j: Json)
    ensures o.None? <==> j == JNull
  {
    match o
    case None => JNull
    case Some(s) => JStr(s)
  }

  /** Reads back what OptText wrote; None when the value is neither null nor a str. */
  function OptTextOf(j: Json): Option<Option<string>>
  {
    match j
    case JNull => Some(None)
    case JStr(s) => Some(Some(s))
    case _ => None
  }

  lemma OptTextRoundTrip(o: Option<string>)
    ensures OptTextOf(OptText(o)) == Some(o)
  {
  }

  // ---------------------------------------------------------------------
  // TelegramUserSnapshot

  datatype TelegramUserSnapshot = TelegramUserSnapshot(
    id: int, telegramId: int, username: Option<string>, firstName: Option<string>,
    lastName: Option<string>, languageCode: Option<string>, balance: real, isAdmin: bool, isBanned: bool)

  const SnapshotKeys: set<string> :=
    {"id", "telegram_id", "username", "first_name", "last_name", "language", "balance", "is_admin", "is_banned"}

  /** TelegramUserSnapshot.to_dict: nine keys, language_code exported as "language". */
  function SnapshotToDict(u: TelegramUserSnapshot): (d: map<string, Json>)
    ensures d.Keys == SnapshotKeys
    ensures "language_code" !in d && d["language"] == OptText(u.languageCode)
  {
    map["id" := JInt(u.id), "telegram_id" := JInt(u.telegramId), "username" := OptText(u.username),
        "first_name" := OptText(u.firstName), "last_name" := OptText(u.lastName),
        "language" := OptText(u.languageCode), "balance" := JNum(u.balance),
        "is_admin" := JBool(u.isAdmin), "is_banned" := JBool(u.isBanned)]
  }

  /** A snapshot from its dictionary, when every key is there with a value of the right kind. */
  function SnapshotFromDict(d: map<string, Json>): Option<TelegramUserSnapshot>
  {
    if !(SnapshotKeys <= d.Keys) then None
    else if !(d["id"].JInt? && d["telegram_id"].JInt? && d["balance"].JNum?
              && d["is_admin"].JBool? && d["is_banned"].JBool?) then None
    else
      match (OptTextOf(d["username"]), OptTextOf(d["first_name"]), OptTextOf(d["last_name"]), OptTextOf(d["language"]))
      case (Some(username), Some(firstName), Some(lastName), Some(language)) =>
        Some(TelegramUserSnapshot(d["id"].i, d["telegram_id"].i, username, firstName, lastName, language,
                                  d["balance"].r, d["is_admin"].b, d["is_banned"].b))
      case _ => None
  }

  /** Nothing is lost: every field, the language code included, comes back from the dictionary. */
  lemma SnapshotRoundTrip(u: TelegramUserSnapshot)
    ensures SnapshotFromDict(SnapshotToDict(u)) == Some(u)
  {
    var d := SnapshotToDict(u);
    OptTextRoundTrip(u.username);
    OptTextRoundTrip(u.firstName);
    OptTextRoundTrip(u.lastName);
    OptTextRoundTrip(u.languageCode);
    assert d["username"] == OptText(u.username) && d["first_name"] == OptText(u.firstName);
    assert d["last_name"] == OptText(u.lastName);
  }

  // ---------------------------------------------------------------------
  // WebAppAuthResult

  datatype WebAppAuthResult = WebAppAuthResult(sessionToken: string, user: TelegramUserSnapshot, rawPayload: map<string, Json>)

  /** WebAppAuthResult.to_dict: ok, the token and the user's dictionary; the raw payload stays out. */
  function AuthResultToDict(r: WebAppAuthResult): (d: map<string, Json>)
    ensures d.Keys == {"ok", "session_token", "user"}
    ensures d["ok"] == JBool(true)
  {
    map["ok" := JBool(true), "session_token" := JStr(r.sessionToken), "user" := JObj(SnapshotToDict(r.user))]
  }

  /** The dictionary depends on the token and the user only, and gives both back. */
  lemma AuthResultToDictFacts(r: WebAppAuthResult, raw: map<string, Json>)
    ensures AuthResultToDict(r.(rawPayload := raw)) == AuthResultToDict(r)
    ensures AuthResultToDict(r)["session_token"] == JStr(r.sessionToken)
    ensures AuthResultToDict(r)["user"].JObj? && SnapshotFromDict(AuthResultToDict(r)["user"].fields) == Some(r.user)
  {
    SnapshotRoundTrip(r.user);
  }

  // ---------------------------------------------------------------------
  // NotificationResult

  /** user_id: int | str */
  datatype UserRef = ById(n: int) | ByName(s: string)

  datatype NotificationResult = NotificationResult(delivered: bool, userId: UserRef, messageType: string, text: string)

  function UserRefJson(u: UserRef): Json
  {
    match u
    case ById(n) => JInt(n)
    case ByName(s) => JStr(s)
  }

  /** NotificationResult.to_dict: "ok" is whether the message was delivered. */
  function NotificationToDict(r: NotificationResult): (d: map<string, Json>)
    ensures d.Keys == {"ok", "user_id", "message_type", "text"}
    ensures d["ok"] == JBool(r.delivered)
  {
    map["ok" := JBool(r.delivered), "user_id" := UserRefJson(r.userId),
        "message_type" := JStr(r.messageType), "text" := JStr(r.text)]
  }

  function NotificationFromDict(d: map<string, Json>): Option<NotificationResult>
  {
    if !({"ok", "user_id", "message_type", "text"} <= d.Keys) then None
    else if !(d["ok"].JBool? && d["message_type"].JStr? && d["text"].JStr?) then None
    else
      match d["user_id"]
      case JInt(n) => Some(NotificationResult(d["ok"].b, ById(n), d["message_type"].s, d["text"].s))
      case JStr(s) => Some(NotificationResult(d["ok"].b, ByName(s), d["message_type"].s, d["text"].s))
      case _ => None
  }

  /** Every field comes back, the delivery flag from "ok". */
  lemma NotificationRoundTrip(r: NotificationResult)
    ensures NotificationFromDict(NotificationToDict(r)) == Some(r)
  {
  }

  // ---------------------------------------------------------------------
  // ManualDepositResult

  datatype ManualDepositResult = ManualDepositResult(ok: bool, status: string, paymentId: Option<int>, message: Option<string>)

  /**
   * ManualDepositResult.to_dict: ok and status always; payment_id only
   * when it is not None, message only when it is truthy.
   */
  function DepositToDict(r: ManualDepositResult): (d: map<string, Json>)
    ensures "ok" in d && d["ok"] == JBool(r.ok) && "status" in d && d["status"] == JStr(r.status)
    ensures "payment_id" in d <==> r.paymentId.Some?
    ensures "message" in d <==> r.message.Some? && r.message.value != ""
    ensures d.Keys <= {"ok", "status", "payment_id", "message"}
  {
    var payload := map["ok" := JBool(r.ok), "status" := JStr(r.status)];
    var payload := if r.paymentId.Some? then payload["payment_id" := JInt(r.paymentId.value)] else payload;
    if r.message.Some? && r.message.value != "" then payload["message" := JStr(r.message.value)] else payload
  }

  /** Reads the dictionary back; an absent optional key is None. */
  function DepositFromDict(d: map<string, Json>): Option<ManualDepositResult>
  {
    if !("ok" in d && d["ok"].JBool? && "status" in d && d["status"].JStr?) then None
    else
      var paymentId := if "payment_id" in d && d["payment_id"].JInt? then Some(d["payment_id"].i) else None;
      var message := if "message" in d && d["message"].JStr? then Some(d["message"].s) else None;
      Some(ManualDepositResult(d["ok"].b, d["status"].s, paymentId, message))
  }

  /**
   * The result comes back from its dictionary, except that an empty
   * message is indistinguishable from None.
   */
  lemma DepositRoundTrip(r: ManualDepositResult)
    ensures DepositFromDict(DepositToDict(r)) == Some(r.(message := if r.message == Some("") then None else r.message))
    ensures r.message != Some("") ==> DepositFromDict(DepositToDict(r)) == Some(r)
  {
  }
}
