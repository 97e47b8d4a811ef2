/**
 * The payment adapters' helpers: the presence check on callback fields,
 * the "|"-joined payload that providers sign, and the forgiving
 * conversions safe_str and safe_int.
 */
module PaymentUtils {
  import opened Wrappers
  import opened Text
  import opened PyValues

  /** A decoded callback body. */
  type Data = map<string, PyValue>

  /** validate_callback_fields: all(field in data for field in required). */
  function ValidateCallbackFields(data: Data, required: seq<string>): (ok: bool)
    ensures ok <==> forall i :: 0 <= i < |required| ==> required[i] in data
  {
    if required == [] then true
    else required[0] in data && ValidateCallbackFields(data, required[1..])
  }

  /** Extra fields never make a valid callback invalid, and nothing is required of an empty list. */
  lemma ValidateCallbackFieldsMonotone(data: Data, more: Data, required: seq<string>)
    requires data.Keys <= more.Keys
    ensures ValidateCallbackFields(data, required) ==> ValidateCallbackFields(more, required)
    ensures ValidateCallbackFields(data, [])
  {
  }

  /** str(data.get(f, "")) */
  function FieldText(data: Data, f: string): (t: string)
    ensures f !in data ==> t == ""
    ensures f in data ==> t == Str(data[f])
  {
    if f in data then Str(data[f]) else ""
  }

  function FieldTexts(data: Data, fields: seq<string>): (ts: seq<string>)
    ensures |ts| == |fields|
    ensures forall i :: 0 <= i < |fields| ==> ts[i] == FieldText(data, fields[i])
  {
    if fields == [] then [] else [FieldText(data, fields[0])] + FieldTexts(data, fields[1..])
  }

  /** build_signature_payload: the fields' texts, in the given order, joined by "|". */
  function BuildSignaturePayload(data: Data, fields: seq<string>): string
  {
    Join("|", FieldTexts(data, fields))
  }

  /** The number of times c occurs in s. */
  function Occurrences(s: string, c: char): nat
  {
    if s == "" then 0 else (if s[0] == c then 1 else 0) + Occurrences(s[1..], c)
  }

  lemma {:induction false} OccurrencesOfConcat(a: string, b: string, c: char)
    ensures Occurrences(a + b, c) == Occurrences(a, c) + Occurrences(b, c)
  {
    if a == "" {
      assert a + b == b;
    } else {
      assert (a + b)[0] == a[0];
      assert (a + b)[1..] == a[1..] + b;
      OccurrencesOfConcat(a[1..], b, c);
    }
  }

  lemma {:induction false} OccurrencesOfFree(s: string, c: char)
    requires c !in s
    ensures Occurrences(s, c) == 0
  {
    if s != "" {
      OccurrencesOfFree(s[1..], c);
    }
  }

  /** Joining n separator-free texts puts exactly n - 1 separators in. */
  lemma {:induction false} OccurrencesOfJoin(parts: seq<string>, c: char)
    requires parts != []
    requires forall i :: 0 <= i < |parts| ==> c !in parts[i]
    ensures Occurrences(Join([c], parts), c) == |parts| - 1
  {
    OccurrencesOfFree(parts[0], c);
    if |parts| > 1 {
      OccurrencesOfJoin(parts[1..], c);
      OccurrencesOfConcat(parts[0] + [c], Join([c], parts[1..]), c);
      OccurrencesOfConcat(parts[0], [c], c);
    }
  }

  /**
   * When no field's text contains "|", the payload has one "|" fewer than
   * there are fields and splitting it on "|" gives back every field's text
   * in order, so the signed string determines the values.
   */
  lemma SignaturePayloadSplits(data: Data, fields: seq<string>)
    requires fields != []
    requires forall i :: 0 <= i < |fields| ==> '|' !in FieldText(data, fields[i])
    ensures Occurrences(BuildSignaturePayload(data, fields), '|') == |fields| - 1
    ensures Split(BuildSignaturePayload(data, fields), '|') == FieldTexts(data, fields)
  {
    var ts := FieldTexts(data, fields);
    OccurrencesOfJoin(ts, '|');
    SplitOfJoin(ts, '|');
  }

  lemma JoinOfThree(a: string, b: string, c: string)
    ensures Join("|", [a, b, c]) == a + "|" + b + "|" + c
  {
    assert [a, b, c][1..] == [b, c];
    assert [b, c][1..] == [c];
    assert Join("|", [b, c]) == b + "|" + c;
    assert a + "|" + (b + "|" + c) == a + "|" + b + "|" + c;
  }

  /** The docstring's example: merchant 123, amount 15000, transaction "tx_abc". */
  lemma SignaturePayloadExample()
    ensures BuildSignaturePayload(
              map["merchant_id" := PyInt(123), "amount" := PyInt(15000), "transaction_id" := PyText("tx_abc")],
              ["merchant_id", "amount", "transaction_id"])
            == "123|15000|tx_abc"
  {
    assert "123" + "|" + "15000" + "|" + "tx_abc" == "123|15000|tx_abc";
    JoinOfThree("123", "15000", "tx_abc");
    assert IntToString(123) == "123" by {
      assert NatToString(1) == "1";
      assert NatToString(12) == "12";
    }
    assert IntToString(15000) == "15000" by {
      assert NatToString(1) == "1";
      assert NatToString(15) == "15";
      assert NatToString(150) == "150";
      assert NatToString(1500) == "1500";
    }
    var data := map["merchant_id" := PyInt(123), "amount" := PyInt(15000), "transaction_id" := PyText("tx_abc")];
    var fields := ["merchant_id", "amount", "transaction_id"];
    var ts := FieldTexts(data, fields);
    assert ts == ["123", "15000", "tx_abc"] by {
      assert ts[0] == FieldText(data, "merchant_id") == Str(PyInt(123));
      assert ts[1] == FieldText(data, "amount") == Str(PyInt(15000));
      assert ts[2] == FieldText(data, "transaction_id") == "tx_abc";
    }
  }

  /** A missing field contributes an empty text but keeps its place. */
  lemma MissingFieldKeepsItsPlace(data: Data, f: string, g: string)
    requires f !in data && g in data
    ensures BuildSignaturePayload(data, [f, g]) == "|" + Str(data[g])
  {
    var ts := FieldTexts(data, [f, g]);
    assert ts == ["", Str(data[g])];
    assert ts[1..] == [Str(data[g])];
    assert Join("|", ts) == "" + "|" + Str(data[g]);
  }

  /** safe_str: the default for None, str(v) otherwise. */
  function SafeStr(v: PyValue, default: string): (s: string)
    ensures v.PyNone? ==> s == default
    ensures !v.PyNone? ==> s == Str(v)
  {
    if v.PyNone? then default else Str(v)
  }

  /** An int written by safe_str is read back by safe_int. */
  lemma SafeStrThenSafeInt(i: int, d1: string, d2: int)
    ensures SafeInt(PyText(SafeStr(PyInt(i), d1)), d2) == i
  {
    SafeIntOfStr(i, d2);
  }
}
