/**
 * The balance-transaction table: signed rows appended by
 * TransactionRepository.create_transaction and read back per user by
 * get_by_user (at most 50 rows).
 */
module Transactions {
  import opened Wrappers

  datatype TxKind = Deposit | Withdraw | TransferOut | TransferIn | Adjustment

  /** One row: whose, the signed amount, its type, description, payment and creation instant. */
  datatype Tx = Tx(userId: int, amount: real, kind: TxKind, description: string, paymentId: Option<int>, createdAt: int)

  const HistoryLimit := 50

  /** The user's rows, in the order they were written. */
  function UserRows(rows: seq<Tx>, uid: int): (r: seq<Tx>)
    ensures |r| <= |rows|
    ensures forall t :: t in r ==> t in rows && t.userId == uid
    ensures forall t :: t in rows && t.userId == uid ==> t in r
  {
    if rows == [] then []
    else if rows[0].userId == uid then [rows[0]] + UserRows(rows[1..], uid)
    else UserRows(rows[1..], uid)
  }

  lemma {:induction false} UserRowsAppend(a: seq<Tx>, b: seq<Tx>, uid: int)
    ensures UserRows(a + b, uid) == UserRows(a, uid) + UserRows(b, uid)
  {
    if a == [] {
      assert a + b == b;
    } else {
      assert (a + b)[1..] == a[1..] + b;
      UserRowsAppend(a[1..], b, uid);
    }
  }

  /**
   * get_by_user(user_id): the user's newest rows, at most 50. Rows are
   * written with nondecreasing instants, so the newest are the last written.
   */
  function History(rows: seq<Tx>, uid: int): (h: seq<Tx>)
    ensures |h| <= HistoryLimit
    ensures forall t :: t in h ==> t in rows && t.userId == uid
    ensures |UserRows(rows, uid)| <= HistoryLimit ==> h == UserRows(rows, uid)
  {
    var mine := UserRows(rows, uid);
    if |mine| <= HistoryLimit then mine else mine[|mine| - HistoryLimit..]
  }

  /** The sum of the amounts of the user's rows. */
  function SumFor(rows: seq<Tx>, uid: int): real
  {
    if rows == [] then 0.0
    else (if rows[0].userId == uid then rows[0].amount else 0.0) + SumFor(rows[1..], uid)
  }

  lemma {:induction false} SumForAppend(a: seq<Tx>, b: seq<Tx>, uid: int)
    ensures SumFor(a + b, uid) == SumFor(a, uid) + SumFor(b, uid)
  {
    if a == [] {
      assert a + b == b;
    } else {
      assert (a + b)[1..] == a[1..] + b;
      SumForAppend(a[1..], b, uid);
    }
  }
}
