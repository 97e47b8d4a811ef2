/**
 * BalanceService: deposit, withdraw, transfer and adjust_balance on the user
 * table, each writing signed rows to the transaction table. The service's
 * state is the user table and the row list; every operation is specified by
 * a step function on a Ledger value, and the bookkeeping invariants are
 * lemmas about those functions.
 */
module BalanceService {
  import opened Wrappers
  import opened Text
  import opened RuleBase
  import opened Transactions
  import opened BalanceRules
  import opened UserModel

  const DepositDescription := "Пополнение баланса"
  const WithdrawDescription := "Вывод средств"

  function TransferOutDescription(receiver: int): string
  {
    "Перевод пользователю " + IntToString(receiver)
  }

  function TransferInDescription(sender: int): string
  {
    "Перевод от пользователя " + IntToString(sender)
  }

  /** Why an operation returned success False. */
  datatype Refusal = RuleDenied(reason: Reason) | UserNotFound | InsufficientFunds

  /** The dictionaries the operations return; a transaction id is the row's position. */
  datatype Reply =
    | Booked(balance: real, txId: int)                 // deposit, withdraw
    | Transferred(amount: real, senderBalance: real)   // transfer
    | Adjusted(balance: real)                          // adjust_balance
    | Refused(why: Refusal)

  /** The user table and the transaction table. */
  datatype Ledger = Ledger(users: map<int, Account>, rows: seq<Tx>)

  datatype Step = Step(reply: Reply, after: Ledger)

  function Credit(users: map<int, Account>, uid: int, amount: real): (r: map<int, Account>)
    requires uid in users
    ensures r.Keys == users.Keys
    ensures r[uid].balance == users[uid].balance + amount && r[uid].profile == users[uid].profile
    ensures forall u :: u in users && u != uid ==> r[u] == users[u]
  {
    users[uid := users[uid].(balance := users[uid].balance + amount)]
  }

  /** get_balance */
  function BalanceOf(l: Ledger, uid: int): (b: Option<real>)
    ensures b.Some? <==> uid in l.users
    ensures b.Some? ==> b.value == l.users[uid].balance
  {
    if uid in l.users then Some(l.users[uid].balance) else None
  }

  /** deposit: the rule first, then the user lookup; one "deposit" row of +amount. */
  function DepositStep(l: Ledger, uid: int, amount: real, paymentId: Option<int>, now: int): Step
  {
    var d := CanDeposit(amount);
    if d.Deny? then Step(Refused(RuleDenied(d.reason)), l)
    else if uid !in l.users then Step(Refused(UserNotFound), l)
    else
      var users := Credit(l.users, uid, amount);
      Step(Booked(users[uid].balance, |l.rows|),
           Ledger(users, l.rows + [Tx(uid, amount, Deposit, DepositDescription, paymentId, now)]))
  }

  /**
   * withdraw: the user lookup, then can_withdraw over the user's history,
   * then the balance; one "withdraw" row of -amount.
   */
  function WithdrawStep(l: Ledger, uid: int, amount: real, now: int): Step
  {
    if uid !in l.users then Step(Refused(UserNotFound), l)
    else
      var d := CanWithdraw(amount, History(l.rows, uid), now);
      if d.Deny? then Step(Refused(RuleDenied(d.reason)), l)
      else if l.users[uid].balance < amount then Step(Refused(InsufficientFunds), l)
      else
        var users := Credit(l.users, uid, -amount);
        Step(Booked(users[uid].balance, |l.rows|),
             Ledger(users, l.rows + [Tx(uid, -amount, Withdraw, WithdrawDescription, None, now)]))
  }

  /**
   * transfer: can_transfer before any lookup, then both users, then the
   * sender's balance; a "transfer_out" row of -amount and a "transfer_in"
   * row of +amount.
   */
  function TransferStep(l: Ledger, sender: int, receiver: int, amount: real, now: int): Step
  {
    var d := CanTransfer(sender, receiver, amount);
    if d.Deny? then Step(Refused(RuleDenied(d.reason)), l)
    else if sender !in l.users || receiver !in l.users then Step(Refused(UserNotFound), l)
    else if l.users[sender].balance < amount then Step(Refused(InsufficientFunds), l)
    else
      var users := Credit(Credit(l.users, sender, -amount), receiver, amount);
      Step(Transferred(amount, users[sender].balance),
           Ledger(users, l.rows + [Tx(sender, -amount, TransferOut, TransferOutDescription(receiver), None, now),
                                   Tx(receiver, amount, TransferIn, TransferInDescription(sender), None, now)]))
  }

  /** adjust_balance: any signed amount, no rule and no balance check; the reason is the description. */
  function AdjustStep(l: Ledger, uid: int, amount: real, reason: string, now: int): Step
  {
    if uid !in l.users then Step(Refused(UserNotFound), l)
    else
      var users := Credit(l.users, uid, amount);
      Step(Adjusted(users[uid].balance), Ledger(users, l.rows + [Tx(uid, amount, Adjustment, reason, None, now)]))
  }

  /**
   * A payout with no amount rule: the user lookup, then one "deposit" row of
   * +amount. Not an operation of the service; the corrected task, order and
   * referral flows credit through it instead of through deposit.
   */
  function PayoutStep(l: Ledger, uid: int, amount: real, now: int): Step
  {
    if uid !in l.users then Step(Refused(UserNotFound), l)
    else
      var users := Credit(l.users, uid, amount);
      Step(Booked(users[uid].balance, |l.rows|),
           Ledger(users, l.rows + [Tx(uid, amount, Deposit, DepositDescription, None, now)]))
  }

  // ---------------------------------------------------------------------
  // Bookkeeping

  /** The rows written going from l to l2. */
  function NewRows(l: Ledger, l2: Ledger): seq<Tx>
    requires |l.rows| <= |l2.rows|
  {
    l2.rows[|l.rows|..]
  }

  /**
   * l2 follows l by appending rows only, the same users keep their
   * profiles, and each balance changed by exactly the sum of that user's
   * new rows.
   */
  predicate Books(l: Ledger, l2: Ledger)
  {
    && l2.users.Keys == l.users.Keys
    && |l.rows| <= |l2.rows|
    && l2.rows[..|l.rows|] == l.rows
    && forall u :: u in l.users ==>
         && l2.users[u].profile == l.users[u].profile
         && l2.users[u].balance == l.users[u].balance + SumFor(NewRows(l, l2), u)
  }

  /** Every balance is its opening balance plus the sum of the user's rows. */
  predicate Balanced(l: Ledger, opening: map<int, real>)
  {
    forall u :: u in l.users ==> u in opening && l.users[u].balance == opening[u] + SumFor(l.rows, u)
  }

  predicate NonNegative(l: Ledger)
  {
    forall u :: u in l.users ==> l.users[u].balance >= 0.0
  }

  lemma SumForOne(t: Tx, u: int)
    ensures SumFor([t], u) == if t.userId == u then t.amount else 0.0
  {
    assert [t][1..] == [];
  }

  lemma SumForTwo(t1: Tx, t2: Tx, u: int)
    ensures SumFor([t1, t2], u) == (if t1.userId == u then t1.amount else 0.0) + (if t2.userId == u then t2.amount else 0.0)
  {
    assert [t1, t2][1..] == [t2];
    SumForOne(t2, u);
  }

  /** A refused operation changes nothing. */
  lemma RefusalsChangeNothing(l: Ledger, uid: int, other: int, amount: real, paymentId: Option<int>, reason: string, now: int)
    ensures DepositStep(l, uid, amount, paymentId, now).reply.Refused? ==> DepositStep(l, uid, amount, paymentId, now).after == l
    ensures WithdrawStep(l, uid, amount, now).reply.Refused? ==> WithdrawStep(l, uid, amount, now).after == l
    ensures TransferStep(l, uid, other, amount, now).reply.Refused? ==> TransferStep(l, uid, other, amount, now).after == l
    ensures AdjustStep(l, uid, amount, reason, now).reply.Refused? ==> AdjustStep(l, uid, amount, reason, now).after == l
  {
  }

  lemma BooksOfNothing(l: Ledger)
    ensures Books(l, l)
  {
    assert NewRows(l, l) == [];
  }

  /** Crediting one user and writing one row of that amount for them keeps the books. */
  lemma BooksOfOneRow(l: Ledger, t: Tx)
    requires t.userId in l.users
    ensures Books(l, Ledger(Credit(l.users, t.userId, t.amount), l.rows + [t]))
  {
    var l2 := Ledger(Credit(l.users, t.userId, t.amount), l.rows + [t]);
    assert NewRows(l, l2) == [t];
    forall u | u in l.users ensures l2.users[u].balance == l.users[u].balance + SumFor(NewRows(l, l2), u) {
      SumForOne(t, u);
    }
  }

  /** Moving an amount between two different users with a row each keeps the books. */
  lemma BooksOfTwoRows(l: Ledger, t1: Tx, t2: Tx)
    requires t1.userId in l.users && t2.userId in l.users && t1.userId != t2.userId
    ensures Books(l, Ledger(Credit(Credit(l.users, t1.userId, t1.amount), t2.userId, t2.amount), l.rows + [t1, t2]))
  {
    var l2 := Ledger(Credit(Credit(l.users, t1.userId, t1.amount), t2.userId, t2.amount), l.rows + [t1, t2]);
    assert NewRows(l, l2) == [t1, t2];
    forall u | u in l.users ensures l2.users[u].balance == l.users[u].balance + SumFor(NewRows(l, l2), u) {
      SumForTwo(t1, t2, u);
    }
  }

  /** Every operation, refused or not, keeps the books: balance change == sum of the rows it wrote. */
  lemma DepositKeepsBooks(l: Ledger, uid: int, amount: real, paymentId: Option<int>, now: int)
    ensures Books(l, DepositStep(l, uid, amount, paymentId, now).after)
  {
    if DepositStep(l, uid, amount, paymentId, now).after == l {
      BooksOfNothing(l);
    } else {
      BooksOfOneRow(l, Tx(uid, amount, Deposit, DepositDescription, paymentId, now));
    }
  }

  lemma WithdrawKeepsBooks(l: Ledger, uid: int, amount: real, now: int)
    ensures Books(l, WithdrawStep(l, uid, amount, now).after)
  {
    if WithdrawStep(l, uid, amount, now).after == l {
      BooksOfNothing(l);
    } else {
      BooksOfOneRow(l, Tx(uid, -amount, Withdraw, WithdrawDescription, None, now));
    }
  }

  lemma TransferKeepsBooks(l: Ledger, sender: int, receiver: int, amount: real, now: int)
    ensures Books(l, TransferStep(l, sender, receiver, amount, now).after)
  {
    if TransferStep(l, sender, receiver, amount, now).after == l {
      BooksOfNothing(l);
    } else {
      BooksOfTwoRows(l, Tx(sender, -amount, TransferOut, TransferOutDescription(receiver), None, now),
                        Tx(receiver, amount, TransferIn, TransferInDescription(sender), None, now));
    }
  }

  lemma AdjustKeepsBooks(l: Ledger, uid: int, amount: real, reason: string, now: int)
    ensures Books(l, AdjustStep(l, uid, amount, reason, now).after)
  {
    if AdjustStep(l, uid, amount, reason, now).after == l {
      BooksOfNothing(l);
    } else {
      BooksOfOneRow(l, Tx(uid, amount, Adjustment, reason, None, now));
    }
  }

  lemma PayoutKeepsBooks(l: Ledger, uid: int, amount: real, now: int)
    ensures Books(l, PayoutStep(l, uid, amount, now).after)
  {
    if uid !in l.users {
      BooksOfNothing(l);
    } else {
      BooksOfOneRow(l, Tx(uid, amount, Deposit, DepositDescription, None, now));
    }
  }

  /** A payout reaches every known user whatever the amount, and agrees with deposit wherever deposit's rule allows. */
  lemma PayoutOutcome(l: Ledger, uid: int, amount: real, now: int)
    ensures var s := PayoutStep(l, uid, amount, now);
      && (s.reply.Booked? <==> uid in l.users)
      && (!s.reply.Booked? ==> s.after == l)
      && (s.reply.Booked? ==> s.after.users[uid].balance == l.users[uid].balance + amount)
      && (MinDeposit <= amount <= MaxWithdraw ==> s == DepositStep(l, uid, amount, None, now))
  {
  }

  /** Keeping the books preserves "balance == opening + sum of all the user's rows". */
  lemma {:induction false} BooksKeepBalanced(l: Ledger, l2: Ledger, opening: map<int, real>)
    requires Balanced(l, opening) && Books(l, l2)
    ensures Balanced(l2, opening)
  {
    assert l2.rows == l.rows + NewRows(l, l2);
    forall u | u in l2.users ensures u in opening && l2.users[u].balance == opening[u] + SumFor(l2.rows, u) {
      SumForAppend(l.rows, NewRows(l, l2), u);
    }
  }

  /** deposit succeeds exactly when the rule allows and the user exists; it then adds one row of +amount carrying the payment id. */
  lemma DepositOutcome(l: Ledger, uid: int, amount: real, paymentId: Option<int>, now: int)
    ensures var s := DepositStep(l, uid, amount, paymentId, now);
      && (s.reply.Booked? <==> MinDeposit <= amount <= MaxWithdraw && uid in l.users)
      && (!s.reply.Booked? ==> s.after == l)
      && (s.reply.Booked? ==>
            && s.after.users[uid].balance == l.users[uid].balance + amount
            && s.reply.balance == s.after.users[uid].balance
            && s.after.rows == l.rows + [Tx(uid, amount, Deposit, DepositDescription, paymentId, now)])
  {
  }

  /** withdraw: an unknown user is refused before the rules, and a success never overdraws. */
  lemma WithdrawOutcome(l: Ledger, uid: int, amount: real, now: int)
    ensures var s := WithdrawStep(l, uid, amount, now);
      && (uid !in l.users ==> s.reply == Refused(UserNotFound))
      && (s.reply.Booked? <==>
            uid in l.users && CanWithdraw(amount, History(l.rows, uid), now) == Allow && l.users[uid].balance >= amount)
      && (!s.reply.Booked? ==> s.after == l)
      && (s.reply.Booked? ==>
            && s.after.users[uid].balance == l.users[uid].balance - amount
            && s.after.users[uid].balance >= 0.0
            && s.after.rows == l.rows + [Tx(uid, -amount, Withdraw, WithdrawDescription, None, now)])
  {
  }

  /** transfer: the rule is consulted before any lookup, and a success moves the amount without changing the pair's total. */
  lemma TransferOutcome(l: Ledger, sender: int, receiver: int, amount: real, now: int)
    ensures var s := TransferStep(l, sender, receiver, amount, now);
      && (CanTransfer(sender, receiver, amount).Deny? ==> s.reply == Refused(RuleDenied(CanTransfer(sender, receiver, amount).reason)))
      && (s.reply.Transferred? <==>
            && sender != receiver && amount >= MinTransfer
            && sender in l.users && receiver in l.users && l.users[sender].balance >= amount)
      && (s.reply.Transferred? ==>
            && s.after.users[sender].balance == l.users[sender].balance - amount
            && s.after.users[receiver].balance == l.users[receiver].balance + amount
            && s.after.users[sender].balance + s.after.users[receiver].balance
               == l.users[sender].balance + l.users[receiver].balance
            && (forall u :: u in l.users && u != sender && u != receiver ==> s.after.users[u] == l.users[u])
            && |s.after.rows| == |l.rows| + 2
            && s.after.rows[|l.rows|].kind == TransferOut && s.after.rows[|l.rows|].amount == -amount
            && s.after.rows[|l.rows| + 1].kind == TransferIn && s.after.rows[|l.rows| + 1].amount == amount)
  {
  }

  /** deposit, withdraw and transfer never make a balance negative. */
  lemma GuardedStepsKeepNonNegative(l: Ledger, uid: int, other: int, amount: real, paymentId: Option<int>, now: int)
    requires NonNegative(l)
    ensures NonNegative(DepositStep(l, uid, amount, paymentId, now).after)
    ensures NonNegative(WithdrawStep(l, uid, amount, now).after)
    ensures NonNegative(TransferStep(l, uid, other, amount, now).after)
  {
  }

  /** adjust_balance has no such guard: it can take a zero balance below zero. */
  lemma AdjustCanGoNegative(profile: Profile)
    ensures var l := Ledger(map[1 := Account(0.0, profile)], []);
      && NonNegative(l)
      && AdjustStep(l, 1, -1.0, "correction", 0).reply == Adjusted(-1.0)
      && !NonNegative(AdjustStep(l, 1, -1.0, "correction", 0).after)
  {
  }

  // ---------------------------------------------------------------------
  // The service

  class BalanceService {
    var users: map<int, Account>
    var rows: seq<Tx>

    function Model(): Ledger
      reads this
    {
      Ledger(users, rows)
    }

    constructor (users: map<int, Account>)
      ensures Model() == Ledger(users, [])
    {
      this.users := users;
      this.rows := [];
    }

    method GetBalance(uid: int) returns (b: Option<real>)
      ensures b == BalanceOf(Model(), uid)
    {
      if uid !in users {
        return None;
      }
      return Some(users[uid].balance);
    }

    method Deposit(uid: int, amount: real, paymentId: Option<int>, now: int) returns (r: Reply)
      modifies this
      ensures Step(r, Model()) == DepositStep(old(Model()), uid, amount, paymentId, now)
    {
      var d := CanDeposit(amount);
      if d.Deny? {
        return Refused(RuleDenied(d.reason));
      }
      if uid !in users {
        return Refused(UserNotFound);
      }
      var account := users[uid];
      users := users[uid := account.(balance := account.balance + amount)];
      var txId := |rows|;
      rows := rows + [Tx(uid, amount, TxKind.Deposit, DepositDescription, paymentId, now)];
      return Booked(users[uid].balance, txId);
    }

    method Withdraw(uid: int, amount: real, now: int) returns (r: Reply)
      modifies this
      ensures Step(r, Model()) == WithdrawStep(old(Model()), uid, amount, now)
    {
      if uid !in users {
        return Refused(UserNotFound);
      }
      var d := CanWithdraw(amount, History(rows, uid), now);
      if d.Deny? {
        return Refused(RuleDenied(d.reason));
      }
      var account := users[uid];
      if account.balance < amount {
        return Refused(InsufficientFunds);
      }
      users := Credit(users, uid, -amount);
      var txId := |rows|;
      rows := rows + [Tx(uid, -amount, TxKind.Withdraw, WithdrawDescription, None, now)];
      return Booked(users[uid].balance, txId);
    }

    method Transfer(sender: int, receiver: int, amount: real, now: int) returns (r: Reply)
      modifies this
      ensures Step(r, Model()) == TransferStep(old(Model()), sender, receiver, amount, now)
    {
      var d := CanTransfer(sender, receiver, amount);
      if d.Deny? {
        return Refused(RuleDenied(d.reason));
      }
      if sender !in users || receiver !in users {
        return Refused(UserNotFound);
      }
      if users[sender].balance < amount {
        return Refused(InsufficientFunds);
      }
      var from := users[sender];
      users := users[sender := from.(balance := from.balance - amount)];
      var to := users[receiver];
      users := users[receiver := to.(balance := to.balance + amount)];
      rows := rows + [Tx(sender, -amount, TransferOut, TransferOutDescription(receiver), None, now)];
      rows := rows + [Tx(receiver, amount, TransferIn, TransferInDescription(sender), None, now)];
      return Transferred(amount, users[sender].balance);
    }

    method AdjustBalance(uid: int, amount: real, reason: string, now: int) returns (r: Reply)
      modifies this
      ensures Step(r, Model()) == AdjustStep(old(Model()), uid, amount, reason, now)
    {
      if uid !in users {
        return Refused(UserNotFound);
      }
      var account := users[uid];
      users := users[uid := account.(balance := account.balance + amount)];
      rows := rows + [Tx(uid, amount, Adjustment, reason, None, now)];
      return Adjusted(users[uid].balance);
    }
  }
}
