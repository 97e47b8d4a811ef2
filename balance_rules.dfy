/**
 * BalanceRules: the amount bounds, the 24-hour withdrawal count and sum
 * limits and the 30-second cooldown that gate the ledger's operations.
 */
module BalanceRules {
  import opened RuleBase
  import opened Transactions

  const MinWithdraw: real := 10000.0
  const MaxWithdraw: real := 5000000.0
  const MaxDailyWithdrawCount := 3
  const MaxDailyWithdrawSum: real := 10000000.0
  const MinDeposit: real := 5000.0
  const MinTransfer: real := 1000.0
  /** COOLDOWN_BETWEEN_TX, in seconds. */
  const Cooldown := 30

  /** Why a rule denied, one constructor per message. */
  datatype Reason =
    | BelowMinWithdraw | AboveMaxWithdraw | TooManyWithdraws | DailySumExceeded | TooFrequent
    | BelowMinDeposit | AboveMaxDeposit
    | SelfTransfer | NotPositive | BelowMinTransfer

  function Abs(x: real): real
  {
    if x < 0.0 then -x else x
  }

  /** The history's "withdraw" rows created in the 24 hours before `now`. */
  function RecentWithdraws(history: seq<Tx>, now: int): (r: seq<Tx>)
    ensures forall t :: t in r <==> t in history && t.kind == Withdraw && t.createdAt >= now - Day
    ensures |r| <= |history|
  {
    if history == [] then []
    else
      var rest := RecentWithdraws(history[1..], now);
      if history[0].kind == Withdraw && history[0].createdAt >= now - Day then [history[0]] + rest else rest
  }

  lemma {:induction false} RecentWithdrawsAppend(history: seq<Tx>, row: Tx, now: int)
    ensures RecentWithdraws(history + [row], now) ==
      RecentWithdraws(history, now) + (if row.kind == Withdraw && row.createdAt >= now - Day then [row] else [])
  {
    if history == [] {
      assert history + [row] == [row];
    } else {
      assert (history + [row])[1..] == history[1..] + [row];
      RecentWithdrawsAppend(history[1..], row, now);
    }
  }

  /** The sum of |amount| over the rows. */
  function AbsSum(rows: seq<Tx>): (s: real)
    ensures s >= 0.0
  {
    if rows == [] then 0.0 else Abs(rows[0].amount) + AbsSum(rows[1..])
  }

  lemma {:induction false} AbsSumAppend(rows: seq<Tx>, row: Tx)
    ensures AbsSum(rows + [row]) == AbsSum(rows) + Abs(row.amount)
  {
    if rows == [] {
      assert rows + [row] == [row];
    } else {
      assert (rows + [row])[1..] == rows[1..] + [row];
      AbsSumAppend(rows[1..], row);
    }
  }

  /** The creation instant of the newest row. */
  function Newest(history: seq<Tx>): (m: int)
    requires history != []
    ensures forall t :: t in history ==> t.createdAt <= m
    ensures exists t :: t in history && t.createdAt == m
  {
    if |history| == 1 then history[0].createdAt
    else
      var rest := Newest(history[1..]);
      assert history[1..][0] in history[1..];
      if history[0].createdAt >= rest then history[0].createdAt else rest
  }

  /**
   * can_withdraw: bounds first, then the number and sum of the last day's
   * withdrawals, then the cooldown since the newest row of any type.
   */
  function CanWithdraw(amount: real, history: seq<Tx>, now: int): (d: Decision<Reason>)
    ensures d == Allow <==>
      && MinWithdraw <= amount <= MaxWithdraw
      && |RecentWithdraws(history, now)| < MaxDailyWithdrawCount
      && AbsSum(RecentWithdraws(history, now)) + amount <= MaxDailyWithdrawSum
      && (forall t :: t in history ==> now - t.createdAt >= Cooldown)
  {
    if amount < MinWithdraw then Deny(BelowMinWithdraw)
    else if amount > MaxWithdraw then Deny(AboveMaxWithdraw)
    else
      var recent := RecentWithdraws(history, now);
      if |recent| >= MaxDailyWithdrawCount then Deny(TooManyWithdraws)
      else if AbsSum(recent) + amount > MaxDailyWithdrawSum then Deny(DailySumExceeded)
      else if history != [] && now - Newest(history) < Cooldown then Deny(TooFrequent)
      else Allow
  }

  /** can_deposit: allows exactly the amounts in [5 000, 5 000 000]. */
  function CanDeposit(amount: real): (d: Decision<Reason>)
    ensures d == Allow <==> MinDeposit <= amount <= MaxWithdraw
    ensures amount < MinDeposit ==> d == Deny(BelowMinDeposit)
  {
    if amount < MinDeposit then Deny(BelowMinDeposit)
    else if amount > MaxWithdraw then Deny(AboveMaxDeposit)
    else Allow
  }

  /** can_transfer: self-transfer first, then a non-positive amount, then the 1 000 minimum. */
  function CanTransfer(sender: int, receiver: int, amount: real): (d: Decision<Reason>)
    ensures d == Allow <==> sender != receiver && amount >= MinTransfer
    ensures sender == receiver ==> d == Deny(SelfTransfer)
    ensures sender != receiver && amount <= 0.0 ==> d == Deny(NotPositive)
  {
    if sender == receiver then Deny(SelfTransfer)
    else if amount <= 0.0 then Deny(NotPositive)
    else if amount < MinTransfer then Deny(BelowMinTransfer)
    else Allow
  }

  // ---------------------------------------------------------------------
  // Properties

  /** An amount outside the bounds is denied whatever the history and the clock. */
  lemma WithdrawBoundsBeforeHistory(amount: real, h1: seq<Tx>, t1: int, h2: seq<Tx>, t2: int)
    requires amount < MinWithdraw || amount > MaxWithdraw
    ensures CanWithdraw(amount, h1, t1) == CanWithdraw(amount, h2, t2)
    ensures CanWithdraw(amount, h1, t1).Deny?
  {
  }

  /**
   * An allowed withdrawal, once its row (-amount, "withdraw", now) is
   * added, leaves the visible day at no more than 3 withdrawals summing to
   * no more than 10 000 000.
   */
  lemma AllowedWithdrawKeepsDailyLimits(amount: real, history: seq<Tx>, now: int, row: Tx)
    requires CanWithdraw(amount, history, now) == Allow
    requires row.kind == Withdraw && row.amount == -amount && row.createdAt == now
    ensures |RecentWithdraws(history + [row], now)| <= MaxDailyWithdrawCount
    ensures AbsSum(RecentWithdraws(history + [row], now)) <= MaxDailyWithdrawSum
  {
    RecentWithdrawsAppend(history, row, now);
    AbsSumAppend(RecentWithdraws(history, now), row);
  }

  /** Within 30 seconds of the newest row of any type, no withdrawal is allowed. */
  lemma CooldownAfterAnyRow(amount: real, history: seq<Tx>, now: int)
    requires history != [] && now - Newest(history) < Cooldown
    ensures CanWithdraw(amount, history, now) != Allow
  {
  }
}
