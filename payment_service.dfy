/**
 * PaymentService: payment records that move pending -> completed ->
 * refunded (or to failed), crediting or debiting the ledger when a
 * payment completes or is refunded.
 */
module PaymentService {
  import opened Wrappers
  import opened RuleBase
  import opened UserModel
  import PR = PaymentRules
  import opened L = BalanceService

  const DefaultFailReason := "Неизвестная ошибка"

  /** A payment record as the service reads and writes it. */
  datatype Payment = Payment(
    userId: int,
    amount: real,
    methodName: string,
    direction: string,
    status: string,
    metadata: map<string, string>,
    failedReason: Option<string>)

  datatype PaymentFailure =
    | MethodDenied(reason: PR.Reason)
    | PaymentNotFound
    | AlreadyCompleted
    | NotFoundOrNotCompleted
    | RefundDenied

  datatype PaymentReply = Created(paymentId: int, status: string) | StatusIs(status: string) | Failed(why: PaymentFailure)

  /** The payment table, the next id the table will hand out, and the ledger. */
  datatype Payments = Payments(table: map<int, Payment>, nextId: int, ledger: Ledger)

  datatype PaymentStep = PaymentStep(reply: PaymentReply, after: Payments)

  /** Ids are handed out above every id in use. */
  predicate Fresh(s: Payments)
  {
    forall id :: id in s.table ==> id < s.nextId
  }

  function ProfileOf(l: Ledger, uid: int): (p: Option<Profile>)
    ensures p.Some? <==> uid in l.users
  {
    if uid in l.users then Some(l.users[uid].profile) else None
  }

  /** create_payment: validate_method, then one "pending" record with metadata defaulting to {}. */
  function CreateStep(s: Payments, userId: int, amount: real, name: string, direction: string, metadata: Option<map<string, string>>): PaymentStep
  {
    var rule := PR.ValidateMethod(ProfileOf(s.ledger, userId), name);
    if rule.Deny? then PaymentStep(Failed(MethodDenied(rule.reason)), s)
    else
      var p := Payment(userId, amount, name, direction, "pending", metadata.UnwrapOr(map[]), None);
      PaymentStep(Created(s.nextId, "pending"), s.(table := s.table[s.nextId := p], nextId := s.nextId + 1))
  }

  /** The ledger after completing a payment: deposit for "in", withdraw for "out", nothing otherwise. */
  function Settle(l: Ledger, id: int, p: Payment, now: int): Ledger
  {
    if p.direction == "in" then DepositStep(l, p.userId, p.amount, Some(id), now).after
    else if p.direction == "out" then WithdrawStep(l, p.userId, p.amount, now).after
    else l
  }

  /** complete_payment: refuses only an unknown or already "completed" payment. */
  function CompleteStep(s: Payments, id: int, now: int): PaymentStep
  {
    if id !in s.table then PaymentStep(Failed(PaymentNotFound), s)
    else if s.table[id].status == "completed" then PaymentStep(Failed(AlreadyCompleted), s)
    else
      var p := s.table[id];
      PaymentStep(StatusIs("completed"), s.(table := s.table[id := p.(status := "completed")], ledger := Settle(s.ledger, id, p, now)))
  }

  /** fail_payment: any known payment becomes "failed"; an absent or empty reason becomes the default. */
  function FailStep(s: Payments, id: int, reason: Option<string>): PaymentStep
  {
    if id !in s.table then PaymentStep(Failed(PaymentNotFound), s)
    else
      var why := if reason.Some? && reason.value != "" then reason.value else DefaultFailReason;
      PaymentStep(StatusIs("failed"), s.(table := s.table[id := s.table[id].(status := "failed", failedReason := Some(why))]))
  }

  /**
   * refund_payment: only a "completed" payment, and only when the refund
   * rule allows (the rule is not part of this model: `refundAllowed`);
   * the amount is deposited back.
   */
  function RefundStep(s: Payments, id: int, refundAllowed: bool, now: int): PaymentStep
  {
    if id !in s.table || s.table[id].status != "completed" then PaymentStep(Failed(NotFoundOrNotCompleted), s)
    else if !refundAllowed then PaymentStep(Failed(RefundDenied), s)
    else
      var p := s.table[id];
      PaymentStep(StatusIs("refunded"),
        s.(table := s.table[id := p.(status := "refunded")], ledger := DepositStep(s.ledger, p.userId, p.amount, Some(id), now).after))
  }

  // ---------------------------------------------------------------------
  // Properties

  /** create_payment adds exactly one pending record under a fresh id, or nothing at all. */
  lemma CreateOutcome(s: Payments, userId: int, amount: real, name: string, direction: string, metadata: Option<map<string, string>>)
    requires Fresh(s)
    ensures var st := CreateStep(s, userId, amount, name, direction, metadata);
      && Fresh(st.after)
      && st.after.ledger == s.ledger
      && (st.reply.Created? <==> PR.ValidateMethod(ProfileOf(s.ledger, userId), name) == Allow)
      && (!st.reply.Created? ==> st.after == s)
      && (st.reply.Created? ==>
            && s.nextId !in s.table
            && st.after.table == s.table[s.nextId := Payment(userId, amount, name, direction, "pending", metadata.UnwrapOr(map[]), None)]
            && st.after.table[st.reply.paymentId].status == "pending")
  {
  }

  /** A completed payment cannot be completed again; the refusal changes nothing. */
  lemma CompleteTwiceRefused(s: Payments, id: int, t1: int, t2: int)
    requires CompleteStep(s, id, t1).reply == StatusIs("completed")
    ensures CompleteStep(CompleteStep(s, id, t1).after, id, t2) == PaymentStep(Failed(AlreadyCompleted), CompleteStep(s, id, t1).after)
  {
  }

  /** Completing credits an "in" payment, debits an "out" payment, and moves nothing for any other direction. */
  lemma CompleteMovesMoney(s: Payments, id: int, now: int)
    requires id in s.table && s.table[id].status != "completed"
    ensures var p := s.table[id]; var after := CompleteStep(s, id, now).after.ledger;
      && (p.direction == "in" ==> after == DepositStep(s.ledger, p.userId, p.amount, Some(id), now).after)
      && (p.direction == "out" ==> after == WithdrawStep(s.ledger, p.userId, p.amount, now).after)
      && (p.direction != "in" && p.direction != "out" ==> after == s.ledger)
  {
  }

  /** A refunded payment cannot be refunded again. */
  lemma RefundTwiceRefused(s: Payments, id: int, t1: int, t2: int)
    requires RefundStep(s, id, true, t1).reply == StatusIs("refunded")
    ensures RefundStep(RefundStep(s, id, true, t1).after, id, true, t2).reply == Failed(NotFoundOrNotCompleted)
  {
  }

  /** fail_payment does not look at the status: even a completed payment becomes "failed", and no money moves back. */
  lemma FailIgnoresStatus(s: Payments, id: int, reason: Option<string>)
    requires id in s.table && s.table[id].status == "completed"
    ensures FailStep(s, id, reason).after.table[id].status == "failed"
    ensures FailStep(s, id, reason).after.ledger == s.ledger
    ensures reason.None? ==> FailStep(s, id, reason).after.table[id].failedReason == Some(DefaultFailReason)
  {
  }

  /** Only the touched record changes. */
  lemma StepsTouchOneRecord(s: Payments, id: int, other: int, reason: Option<string>, refundAllowed: bool, now: int)
    requires other != id && other in s.table
    ensures CompleteStep(s, id, now).after.table[other] == s.table[other]
    ensures FailStep(s, id, reason).after.table[other] == s.table[other]
    ensures RefundStep(s, id, refundAllowed, now).after.table[other] == s.table[other]
  {
  }

  /**
   * As written: completion refuses only "completed", so a refunded "in"
   * payment can be completed again and is credited a second time, on top
   * of the refund.
   */
  lemma CompleteAfterRefundCreditsAgain(s: Payments, id: int, t1: int, t2: int, t3: int)
    requires id in s.table && s.table[id].status == "pending" && s.table[id].direction == "in"
    ensures var s1 := CompleteStep(s, id, t1).after;
      var s2 := RefundStep(s1, id, true, t2).after;
      var s3 := CompleteStep(s2, id, t3);
      var p := s.table[id];
      && s3.reply == StatusIs("completed")
      && s3.after.ledger == DepositStep(DepositStep(DepositStep(s.ledger, p.userId, p.amount, Some(id), t1).after,
                                                    p.userId, p.amount, Some(id), t2).after,
                                        p.userId, p.amount, Some(id), t3).after
  {
  }

  /**
   * As written: fail_payment accepts a completed payment and completion
   * refuses only "completed", so an "in" payment completed, failed and
   * completed again is credited twice and never debited.
   */
  lemma CompleteAfterFailCreditsAgain(s: Payments, id: int, reason: Option<string>, t1: int, t3: int)
    requires id in s.table && s.table[id].status == "pending" && s.table[id].direction == "in"
    ensures var s1 := CompleteStep(s, id, t1).after;
      var s2 := FailStep(s1, id, reason).after;
      var s3 := CompleteStep(s2, id, t3);
      var p := s.table[id];
      && s2.ledger == s1.ledger
      && s3.reply == StatusIs("completed")
      && s3.after.ledger == DepositStep(DepositStep(s.ledger, p.userId, p.amount, Some(id), t1).after,
                                        p.userId, p.amount, Some(id), t3).after
  {
  }

  /** Completion as evidently intended: only a "pending" payment may be completed. */
  function CompletePendingStep(s: Payments, id: int, now: int): PaymentStep
  {
    if id !in s.table then PaymentStep(Failed(PaymentNotFound), s)
    else if s.table[id].status != "pending" then PaymentStep(Failed(AlreadyCompleted), s)
    else CompleteStep(s, id, now)
  }

  /**
   * With that guard a payment is settled at most once: after it completes,
   * is refunded or fails, completion is refused and moves no money.
   */
  lemma PendingGuardSettlesOnce(s: Payments, id: int, reason: Option<string>, t1: int, t2: int, t3: int)
    requires CompletePendingStep(s, id, t1).reply == StatusIs("completed")
    ensures var s1 := CompletePendingStep(s, id, t1).after;
      && CompletePendingStep(s1, id, t2).after == s1
      && CompletePendingStep(RefundStep(s1, id, true, t2).after, id, t3).after == RefundStep(s1, id, true, t2).after
      && CompletePendingStep(FailStep(s1, id, reason).after, id, t3).after == FailStep(s1, id, reason).after
  {
  }

  // ---------------------------------------------------------------------
  // The service

  class PaymentService {
    const ledger: L.BalanceService
    var table: map<int, Payment>
    var nextId: int

    function Model(): Payments
      reads this, ledger
    {
      Payments(table, nextId, ledger.Model())
    }

    constructor (ledger: L.BalanceService)
      ensures this.ledger == ledger && table == map[] && nextId == 1
    {
      this.ledger := ledger;
      table := map[];
      nextId := 1;
    }

    method CreatePayment(userId: int, amount: real, name: string, direction: string, metadata: Option<map<string, string>>)
      returns (r: PaymentReply)
      modifies this
      ensures PaymentStep(r, Model()) == CreateStep(old(Model()), userId, amount, name, direction, metadata)
    {
      var rule := PR.ValidateMethod(ProfileOf(ledger.Model(), userId), name);
      if rule.Deny? {
        return Failed(MethodDenied(rule.reason));
      }
      var id := nextId;
      table := table[id := Payment(userId, amount, name, direction, "pending", metadata.UnwrapOr(map[]), None)];
      nextId := nextId + 1;
      r := Created(id, "pending");
      assert ledger.Model() == old(ledger.Model());
    }

    method CompletePayment(id: int, now: int) returns (r: PaymentReply)
      modifies this, ledger
      ensures PaymentStep(r, Model()) == CompleteStep(old(Model()), id, now)
    {
      if id !in table {
        return Failed(PaymentNotFound);
      }
      var p := table[id];
      if p.status == "completed" {
        return Failed(AlreadyCompleted);
      }
      table := table[id := p.(status := "completed")];
      if p.direction == "in" {
        var _ := ledger.Deposit(p.userId, p.amount, Some(id), now);
      } else if p.direction == "out" {
        var _ := ledger.Withdraw(p.userId, p.amount, now);
      }
      return StatusIs("completed");
    }

    method FailPayment(id: int, reason: Option<string>) returns (r: PaymentReply)
      modifies this
      ensures PaymentStep(r, Model()) == FailStep(old(Model()), id, reason)
    {
      if id !in table {
        return Failed(PaymentNotFound);
      }
      var why := if reason.Some? && reason.value != "" then reason.value else DefaultFailReason;
      table := table[id := table[id].(status := "failed", failedReason := Some(why))];
      return StatusIs("failed");
    }

    method RefundPayment(id: int, refundAllowed: bool, now: int) returns (r: PaymentReply)
      modifies this, ledger
      ensures PaymentStep(r, Model()) == RefundStep(old(Model()), id, refundAllowed, now)
    {
      if id !in table || table[id].status != "completed" {
        return Failed(NotFoundOrNotCompleted);
      }
      if !refundAllowed {
        return Failed(RefundDenied);
      }
      var p := table[id];
      table := table[id := p.(status := "refunded")];
      var _ := ledger.Deposit(p.userId, p.amount, Some(id), now);
      return StatusIs("refunded");
    }
  }
}
