/**
 * ManualPaymentProvider: deposits confirmed by hand. Invoices live in an
 * in-memory storage keyed by invoice id; an admin approves ("paid") or
 * rejects ("declined") a pending invoice.
 */
module ManualProvider {
  import opened Wrappers

  const ProviderName := "manual"
  const Currency := "UZS"

  /** The stored invoice dict; times are seconds. */
  datatype Invoice = Invoice(
    id: string, userId: string, amount: real, provider: string, currency: string,
    status: string, note: Option<string>, reason: Option<string>, confirmedAt: Option<int>)

  /** The provider's exceptions. */
  datatype ProviderError =
    | PaymentNotFound
    | PaymentAlreadyProcessed
    | PaymentDeclined
    | PaymentPending
    | UnknownStatus(status: string)
    | UnsupportedOperation

  type Storage = map<string, Invoice>

  /** The statuses the provider itself writes. */
  predicate KnownStatuses(st: Storage)
  {
    forall id :: id in st ==> st[id].status in {"pending", "paid", "declined"}
  }

  /** create_invoice under the fresh id (the uuid is a parameter). */
  function Create(st: Storage, freshId: string, userId: string, amount: real, note: Option<string>): Storage
  {
    st[freshId := Invoice(freshId, userId, amount, ProviderName, Currency, "pending", note, None, None)]
  }

  /** verify_payment never returns normally: the exception it raises for each status. */
  function Verify(st: Storage, id: string): ProviderError
  {
    if id !in st then PaymentNotFound
    else if st[id].status == "paid" then PaymentAlreadyProcessed
    else if st[id].status == "declined" then PaymentDeclined
    else if st[id].status == "pending" then PaymentPending
    else UnknownStatus(st[id].status)
  }

  function Status(st: Storage, id: string): Result<string, ProviderError>
  {
    if id !in st then Failure(PaymentNotFound) else Success(st[id].status)
  }

  /** approve_invoice: "paid" whatever the prior status. */
  function Approve(st: Storage, id: string, now: int): Result<Storage, ProviderError>
  {
    if id !in st then Failure(PaymentNotFound)
    else Success(st[id := st[id].(status := "paid", confirmedAt := Some(now))])
  }

  /** reject_invoice: "declined" with the reason, whatever the prior status. */
  function Reject(st: Storage, id: string, reason: string, now: int): Result<Storage, ProviderError>
  {
    if id !in st then Failure(PaymentNotFound)
    else Success(st[id := st[id].(status := "declined", reason := Some(reason), confirmedAt := Some(now))])
  }

  /** parse_callback's dict: missing fields take their defaults, the signature is always valid. */
  datatype Callback = Callback(invoiceId: Option<string>, status: string, amount: real, signatureValid: bool)

  function ParseCallback(invoiceId: Option<string>, status: Option<string>, amount: Option<real>): (c: Callback)
    ensures c.signatureValid && c.invoiceId == invoiceId
    ensures status.None? ==> c.status == "pending"
    ensures status.Some? ==> c.status == status.value
    ensures amount.None? ==> c.amount == 0.0
    ensures amount.Some? ==> c.amount == amount.value
  {
    Callback(invoiceId, if status.Some? then status.value else "pending", if amount.Some? then amount.value else 0.0, true)
  }

  // ---------------------------------------------------------------------
  // Properties

  /** A new invoice is pending, manual and in UZS, and verify_payment says it awaits approval. */
  lemma CreatedInvoiceIsPending(st: Storage, freshId: string, userId: string, amount: real, note: Option<string>)
    ensures var st1 := Create(st, freshId, userId, amount, note);
      && Status(st1, freshId) == Success("pending")
      && Verify(st1, freshId) == PaymentPending
      && st1[freshId].provider == "manual" && st1[freshId].currency == "UZS"
      && st1[freshId].userId == userId && st1[freshId].amount == amount
      && (forall other :: other in st && other != freshId ==> other in st1 && st1[other] == st[other])
  {
  }

  /** Approving, then verifying, raises AlreadyProcessed; rejecting raises Declined and keeps the reason. */
  lemma DecisionsAreFinalForVerify(st: Storage, id: string, reason: string, now: int)
    requires id in st
    ensures Approve(st, id, now).Success? && Verify(Approve(st, id, now).value, id) == PaymentAlreadyProcessed
    ensures Reject(st, id, reason, now).Success? && Verify(Reject(st, id, reason, now).value, id) == PaymentDeclined
    ensures Reject(st, id, reason, now).value[id].reason == Some(reason)
  {
  }

  /** Both decisions raise NotFound for an unknown id and otherwise touch no other invoice. */
  lemma DecisionsTouchOneInvoice(st: Storage, id: string, other: string, reason: string, now: int)
    requires other != id
    ensures id !in st ==> Approve(st, id, now) == Failure(PaymentNotFound) && Reject(st, id, reason, now) == Failure(PaymentNotFound)
    ensures id in st ==> Approve(st, id, now).value.Keys == st.Keys && Reject(st, id, reason, now).value.Keys == st.Keys
    ensures id in st && other in st ==>
      Approve(st, id, now).value[other] == st[other] && Reject(st, id, reason, now).value[other] == st[other]
  {
  }

  /** A declined invoice can still be approved: approve does not look at the prior status. */
  lemma ApproveOverridesDecline(st: Storage, id: string, reason: string, t1: int, t2: int)
    requires id in st
    ensures var declined := Reject(st, id, reason, t1).value;
      Approve(declined, id, t2).Success? && Status(Approve(declined, id, t2).value, id) == Success("paid")
  {
  }

  /** The provider writes only pending, paid and declined, so verify_payment never reports an unknown status. */
  lemma OperationsKeepKnownStatuses(st: Storage, id: string, freshId: string, userId: string, amount: real,
                                    note: Option<string>, reason: string, now: int)
    requires KnownStatuses(st)
    ensures KnownStatuses(Create(st, freshId, userId, amount, note))
    ensures Approve(st, id, now).Success? ==> KnownStatuses(Approve(st, id, now).value)
    ensures Reject(st, id, reason, now).Success? ==> KnownStatuses(Reject(st, id, reason, now).value)
    ensures !Verify(st, id).UnknownStatus?
  {
  }

  // ---------------------------------------------------------------------
  // The provider

  class ManualPaymentProvider {
    var storage: Storage

    constructor ()
      ensures storage == map[]
    {
      storage := map[];
    }

    method CreateInvoice(freshId: string, userId: string, amount: real, note: Option<string>) returns (invoice: Invoice)
      modifies this
      ensures storage == Create(old(storage), freshId, userId, amount, note)
      ensures invoice == storage[freshId]
    {
      invoice := Invoice(freshId, userId, amount, ProviderName, Currency, "pending", note, None, None);
      storage := storage[freshId := invoice];
    }

    method VerifyPayment(id: string) returns (raised: ProviderError)
      ensures raised == Verify(storage, id)
    {
      if id !in storage {
        return PaymentNotFound;
      }
      var status := storage[id].status;
      if status == "paid" {
        raised := PaymentAlreadyProcessed;
      } else if status == "declined" {
        raised := PaymentDeclined;
      } else if status == "pending" {
        raised := PaymentPending;
      } else {
        raised := UnknownStatus(status);
      }
    }

    method GetStatus(id: string) returns (r: Result<string, ProviderError>)
      ensures r == Status(storage, id)
    {
      if id !in storage {
        return Failure(PaymentNotFound);
      }
      return Success(storage[id].status);
    }

    /** Refunds are not supported by the manual provider. */
    method Refund(id: string) returns (raised: ProviderError)
      ensures raised == UnsupportedOperation
    {
      raised := UnsupportedOperation;
    }

    method ApproveInvoice(id: string, now: int) returns (r: Result<bool, ProviderError>)
      modifies this
      ensures Approve(old(storage), id, now).Failure? ==> r == Failure(PaymentNotFound) && storage == old(storage)
      ensures Approve(old(storage), id, now).Success? ==> r == Success(true) && storage == Approve(old(storage), id, now).value
    {
      if id !in storage {
        return Failure(PaymentNotFound);
      }
      var record := storage[id];
      record := record.(status := "paid", confirmedAt := Some(now));
      storage := storage[id := record];
      return Success(true);
    }

    method RejectInvoice(id: string, reason: string, now: int) returns (r: Result<bool, ProviderError>)
      modifies this
      ensures Reject(old(storage), id, reason, now).Failure? ==> r == Failure(PaymentNotFound) && storage == old(storage)
      ensures Reject(old(storage), id, reason, now).Success? ==> r == Success(true) && storage == Reject(old(storage), id, reason, now).value
    {
      if id !in storage {
        return Failure(PaymentNotFound);
      }
      var record := storage[id];
      record := record.(status := "declined", reason := Some(reason), confirmedAt := Some(now));
      storage := storage[id := record];
      return Success(true);
    }
  }
}
