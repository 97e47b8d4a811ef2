/**
 * OrderRules: who may create, accept, complete and cancel an order, the
 * deadline window and the platform fee.
 */
module OrderRules {
  import opened Wrappers
  import opened RuleBase
  import opened UserModel

  const MinOrderPrice: real := 10000.0
  const MaxOrderPrice: real := 50000000.0
  const PlatformFeePercent: real := 10.0
  const MaxActiveOrdersPerClient := 10
  const MaxActiveOrdersPerPerformer := 5
  const DefaultOrderDuration := 7 * Day
  const MaxOrderDuration := 30 * Day
  const CompletionGrace := 3 * Day
  const MinRatingToAccept: real := 2.5

  datatype Reason =
    | NotVerified | PriceTooLow | PriceTooHigh | TooManyActiveOrders
    | RatingTooLow
    | DeadlineTooFar | DeadlineInPast
    | WrongStatusToComplete | CompletionWindowOver
    | AlreadyClosed | NotClientOrAdmin

  /** calculate_fee's dictionary. */
  datatype Fee = Fee(fee: real, netAmount: real, percent: real)

  /** can_create_order: verified, price in [10 000, 50 000 000], fewer than 10 active orders, in that order. */
  function CanCreateOrder(client: Profile, price: real, activeOrders: int): (d: Decision<Reason>)
    ensures d == Allow <==>
      client.isVerified && MinOrderPrice <= price <= MaxOrderPrice && activeOrders < MaxActiveOrdersPerClient
    ensures !client.isVerified ==> d == Deny(NotVerified)
  {
    if !client.isVerified then Deny(NotVerified)
    else if price < MinOrderPrice then Deny(PriceTooLow)
    else if price > MaxOrderPrice then Deny(PriceTooHigh)
    else if activeOrders >= MaxActiveOrdersPerClient then Deny(TooManyActiveOrders)
    else Allow
  }

  /** can_accept_order: verified, fewer than 5 active orders, rating at least 2.5 (None raises TypeError). */
  function CanAcceptOrder(performer: Profile, activeOrders: int): (r: Result<Decision<Reason>, RuleError>)
    ensures r == Success(Allow) <==>
      performer.isVerified && activeOrders < MaxActiveOrdersPerPerformer
      && performer.rating.Some? && performer.rating.value >= MinRatingToAccept
    ensures r.Failure? <==> performer.isVerified && activeOrders < MaxActiveOrdersPerPerformer && performer.rating.None?
  {
    if !performer.isVerified then Success(Deny(NotVerified))
    else if activeOrders >= MaxActiveOrdersPerPerformer then Success(Deny(TooManyActiveOrders))
    else if performer.rating.None? then Failure(TypeError)
    else if performer.rating.value < MinRatingToAccept then Success(Deny(RatingTooLow))
    else Success(Allow)
  }

  /** validate_deadline: the upper bound is tested first, then the past. */
  function ValidateDeadline(deadline: int, now: int): (d: Decision<Reason>)
    ensures d == Allow <==> now <= deadline <= now + MaxOrderDuration
    ensures deadline > now + MaxOrderDuration ==> d == Deny(DeadlineTooFar)
  {
    if deadline > now + MaxOrderDuration then Deny(DeadlineTooFar)
    else if deadline < now then Deny(DeadlineInPast)
    else Allow
  }

  /** calculate_fee, without the rounding to 2 decimals. */
  function CalculateFee(price: real): (f: Fee)
    ensures f.fee + f.netAmount == price
    ensures f.fee * 100.0 == price * PlatformFeePercent
    ensures f.percent == PlatformFeePercent
    ensures price >= 0.0 ==> 0.0 <= f.fee <= f.netAmount <= price
  {
    var fee := price * PlatformFeePercent / 100.0;
    Fee(fee, price - fee, PlatformFeePercent)
  }

  /** can_complete_order: status in_progress or review, and no later than 3 days past the deadline. */
  function CanCompleteOrder(status: string, deadline: int, now: int): (d: Decision<Reason>)
    ensures d == Allow <==> (status == "in_progress" || status == "review") && now <= deadline + CompletionGrace
  {
    if status != "in_progress" && status != "review" then Deny(WrongStatusToComplete)
    else if now > deadline + CompletionGrace then Deny(CompletionWindowOver)
    else Allow
  }

  /** can_cancel_order: a closed order first, then the role. */
  function CanCancelOrder(status: string, role: string): (d: Decision<Reason>)
    ensures d == Allow <==> status != "completed" && status != "cancelled" && (role == "client" || role == "admin")
    ensures status == "completed" || status == "cancelled" ==> d == Deny(AlreadyClosed)
  {
    if status == "completed" || status == "cancelled" then Deny(AlreadyClosed)
    else if role != "client" && role != "admin" then Deny(NotClientOrAdmin)
    else Allow
  }

  // ---------------------------------------------------------------------
  // Properties

  /** The default 7-day deadline lies inside the allowed window. */
  lemma DefaultDeadlineValid(now: int)
    ensures ValidateDeadline(now + DefaultOrderDuration, now) == Allow
  {
  }

  /** An order that can be completed cannot already be closed, so it can still be cancelled by its client. */
  lemma CompletableIsCancellable(status: string, deadline: int, now: int)
    requires CanCompleteOrder(status, deadline, now) == Allow
    ensures CanCancelOrder(status, "client") == Allow
  {
  }
}
