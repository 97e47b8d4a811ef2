/**
 * PaymentRules: the supported methods, the amount bounds, the 24-hour
 * activity limits and the user-status check.
 */
module PaymentRules {
  import opened Wrappers
  import opened Text
  import opened RuleBase
  import opened UserModel

  const SupportedMethods: seq<string> := ["click", "payme", "uzcard", "crypto"]
  const VerifiedOnlyMethods: seq<string> := ["crypto"]
  const MinPaymentAmount: real := 5000.0
  const MaxPaymentAmount: real := 10000000.0
  const DailyPaymentLimit: real := 20000000.0
  const MaxPaymentAttempts := 5

  datatype Reason =
    | UnsupportedMethod(given: string) | UserNotFound | VerificationRequired
    | AmountTooLow | AmountTooHigh
    | DailyLimitExceeded | TooManyAttempts
    | Inactive | Blocked

  /** A payment as check_activity_limits reads it. */
  datatype PaymentRow = PaymentRow(amount: real, createdAt: int)

  /** method.lower().strip() */
  function NormalizeMethod(name: string): string
  {
    Strip(Lower(name))
  }

  /**
   * validate_method: the normalised method must be supported, the user must
   * exist, and "crypto" needs a verified user.
   */
  function ValidateMethod(user: Option<Profile>, name: string): (d: Decision<Reason>)
    ensures d == Allow <==>
      && NormalizeMethod(name) in SupportedMethods
      && user.Some?
      && (NormalizeMethod(name) in VerifiedOnlyMethods ==> user.value.isVerified)
    ensures NormalizeMethod(name) !in SupportedMethods ==> d == Deny(UnsupportedMethod(NormalizeMethod(name)))
  {
    var m := NormalizeMethod(name);
    if m !in SupportedMethods then Deny(UnsupportedMethod(m))
    else if user.None? then Deny(UserNotFound)
    else if m in VerifiedOnlyMethods && !user.value.isVerified then Deny(VerificationRequired)
    else Allow
  }

  /** validate_amount: exactly [5 000, 10 000 000]. */
  function ValidateAmount(amount: real): (d: Decision<Reason>)
    ensures d == Allow <==> MinPaymentAmount <= amount <= MaxPaymentAmount
  {
    if amount < MinPaymentAmount then Deny(AmountTooLow)
    else if amount > MaxPaymentAmount then Deny(AmountTooHigh)
    else Allow
  }

  /** The payments of the 24 hours before `now`. */
  function RecentPayments(payments: seq<PaymentRow>, now: int): (r: seq<PaymentRow>)
    ensures forall p :: p in r <==> p in payments && p.createdAt >= now - Day
    ensures |r| <= |payments|
  {
    if payments == [] then []
    else
      var rest := RecentPayments(payments[1..], now);
      if payments[0].createdAt >= now - Day then [payments[0]] + rest else rest
  }

  function SumAmounts(payments: seq<PaymentRow>): real
  {
    if payments == [] then 0.0 else payments[0].amount + SumAmounts(payments[1..])
  }

  /** check_activity_limits: the day's sum above 20 000 000 first, then more than 5 payments. */
  function CheckActivityLimits(payments: seq<PaymentRow>, now: int): (d: Decision<Reason>)
    ensures d == Allow <==>
      SumAmounts(RecentPayments(payments, now)) <= DailyPaymentLimit && |RecentPayments(payments, now)| <= MaxPaymentAttempts
  {
    var recent := RecentPayments(payments, now);
    if SumAmounts(recent) > DailyPaymentLimit then Deny(DailyLimitExceeded)
    else if |recent| > MaxPaymentAttempts then Deny(TooManyAttempts)
    else Allow
  }

  /** validate_user_status: an inactive user is reported before a blocked one. */
  function ValidateUserStatus(u: Profile): (d: Decision<Reason>)
    ensures d == Allow <==> u.isActive && !u.isBlocked
    ensures !u.isActive ==> d == Deny(Inactive)
  {
    if !u.isActive then Deny(Inactive)
    else if u.isBlocked then Deny(Blocked)
    else Allow
  }

  // ---------------------------------------------------------------------
  // Properties

  lemma {:induction false} RecentPaymentsOld(payments: seq<PaymentRow>, now: int)
    requires forall p :: p in payments ==> p.createdAt < now - Day
    ensures RecentPayments(payments, now) == []
  {
    if payments != [] {
      assert forall p :: p in payments[1..] ==> p in payments;
      RecentPaymentsOld(payments[1..], now);
    }
  }

  /** Payments older than a day never count against the limits. */
  lemma OldPaymentsIgnored(stale: seq<PaymentRow>, recent: seq<PaymentRow>, now: int)
    requires forall p :: p in stale ==> p.createdAt < now - Day
    ensures CheckActivityLimits(stale + recent, now) == CheckActivityLimits(recent, now)
  {
    RecentPaymentsAppend(stale, recent, now);
    RecentPaymentsOld(stale, now);
    assert [] + RecentPayments(recent, now) == RecentPayments(recent, now);
  }

  lemma {:induction false} RecentPaymentsAppend(a: seq<PaymentRow>, b: seq<PaymentRow>, now: int)
    ensures RecentPayments(a + b, now) == RecentPayments(a, now) + RecentPayments(b, now)
  {
    if a == [] {
      assert a + b == b;
    } else {
      assert (a + b)[1..] == a[1..] + b;
      RecentPaymentsAppend(a[1..], b, now);
    }
  }

  /** Lower-casing keeps the blanks around a name. */
  lemma LowerOfPadded(w: string)
    ensures Lower(" " + w + " ") == " " + Lower(w) + " "
  {
  }

  /**
   * Case and surrounding blanks do not matter: a name with a blank on each
   * side normalises to its lower-case form (" Click " is the method click).
   */
  lemma MethodIsNormalised(w: string)
    requires w != [] && !IsSpace(w[0]) && !IsSpace(w[|w| - 1])
    ensures NormalizeMethod(" " + w + " ") == Lower(w)
  {
    var lw := Lower(w);
    LowerOfPadded(w);
    assert lw[0] == LowerChar(w[0]) && lw[|lw| - 1] == LowerChar(w[|w| - 1]);
    StripOfPadded(lw);
  }

  /**
   * A supported method that needs no verification passes validate_method
   * for any known user, verified or not, whatever its case and with blanks
   * around it.
   */
  lemma NormalisedMethodAllowed(user: Profile, w: string)
    requires w != [] && !IsSpace(w[0]) && !IsSpace(w[|w| - 1])
    requires Lower(w) in SupportedMethods && Lower(w) !in VerifiedOnlyMethods
    ensures ValidateMethod(Some(user), " " + w + " ") == Allow
  {
    MethodIsNormalised(w);
  }
}
