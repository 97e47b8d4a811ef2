/**
 * UserRules: activity, verification and permission checks on a user's
 * profile.
 */
module UserRules {
  import opened Wrappers
  import opened RuleBase
  import opened UserModel

  const MinRatingToPublishOrder: real := 3.5
  const MinRatingToTakeTask: real := 2.0
  const UnverifiedOrderLimit := 2
  const MaxInactiveDays := 180

  datatype Reason =
    | Inactive | Blocked | Dormant
    | NotVerified
    | UnverifiedOrderLimitReached | RatingTooLowToPublish
    | RatingTooLowToTakeTask
    | InactiveOrBlocked

  /** is_active: the flag, then blocking, then a last login more than 180 days ago; no login passes. */
  function IsActive(u: Profile, now: int): (d: Decision<Reason>)
    ensures d == Allow <==>
      u.isActive && !u.isBlocked && (u.lastLogin.None? || now - u.lastLogin.value <= MaxInactiveDays * Day)
    ensures !u.isActive ==> d == Deny(Inactive)
    ensures u.isActive && u.isBlocked ==> d == Deny(Blocked)
  {
    if !u.isActive then Deny(Inactive)
    else if u.isBlocked then Deny(Blocked)
    else if u.lastLogin.Some? && now - u.lastLogin.value > MaxInactiveDays * Day then Deny(Dormant)
    else Allow
  }

  /** is_verified */
  function IsVerified(u: Profile): (d: Decision<Reason>)
    ensures d == Allow <==> u.isVerified
  {
    if !u.isVerified then Deny(NotVerified) else Allow
  }

  /** can_publish_order: an unverified user may hold fewer than 2 orders; a known rating must be at least 3.5. */
  function CanPublishOrder(u: Profile, existingOrders: int): (d: Decision<Reason>)
    ensures d == Allow <==>
      (u.isVerified || existingOrders < UnverifiedOrderLimit) && (u.rating.None? || u.rating.value >= MinRatingToPublishOrder)
  {
    if !u.isVerified && existingOrders >= UnverifiedOrderLimit then Deny(UnverifiedOrderLimitReached)
    else if u.rating.Some? && u.rating.value < MinRatingToPublishOrder then Deny(RatingTooLowToPublish)
    else Allow
  }

  /** can_take_task: verified, and a truthy rating must be at least 2.0 (None and 0.0 pass). */
  function CanTakeTask(u: Profile): (d: Decision<Reason>)
    ensures d == Allow <==>
      u.isVerified && (u.rating.None? || u.rating.value == 0.0 || u.rating.value >= MinRatingToTakeTask)
  {
    if !u.isVerified then Deny(NotVerified)
    else if u.rating.Some? && u.rating.value != 0.0 && u.rating.value < MinRatingToTakeTask then Deny(RatingTooLowToTakeTask)
    else Allow
  }

  /** can_transfer: verified, then active and not blocked. */
  function CanTransfer(u: Profile): (d: Decision<Reason>)
    ensures d == Allow <==> u.isVerified && u.isActive && !u.isBlocked
    ensures !u.isVerified ==> d == Deny(NotVerified)
  {
    if !u.isVerified then Deny(NotVerified)
    else if !u.isActive || u.isBlocked then Deny(InactiveOrBlocked)
    else Allow
  }

  // ---------------------------------------------------------------------
  // Properties

  /**
   * A user who may transfer passes is_verified and the first two checks of
   * is_active; only dormancy can still make is_active deny.
   */
  lemma TransferImpliesVerifiedAndActive(u: Profile, now: int)
    requires CanTransfer(u) == Allow
    ensures IsVerified(u) == Allow
    ensures IsActive(u, now) == Allow || IsActive(u, now) == Deny(Dormant)
  {
  }

  /**
   * A rating of 0.0 is falsy: can_take_task lets it through, while
   * can_publish_order, which tests "is not None", rejects it.
   */
  lemma ZeroRatingPassesOnlyTaskCheck(u: Profile)
    requires u.isVerified && u.rating == Some(0.0)
    ensures CanTakeTask(u) == Allow
    ensures CanPublishOrder(u, 0) == Deny(RatingTooLowToPublish)
  {
  }
}
