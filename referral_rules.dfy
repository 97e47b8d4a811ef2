/**
 * ReferralRules: the invitation limit, the waiting periods before bonuses,
 * the daily bonus limit and cooldown, and level promotion.
 */
module ReferralRules {
  import opened Wrappers
  import opened RuleBase

  const MaxReferralsPerUser := 100
  const MinReferralActivityDays := 3
  const SignupBonus: real := 5000.0
  const TaskBonus: real := 3000.0
  const MaxBonusPerDay: real := 50000.0
  const BonusCooldown := 12 * Hour

  datatype Reason =
    | TooManyReferrals | SignupTooRecent | ReferralTooNew | DailyBonusLimit | BonusTooSoon
    | MaxLevelReached | NotEnoughActiveReferrals

  /** LEVEL_UP_REQUIREMENTS: the active referrals a level needs; levels outside 1-4 have none. */
  function LevelRequirement(level: int): (r: Option<int>)
    ensures r.Some? <==> 1 <= level <= 4
    ensures r.Some? ==> r.value > 0
  {
    if level == 1 then Some(5)
    else if level == 2 then Some(15)
    else if level == 3 then Some(30)
    else if level == 4 then Some(60)
    else None
  }

  /** can_invite: fewer than 100 referrals so far. */
  function CanInvite(totalReferrals: int): (d: Decision<Reason>)
    ensures d == Allow <==> totalReferrals < MaxReferralsPerUser
  {
    if totalReferrals >= MaxReferralsPerUser then Deny(TooManyReferrals) else Allow
  }

  /** can_receive_signup_bonus: at least an hour after the referral joined. */
  function CanReceiveSignupBonus(joinedAt: int, now: int): (d: Decision<Reason>)
    ensures d == Allow <==> now - joinedAt >= Hour
  {
    if now - joinedAt < Hour then Deny(SignupTooRecent) else Allow
  }

  /** can_receive_task_bonus: at least 3 days after the referral's first task. */
  function CanReceiveTaskBonus(firstTaskAt: int, now: int): (d: Decision<Reason>)
    ensures d == Allow <==> now - firstTaskAt >= MinReferralActivityDays * Day
  {
    if now - firstTaskAt < MinReferralActivityDays * Day then Deny(ReferralTooNew) else Allow
  }

  /** check_daily_bonus_limit: denies once today's sum has reached 50 000 (the pending bonus is not added). */
  function CheckDailyBonusLimit(todaySum: real): (d: Decision<Reason>)
    ensures d == Allow <==> todaySum < MaxBonusPerDay
  {
    if todaySum >= MaxBonusPerDay then Deny(DailyBonusLimit) else Allow
  }

  /** check_bonus_cooldown: no previous bonus, or at least 12 hours since it. */
  function CheckBonusCooldown(lastBonusAt: Option<int>, now: int): (d: Decision<Reason>)
    ensures d == Allow <==> lastBonusAt.None? || now - lastBonusAt.value >= BonusCooldown
  {
    if lastBonusAt.Some? && now - lastBonusAt.value < BonusCooldown then Deny(BonusTooSoon) else Allow
  }

  /** can_level_up: the next level must exist and its requirement be met; the new level is current + 1. */
  function CanLevelUp(activeReferrals: int, currentLevel: int): (d: Decision<Reason>)
    ensures d == Allow <==>
      LevelRequirement(currentLevel + 1).Some? && activeReferrals >= LevelRequirement(currentLevel + 1).value
  {
    var required := LevelRequirement(currentLevel + 1);
    if required.None? then Deny(MaxLevelReached)
    else if activeReferrals < required.value then Deny(NotEnoughActiveReferrals)
    else Allow
  }

  /** The level can_level_up reports as new_level when it allows. */
  function NewLevel(currentLevel: int): int
  {
    currentLevel + 1
  }

  // ---------------------------------------------------------------------
  // Properties

  /** Promotion goes one step at a time, only from levels 0-3, and lands on a level 1-4. */
  lemma LevelsRiseOneStep(activeReferrals: int, currentLevel: int)
    requires CanLevelUp(activeReferrals, currentLevel) == Allow
    ensures 0 <= currentLevel <= 3
    ensures 1 <= NewLevel(currentLevel) <= 4 && NewLevel(currentLevel) == currentLevel + 1
  {
  }

  /** Level 4 is final whatever the activity. */
  lemma TopLevelIsFinal(activeReferrals: int, currentLevel: int)
    requires currentLevel >= 4
    ensures CanLevelUp(activeReferrals, currentLevel) == Deny(MaxLevelReached)
  {
  }

  /** Each level needs strictly more active referrals than the one before. */
  lemma RequirementsIncrease(level: int)
    requires 1 <= level < 4
    ensures LevelRequirement(level).value < LevelRequirement(level + 1).value
  {
  }

  /** The limit looks only at the sum so far: at 49 999 a 5 000 bonus still passes and ends the day above 50 000. */
  lemma DailyLimitIgnoresPendingBonus()
    ensures CheckDailyBonusLimit(49999.0) == Allow
    ensures 49999.0 + SignupBonus > MaxBonusPerDay
  {
  }
}
