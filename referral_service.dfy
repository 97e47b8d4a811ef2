/**
 * ReferralService: referral records, bonus records with their deposits,
 * and promotion of the inviter's referral level.
 */
module ReferralService {
  import opened Wrappers
  import opened RuleBase
  import opened UserModel
  import RR = ReferralRules
  import opened L = BalanceService

  /** A referral record: who invited whom, and when the referral joined. */
  datatype Referral = Referral(inviterId: int, referralId: int, joinedAt: int)

  /** A bonus record: whose, for which referral, how much and of which type ("signup" or "task"). */
  datatype Bonus = Bonus(inviterId: int, referralId: int, amount: real, kind: string)

  datatype ReferralFailure = Denied(reason: RR.Reason) | InviterNotFound

  datatype ReferralReply =
    | Registered(referralId: int)
    | Granted(amount: real)
    | LeveledUp(newLevel: int)
    | Failed(why: ReferralFailure)

  /** The referral records, the bonus records, and the ledger (whose profiles hold the referral levels). */
  datatype Referrals = Referrals(records: seq<Referral>, bonuses: seq<Bonus>, ledger: Ledger)

  datatype ReferralStep = ReferralStep(reply: ReferralReply, after: Referrals)

  /** count_by_inviter: the inviter's referral records. */
  function CountByInviter(records: seq<Referral>, inviterId: int): (n: nat)
    ensures n <= |records|
  {
    if records == [] then 0
    else (if records[0].inviterId == inviterId then 1 else 0) + CountByInviter(records[1..], inviterId)
  }

  lemma {:induction false} CountByInviterAppend(records: seq<Referral>, r: Referral, inviterId: int)
    ensures CountByInviter(records + [r], inviterId) ==
      CountByInviter(records, inviterId) + (if r.inviterId == inviterId then 1 else 0)
  {
    if records == [] {
      assert records + [r] == [r];
    } else {
      assert (records + [r])[1..] == records[1..] + [r];
      CountByInviterAppend(records[1..], r, inviterId);
    }
  }

  /** No inviter has more than 100 referral records. */
  ghost predicate WithinInviteLimit(s: Referrals)
  {
    forall u :: CountByInviter(s.records, u) <= RR.MaxReferralsPerUser
  }

  /** Every stored referral level is within 0-4. */
  predicate LevelsInRange(l: Ledger)
  {
    forall u :: u in l.users && l.users[u].profile.referralLevel.Some? ==>
      0 <= l.users[u].profile.referralLevel.value <= 4
  }

  /** register_referral: can_invite over the inviter's count, then one record joined now. */
  function RegisterStep(s: Referrals, inviterId: int, referralId: int, now: int): ReferralStep
  {
    var rule := RR.CanInvite(CountByInviter(s.records, inviterId));
    if rule.Deny? then ReferralStep(Failed(Denied(rule.reason)), s)
    else ReferralStep(Registered(referralId), s.(records := s.records + [Referral(inviterId, referralId, now)]))
  }

  /**
   * The shared tail of the two grants: the waiting-period rule, the daily
   * limit on today's sum, then a deposit whose reply is ignored and one
   * bonus record.
   */
  function GrantStep(s: Referrals, rule: Decision<RR.Reason>, inviterId: int, referralId: int,
                     amount: real, kind: string, todaySum: real, now: int): ReferralStep
  {
    if rule.Deny? then ReferralStep(Failed(Denied(rule.reason)), s)
    else
      var limit := RR.CheckDailyBonusLimit(todaySum);
      if limit.Deny? then ReferralStep(Failed(Denied(limit.reason)), s)
      else
        ReferralStep(Granted(amount),
          Referrals(s.records, s.bonuses + [Bonus(inviterId, referralId, amount, kind)],
                    DepositStep(s.ledger, inviterId, amount, None, now).after))
  }

  /** grant_signup_bonus: an hour after joining, under the daily limit; 5 000, type "signup". */
  function SignupBonusStep(s: Referrals, inviterId: int, referralId: int, joinedAt: int, todaySum: real, now: int): ReferralStep
  {
    GrantStep(s, RR.CanReceiveSignupBonus(joinedAt, now), inviterId, referralId, RR.SignupBonus, "signup", todaySum, now)
  }

  /** grant_task_bonus: 3 days after the first task, under the daily limit; 3 000, type "task". */
  function TaskBonusStep(s: Referrals, inviterId: int, referralId: int, firstTaskAt: int, todaySum: real, now: int): ReferralStep
  {
    GrantStep(s, RR.CanReceiveTaskBonus(firstTaskAt, now), inviterId, referralId, RR.TaskBonus, "task", todaySum, now)
  }

  /** check_level_up: the inviter must exist; a missing level reads as 0; on allow the level becomes current + 1. */
  function LevelUpStep(s: Referrals, inviterId: int, activeReferrals: int): ReferralStep
  {
    if inviterId !in s.ledger.users then ReferralStep(Failed(InviterNotFound), s)
    else
      var account := s.ledger.users[inviterId];
      var current := account.profile.referralLevel.UnwrapOr(0);
      var rule := RR.CanLevelUp(activeReferrals, current);
      if rule.Deny? then ReferralStep(Failed(Denied(rule.reason)), s)
      else
        var raised := account.(profile := account.profile.(referralLevel := Some(RR.NewLevel(current))));
        ReferralStep(LeveledUp(RR.NewLevel(current)), s.(ledger := s.ledger.(users := s.ledger.users[inviterId := raised])))
  }

  // ---------------------------------------------------------------------
  // Properties

  /** register_referral adds exactly one record when the inviter has fewer than 100, and nothing otherwise. */
  lemma RegisterOutcome(s: Referrals, inviterId: int, referralId: int, now: int)
    ensures var st := RegisterStep(s, inviterId, referralId, now);
      && (st.reply.Registered? <==> CountByInviter(s.records, inviterId) < RR.MaxReferralsPerUser)
      && (!st.reply.Registered? ==> st.after == s)
      && (st.reply.Registered? ==>
            st.after == s.(records := s.records + [Referral(inviterId, referralId, now)]))
  {
  }

  /** Registration never takes an inviter past 100 referrals. */
  lemma RegisterKeepsInviteLimit(s: Referrals, inviterId: int, referralId: int, now: int)
    requires WithinInviteLimit(s)
    ensures WithinInviteLimit(RegisterStep(s, inviterId, referralId, now).after)
  {
    var a := RegisterStep(s, inviterId, referralId, now).after;
    if a != s {
      forall u ensures CountByInviter(a.records, u) <= RR.MaxReferralsPerUser {
        CountByInviterAppend(s.records, Referral(inviterId, referralId, now), u);
      }
    }
  }

  /** A granted signup bonus credits the inviter exactly the 5 000 it records. */
  lemma SignupBonusCreditsRecord(s: Referrals, inviterId: int, referralId: int, joinedAt: int, todaySum: real, now: int)
    requires inviterId in s.ledger.users
    ensures var st := SignupBonusStep(s, inviterId, referralId, joinedAt, todaySum, now);
      && (st.reply.Granted? <==> now - joinedAt >= Hour && todaySum < RR.MaxBonusPerDay)
      && (!st.reply.Granted? ==> st.after == s)
      && (st.reply.Granted? ==>
            && st.after.bonuses == s.bonuses + [Bonus(inviterId, referralId, RR.SignupBonus, "signup")]
            && st.after.ledger.users[inviterId].balance == s.ledger.users[inviterId].balance + RR.SignupBonus)
  {
  }

  /**
   * As written: the 3 000 task bonus is below the 5 000 deposit minimum, so
   * every granted task bonus writes its record and credits nothing.
   */
  lemma TaskBonusRecordedNotCredited(s: Referrals, inviterId: int, referralId: int, firstTaskAt: int, todaySum: real, now: int)
    ensures var st := TaskBonusStep(s, inviterId, referralId, firstTaskAt, todaySum, now);
      && (st.reply.Granted? <==> now - firstTaskAt >= RR.MinReferralActivityDays * Day && todaySum < RR.MaxBonusPerDay)
      && (st.reply.Granted? ==>
            && st.after.bonuses == s.bonuses + [Bonus(inviterId, referralId, RR.TaskBonus, "task")]
            && st.after.ledger == s.ledger)
  {
  }

  /** The task bonus as evidently intended: paid out like any other bonus, whatever the deposit minimum. */
  function TaskBonusPaidStep(s: Referrals, inviterId: int, referralId: int, firstTaskAt: int, todaySum: real, now: int): ReferralStep
  {
    var st := TaskBonusStep(s, inviterId, referralId, firstTaskAt, todaySum, now);
    if st.reply.Granted? then st.(after := st.after.(ledger := PayoutStep(s.ledger, inviterId, RR.TaskBonus, now).after))
    else st
  }

  /** With the corrected grant, the task bonus credits the inviter exactly the 3 000 it records, and keeps the books. */
  lemma PaidTaskBonusCreditsRecord(s: Referrals, inviterId: int, referralId: int, firstTaskAt: int, todaySum: real, now: int)
    requires inviterId in s.ledger.users
    ensures var st := TaskBonusPaidStep(s, inviterId, referralId, firstTaskAt, todaySum, now);
      && Books(s.ledger, st.after.ledger)
      && (st.reply.Granted? ==>
            && st.after.bonuses == s.bonuses + [Bonus(inviterId, referralId, RR.TaskBonus, "task")]
            && st.after.ledger.users[inviterId].balance == s.ledger.users[inviterId].balance + RR.TaskBonus)
  {
    PayoutKeepsBooks(s.ledger, inviterId, RR.TaskBonus, now);
    BooksOfNothing(s.ledger);
  }

  /** check_level_up raises the inviter one level, touches nothing else, and keeps every level within 0-4. */
  lemma LevelUpOutcome(s: Referrals, inviterId: int, activeReferrals: int)
    requires LevelsInRange(s.ledger)
    ensures var st := LevelUpStep(s, inviterId, activeReferrals);
      && LevelsInRange(st.after.ledger)
      && st.after.records == s.records && st.after.bonuses == s.bonuses && st.after.ledger.rows == s.ledger.rows
      && st.after.ledger.users.Keys == s.ledger.users.Keys
      && (forall u :: u in s.ledger.users && u != inviterId ==> st.after.ledger.users[u] == s.ledger.users[u])
      && (st.reply.LeveledUp? ==>
            && st.after.ledger.users[inviterId].balance == s.ledger.users[inviterId].balance
            && st.reply.newLevel == s.ledger.users[inviterId].profile.referralLevel.UnwrapOr(0) + 1
            && st.after.ledger.users[inviterId].profile.referralLevel == Some(st.reply.newLevel))
      && (!st.reply.LeveledUp? ==> st.after == s)
  {
    var st := LevelUpStep(s, inviterId, activeReferrals);
    if st.reply.LeveledUp? {
      RR.LevelsRiseOneStep(activeReferrals, s.ledger.users[inviterId].profile.referralLevel.UnwrapOr(0));
    }
  }

  // ---------------------------------------------------------------------
  // The service

  class ReferralService {
    const ledger: L.BalanceService
    var records: seq<Referral>
    var bonuses: seq<Bonus>

    function Model(): Referrals
      reads this, ledger
    {
      Referrals(records, bonuses, ledger.Model())
    }

    constructor (ledger: L.BalanceService)
      ensures this.ledger == ledger && Model() == Referrals([], [], ledger.Model())
    {
      this.ledger := ledger;
      records := [];
      bonuses := [];
    }

    method RegisterReferral(inviterId: int, referralId: int, now: int) returns (r: ReferralReply)
      modifies this
      ensures ReferralStep(r, Model()) == RegisterStep(old(Model()), inviterId, referralId, now)
    {
      var total := CountByInviter(records, inviterId);
      var rule := RR.CanInvite(total);
      if rule.Deny? {
        return Failed(Denied(rule.reason));
      }
      records := records + [Referral(inviterId, referralId, now)];
      return Registered(referralId);
    }

    method Grant(rule: Decision<RR.Reason>, inviterId: int, referralId: int, amount: real, kind: string, todaySum: real, now: int)
      returns (r: ReferralReply)
      modifies this, ledger
      ensures ReferralStep(r, Model()) == GrantStep(old(Model()), rule, inviterId, referralId, amount, kind, todaySum, now)
    {
      if rule.Deny? {
        return Failed(Denied(rule.reason));
      }
      var limit := RR.CheckDailyBonusLimit(todaySum);
      if limit.Deny? {
        return Failed(Denied(limit.reason));
      }
      var _ := ledger.Deposit(inviterId, amount, None, now);
      bonuses := bonuses + [Bonus(inviterId, referralId, amount, kind)];
      return Granted(amount);
    }

    method GrantSignupBonus(inviterId: int, referralId: int, joinedAt: int, todaySum: real, now: int) returns (r: ReferralReply)
      modifies this, ledger
      ensures ReferralStep(r, Model()) == SignupBonusStep(old(Model()), inviterId, referralId, joinedAt, todaySum, now)
    {
      r := Grant(RR.CanReceiveSignupBonus(joinedAt, now), inviterId, referralId, RR.SignupBonus, "signup", todaySum, now);
    }

    method GrantTaskBonus(inviterId: int, referralId: int, firstTaskAt: int, todaySum: real, now: int) returns (r: ReferralReply)
      modifies this, ledger
      ensures ReferralStep(r, Model()) == TaskBonusStep(old(Model()), inviterId, referralId, firstTaskAt, todaySum, now)
    {
      r := Grant(RR.CanReceiveTaskBonus(firstTaskAt, now), inviterId, referralId, RR.TaskBonus, "task", todaySum, now);
    }

    method CheckLevelUp(inviterId: int, activeReferrals: int) returns (r: ReferralReply)
      modifies ledger
      ensures ReferralStep(r, Model()) == LevelUpStep(old(Model()), inviterId, activeReferrals)
    {
      if inviterId !in ledger.users {
        return Failed(InviterNotFound);
      }
      var account := ledger.users[inviterId];
      var current := account.profile.referralLevel.UnwrapOr(0);
      var rule := RR.CanLevelUp(activeReferrals, current);
      if rule.Deny? {
        return Failed(Denied(rule.reason));
      }
      ledger.users := ledger.users[inviterId := account.(profile := account.profile.(referralLevel := Some(RR.NewLevel(current))))];
      return LeveledUp(RR.NewLevel(current));
    }
  }
}
