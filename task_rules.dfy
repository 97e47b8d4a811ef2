/**
 * TaskRules: who may create, accept, complete and approve a task, and the
 * bounds on its reward and deadline.
 */
module TaskRules {
  import opened Wrappers
  import opened RuleBase
  import opened UserModel

  const MinTaskReward: real := 2000.0
  const MaxTaskReward: real := 1000000.0
  const MaxActiveTasksPerUser := 5
  const DefaultTaskDuration := 3 * Day
  const MaxTaskDuration := 14 * Day
  const ReviewPeriod := 2 * Day
  const MinRatingToAccept: real := 2.0

  datatype Reason =
    | NotVerified | RewardTooLow | RewardTooHigh | TooManyActiveTasks
    | RatingTooLow
    | DeadlineInPast | DeadlineTooFar
    | WrongStatusToComplete | ReviewPeriodOver
    | NotReviewer | NotInReview

  /** can_create_task: verified, reward in [2 000, 1 000 000], fewer than 5 active tasks, in that order. */
  function CanCreateTask(creator: Profile, reward: real, activeTasks: int): (d: Decision<Reason>)
    ensures d == Allow <==>
      creator.isVerified && MinTaskReward <= reward <= MaxTaskReward && activeTasks < MaxActiveTasksPerUser
    ensures !creator.isVerified ==> d == Deny(NotVerified)
  {
    if !creator.isVerified then Deny(NotVerified)
    else if reward < MinTaskReward then Deny(RewardTooLow)
    else if reward > MaxTaskReward then Deny(RewardTooHigh)
    else if activeTasks >= MaxActiveTasksPerUser then Deny(TooManyActiveTasks)
    else Allow
  }

  /**
   * can_accept_task: verified, fewer than 5 active tasks, rating at least
   * 2.0. A None rating reaches `None < 2.0`, which raises TypeError.
   */
  function CanAcceptTask(user: Profile, activeTasks: int): (r: Result<Decision<Reason>, RuleError>)
    ensures r == Success(Allow) <==>
      user.isVerified && activeTasks < MaxActiveTasksPerUser && user.rating.Some? && user.rating.value >= MinRatingToAccept
    ensures r.Failure? <==> user.isVerified && activeTasks < MaxActiveTasksPerUser && user.rating.None?
  {
    if !user.isVerified then Success(Deny(NotVerified))
    else if activeTasks >= MaxActiveTasksPerUser then Success(Deny(TooManyActiveTasks))
    else if user.rating.None? then Failure(TypeError)
    else if user.rating.value < MinRatingToAccept then Success(Deny(RatingTooLow))
    else Success(Allow)
  }

  /** validate_deadline: not in the past and at most 14 days ahead. */
  function ValidateDeadline(deadline: int, now: int): (d: Decision<Reason>)
    ensures d == Allow <==> now <= deadline <= now + MaxTaskDuration
  {
    if deadline < now then Deny(DeadlineInPast)
    else if deadline - now > MaxTaskDuration then Deny(DeadlineTooFar)
    else Allow
  }

  /** can_complete_task: status in_progress or review, and no later than 2 days past the deadline. */
  function CanCompleteTask(status: string, deadline: int, now: int): (d: Decision<Reason>)
    ensures d == Allow <==> (status == "in_progress" || status == "review") && now <= deadline + ReviewPeriod
  {
    if status != "in_progress" && status != "review" then Deny(WrongStatusToComplete)
    else if now > deadline + ReviewPeriod then Deny(ReviewPeriodOver)
    else Allow
  }

  /** validate_reward: exactly [2 000, 1 000 000]. */
  function ValidateReward(reward: real): (d: Decision<Reason>)
    ensures d == Allow <==> MinTaskReward <= reward <= MaxTaskReward
  {
    if reward < MinTaskReward then Deny(RewardTooLow)
    else if reward > MaxTaskReward then Deny(RewardTooHigh)
    else Allow
  }

  /** can_approve_task: an admin or moderator, and the task in review. */
  function CanApproveTask(role: string, status: string): (d: Decision<Reason>)
    ensures d == Allow <==> (role == "admin" || role == "moderator") && status == "review"
  {
    if role != "admin" && role != "moderator" then Deny(NotReviewer)
    else if status != "review" then Deny(NotInReview)
    else Allow
  }

  // ---------------------------------------------------------------------
  // Properties

  /** For a verified creator below the task limit, creation is gated by exactly validate_reward. */
  lemma CreateAgreesWithValidateReward(creator: Profile, reward: real, activeTasks: int)
    requires creator.isVerified && activeTasks < MaxActiveTasksPerUser
    ensures CanCreateTask(creator, reward, activeTasks) == ValidateReward(reward)
  {
  }

  /** The default 3-day deadline is a valid one. */
  lemma DefaultDeadlineValid(now: int)
    ensures ValidateDeadline(now + DefaultTaskDuration, now) == Allow
  {
  }
}
