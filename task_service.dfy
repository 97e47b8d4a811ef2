/**
 * TaskService: tasks move open -> in_progress -> review -> approved |
 * rejected; creation takes the reward from the creator, approval pays it to
 * the performer and rejection returns it to the creator, all through the
 * ledger's operations.
 */
module TaskService {
  import opened Wrappers
  import opened RuleBase
  import opened UserModel
  import TR = TaskRules
  import opened L = BalanceService

  /** A task as the service reads and writes it. */
  datatype Task = Task(
    creatorId: int,
    title: string,
    description: string,
    reward: real,
    deadline: int,
    status: string,
    performerId: Option<int>,
    rejectReason: Option<string>)

  datatype TaskFailure =
    | CreatorNotFound
    | Denied(reason: TR.Reason)
    | InsufficientBalance
    | UserOrTaskNotFound
    | NotOpen
    | WrongPerformer
    | TaskNotFound
    | WithdrawRefused(why: Refusal)

  datatype TaskReply =
    | TaskCreated(taskId: int)
    | StatusIs(status: string)
    | Failed(why: TaskFailure)
    | Raised(error: RuleError)

  /** The task table, the next id it hands out, and the ledger. */
  datatype Tasks = Tasks(table: map<int, Task>, nextId: int, ledger: Ledger)

  datatype TaskStep = TaskStep(reply: TaskReply, after: Tasks)

  predicate Fresh(s: Tasks)
  {
    forall id :: id in s.table ==> id < s.nextId
  }

  /** A task has a performer exactly when it has left "open". */
  predicate Assigned(s: Tasks)
  {
    forall id :: id in s.table ==> (s.table[id].status == "open" <==> s.table[id].performerId.None?)
  }

  /** The lifecycle's edges. */
  predicate Next(a: string, b: string)
  {
    || (a == "open" && b == "in_progress")
    || (a == "in_progress" && b == "review")
    || (a == "review" && (b == "approved" || b == "rejected"))
  }

  /** s2 keeps every task of s, each either at its status or one edge further; new tasks are open. */
  predicate Advances(s: Tasks, s2: Tasks)
  {
    && s.table.Keys <= s2.table.Keys
    && (forall id :: id in s.table ==> s2.table[id].status == s.table[id].status || Next(s.table[id].status, s2.table[id].status))
    && (forall id :: id in s2.table && id !in s.table ==> s2.table[id].status == "open")
  }

  /** The rows the task table is initially empty of; a fresh service starts here. */
  function Start(ledger: Ledger): (s: Tasks)
    ensures Fresh(s) && Assigned(s)
  {
    Tasks(map[], 1, ledger)
  }

  /**
   * create_task: creator lookup, can_create_task, balance >= reward, then
   * withdraw whose reply is ignored, then an "open" task whose deadline
   * defaults to now + 3 days.
   */
  function CreateStep(s: Tasks, creatorId: int, title: string, description: string, reward: real,
                      deadline: Option<int>, activeTasks: int, now: int): TaskStep
  {
    if creatorId !in s.ledger.users then TaskStep(Failed(CreatorNotFound), s)
    else
      var rule := TR.CanCreateTask(s.ledger.users[creatorId].profile, reward, activeTasks);
      if rule.Deny? then TaskStep(Failed(Denied(rule.reason)), s)
      else if s.ledger.users[creatorId].balance < reward then TaskStep(Failed(InsufficientBalance), s)
      else
        var ledger := WithdrawStep(s.ledger, creatorId, reward, now).after;
        var task := Task(creatorId, title, description, reward, deadline.UnwrapOr(now + TR.DefaultTaskDuration), "open", None, None);
        TaskStep(TaskCreated(s.nextId), Tasks(s.table[s.nextId := task], s.nextId + 1, ledger))
  }

  /** accept_task: both exist, status "open", then can_accept_task (which raises for a missing rating). */
  function AcceptStep(s: Tasks, performerId: int, taskId: int, activeTasks: int): TaskStep
  {
    if performerId !in s.ledger.users || taskId !in s.table then TaskStep(Failed(UserOrTaskNotFound), s)
    else if s.table[taskId].status != "open" then TaskStep(Failed(NotOpen), s)
    else
      match TR.CanAcceptTask(s.ledger.users[performerId].profile, activeTasks)
      case Failure(e) => TaskStep(Raised(e), s)
      case Success(Deny(r)) => TaskStep(Failed(Denied(r)), s)
      case Success(Allow) =>
        var t := s.table[taskId].(performerId := Some(performerId), status := "in_progress");
        TaskStep(StatusIs("in_progress"), s.(table := s.table[taskId := t]))
  }

  /** complete_task: only the task's performer, and only while can_complete_task allows. */
  function CompleteStep(s: Tasks, performerId: int, taskId: int, now: int): TaskStep
  {
    if taskId !in s.table || s.table[taskId].performerId != Some(performerId) then TaskStep(Failed(WrongPerformer), s)
    else
      var rule := TR.CanCompleteTask(s.table[taskId].status, s.table[taskId].deadline, now);
      if rule.Deny? then TaskStep(Failed(Denied(rule.reason)), s)
      else TaskStep(StatusIs("review"), s.(table := s.table[taskId := s.table[taskId].(status := "review")]))
  }

  /** The ledger after deposit(user, amount) where the user may be None (a None id is never found). */
  function DepositTo(l: Ledger, uid: Option<int>, amount: real, now: int): Ledger
  {
    if uid.None? then l else DepositStep(l, uid.value, amount, None, now).after
  }

  /** approve_task: can_approve_task, "approved", then deposit of the reward to the performer (reply ignored). */
  function ApproveStep(s: Tasks, taskId: int, role: string, now: int): TaskStep
  {
    if taskId !in s.table then TaskStep(Failed(TaskNotFound), s)
    else
      var t := s.table[taskId];
      var rule := TR.CanApproveTask(role, t.status);
      if rule.Deny? then TaskStep(Failed(Denied(rule.reason)), s)
      else
        TaskStep(StatusIs("approved"),
          Tasks(s.table[taskId := t.(status := "approved")], s.nextId, DepositTo(s.ledger, t.performerId, t.reward, now)))
  }

  /** reject_task: can_approve_task, "rejected" with the reason, then deposit of the reward back to the creator. */
  function RejectStep(s: Tasks, taskId: int, role: string, reason: string, now: int): TaskStep
  {
    if taskId !in s.table then TaskStep(Failed(TaskNotFound), s)
    else
      var t := s.table[taskId];
      var rule := TR.CanApproveTask(role, t.status);
      if rule.Deny? then TaskStep(Failed(Denied(rule.reason)), s)
      else
        TaskStep(StatusIs("rejected"),
          Tasks(s.table[taskId := t.(status := "rejected", rejectReason := Some(reason))], s.nextId,
                DepositStep(s.ledger, t.creatorId, t.reward, None, now).after))
  }

  // ---------------------------------------------------------------------
  // Properties

  /** create_task refuses with no change, or adds one open task under a fresh id and passes the reward to withdraw. */
  lemma CreateOutcome(s: Tasks, creatorId: int, title: string, description: string, reward: real,
                      deadline: Option<int>, activeTasks: int, now: int)
    requires Fresh(s)
    ensures var st := CreateStep(s, creatorId, title, description, reward, deadline, activeTasks, now);
      && Fresh(st.after)
      && (st.reply.TaskCreated? <==>
            && creatorId in s.ledger.users
            && TR.CanCreateTask(s.ledger.users[creatorId].profile, reward, activeTasks) == Allow
            && s.ledger.users[creatorId].balance >= reward)
      && (!st.reply.TaskCreated? ==> st.after == s)
      && (st.reply.TaskCreated? ==>
            && st.reply.taskId !in s.table
            && st.after.table == s.table[st.reply.taskId := Task(creatorId, title, description, reward,
                                   deadline.UnwrapOr(now + TR.DefaultTaskDuration), "open", None, None)]
            && st.after.ledger == WithdrawStep(s.ledger, creatorId, reward, now).after)
  {
  }

  /** Every operation moves each task at most one edge along the lifecycle and keeps performers assigned exactly off "open". */
  lemma CreateFollowsLifecycle(s: Tasks, uid: int, title: string, description: string, reward: real,
                               deadline: Option<int>, active: int, now: int)
    requires Fresh(s) && Assigned(s)
    ensures var a := CreateStep(s, uid, title, description, reward, deadline, active, now).after;
      Advances(s, a) && Assigned(a)
  {
  }

  lemma AcceptFollowsLifecycle(s: Tasks, uid: int, taskId: int, active: int)
    requires Assigned(s)
    ensures var a := AcceptStep(s, uid, taskId, active).after; Advances(s, a) && Assigned(a)
  {
  }

  lemma CompleteFollowsLifecycle(s: Tasks, uid: int, taskId: int, now: int)
    requires Assigned(s)
    ensures var a := CompleteStep(s, uid, taskId, now).after; Advances(s, a) && Assigned(a)
  {
  }

  lemma ApproveFollowsLifecycle(s: Tasks, taskId: int, role: string, now: int)
    requires Assigned(s)
    ensures var a := ApproveStep(s, taskId, role, now).after; Advances(s, a) && Assigned(a)
  {
  }

  lemma RejectFollowsLifecycle(s: Tasks, taskId: int, role: string, reason: string, now: int)
    requires Assigned(s)
    ensures var a := RejectStep(s, taskId, role, reason, now).after; Advances(s, a) && Assigned(a)
  {
  }

  /** "approved" and "rejected" are final: no edge leaves them. */
  lemma SettledIsFinal(a: string, b: string)
    requires a == "approved" || a == "rejected"
    ensures !Next(a, b)
  {
  }

  /** Accepting and completing move no money. */
  lemma AcceptAndCompleteMoveNoMoney(s: Tasks, uid: int, taskId: int, active: int, now: int)
    ensures AcceptStep(s, uid, taskId, active).after.ledger == s.ledger
    ensures CompleteStep(s, uid, taskId, now).after.ledger == s.ledger
  {
  }

  /** An approval deposits the reward to the performer, who exists as an id once the task has left "open". */
  lemma ApprovePaysPerformer(s: Tasks, taskId: int, role: string, now: int)
    requires Assigned(s)
    requires ApproveStep(s, taskId, role, now).reply == StatusIs("approved")
    ensures s.table[taskId].performerId.Some?
    ensures ApproveStep(s, taskId, role, now).after.ledger ==
      DepositStep(s.ledger, s.table[taskId].performerId.value, s.table[taskId].reward, None, now).after
  {
  }

  /** Once approved or rejected, a task can be neither approved nor rejected again: it is settled once. */
  lemma SettledOnce(s: Tasks, taskId: int, r1: string, r2: string, reason: string, t1: int, t2: int)
    requires ApproveStep(s, taskId, r1, t1).reply.StatusIs? || RejectStep(s, taskId, r1, reason, t1).reply.StatusIs?
    ensures var a := ApproveStep(s, taskId, r1, t1).after;
      ApproveStep(a, taskId, r2, t2).after == a && RejectStep(a, taskId, r2, reason, t2).after == a
    ensures var a := RejectStep(s, taskId, r1, reason, t1).after;
      ApproveStep(a, taskId, r2, t2).after == a && RejectStep(a, taskId, r2, reason, t2).after == a
  {
  }

  /**
   * As written: creation ignores withdraw's reply. A verified creator with
   * 5 000 can fund a 5 000 task; withdraw refuses it (below the 10 000
   * withdrawal minimum), yet the task is created and no money moves.
   */
  lemma CreateIgnoresRefusedWithdraw(p: Profile)
    requires p.isVerified
    ensures var l := Ledger(map[1 := Account(5000.0, p)], []);
      var st := CreateStep(Start(l), 1, "t", "d", 5000.0, None, 0, 0);
      && WithdrawStep(l, 1, 5000.0, 0).reply == Refused(RuleDenied(BalanceRules.BelowMinWithdraw))
      && st.reply == TaskCreated(1)
      && st.after.ledger == l
  {
  }

  /**
   * As written: approval pays through deposit, whose 5 000 minimum is above
   * the 2 000 minimum reward, so an approved task with a smaller reward pays
   * the performer nothing.
   */
  lemma SmallRewardNeverPaid(s: Tasks, taskId: int, role: string, now: int)
    requires taskId in s.table && s.table[taskId].reward < BalanceRules.MinDeposit
    ensures ApproveStep(s, taskId, role, now).after.ledger == s.ledger
    ensures RejectStep(s, taskId, role, "r", now).after.ledger == s.ledger
  {
  }

  /** Creation as evidently intended: a refused withdraw refuses the task. */
  function CreateFundedStep(s: Tasks, creatorId: int, title: string, description: string, reward: real,
                            deadline: Option<int>, activeTasks: int, now: int): TaskStep
  {
    var st := CreateStep(s, creatorId, title, description, reward, deadline, activeTasks, now);
    if st.reply.TaskCreated? && WithdrawStep(s.ledger, creatorId, reward, now).reply.Refused? then
      TaskStep(Failed(WithdrawRefused(WithdrawStep(s.ledger, creatorId, reward, now).reply.why)), s)
    else st
  }

  /** Settlement as evidently intended: the reward is paid out whatever its size. */
  function ApprovePaidStep(s: Tasks, taskId: int, role: string, now: int): TaskStep
  {
    var st := ApproveStep(s, taskId, role, now);
    if st.reply.StatusIs? then
      st.(after := st.after.(ledger := PayoutStep(s.ledger, s.table[taskId].performerId.UnwrapOr(-1), s.table[taskId].reward, now).after))
    else st
  }

  function RejectPaidStep(s: Tasks, taskId: int, role: string, reason: string, now: int): TaskStep
  {
    var st := RejectStep(s, taskId, role, reason, now);
    if st.reply.StatusIs? then
      st.(after := st.after.(ledger := PayoutStep(s.ledger, s.table[taskId].creatorId, s.table[taskId].reward, now).after))
    else st
  }

  /** With the corrected creation, a created task has taken exactly its reward from the creator. */
  lemma FundedTaskTakesReward(s: Tasks, creatorId: int, title: string, description: string, reward: real,
                              deadline: Option<int>, activeTasks: int, now: int)
    ensures var st := CreateFundedStep(s, creatorId, title, description, reward, deadline, activeTasks, now);
      st.reply.TaskCreated? ==>
        && creatorId in st.after.ledger.users
        && st.after.ledger.users[creatorId].balance == s.ledger.users[creatorId].balance - reward
        && st.after.ledger.users[creatorId].balance >= 0.0
    ensures var st := CreateFundedStep(s, creatorId, title, description, reward, deadline, activeTasks, now);
      !st.reply.TaskCreated? ==> st.after == s
  {
    WithdrawOutcome(s.ledger, creatorId, reward, now);
  }

  /**
   * With the corrected settlement, a task that is settled pays out exactly
   * its reward: to the performer on approval, back to the creator on
   * rejection; so a task funded, rejected and refunded leaves the creator
   * where they started.
   */
  lemma SettlementPaysReward(s: Tasks, taskId: int, role: string, reason: string, now: int)
    requires Assigned(s) && taskId in s.table
    requires s.table[taskId].performerId.Some? ==> s.table[taskId].performerId.value in s.ledger.users
    requires s.table[taskId].creatorId in s.ledger.users
    ensures var t := s.table[taskId]; var st := ApprovePaidStep(s, taskId, role, now);
      st.reply.StatusIs? ==>
        st.after.ledger.users[t.performerId.value].balance == s.ledger.users[t.performerId.value].balance + t.reward
    ensures var t := s.table[taskId]; var st := RejectPaidStep(s, taskId, role, reason, now);
      st.reply.StatusIs? ==>
        st.after.ledger.users[t.creatorId].balance == s.ledger.users[t.creatorId].balance + t.reward
  {
  }

  // ---------------------------------------------------------------------
  // The service

  class TaskService {
    const ledger: L.BalanceService
    var table: map<int, Task>
    var nextId: int

    function Model(): Tasks
      reads this, ledger
    {
      Tasks(table, nextId, ledger.Model())
    }

    constructor (ledger: L.BalanceService)
      ensures this.ledger == ledger && Model() == Start(ledger.Model())
    {
      this.ledger := ledger;
      table := map[];
      nextId := 1;
    }

    method CreateTask(creatorId: int, title: string, description: string, reward: real,
                      deadline: Option<int>, activeTasks: int, now: int) returns (r: TaskReply)
      modifies this, ledger
      ensures TaskStep(r, Model()) == CreateStep(old(Model()), creatorId, title, description, reward, deadline, activeTasks, now)
    {
      if creatorId !in ledger.users {
        return Failed(CreatorNotFound);
      }
      var rule := TR.CanCreateTask(ledger.users[creatorId].profile, reward, activeTasks);
      if rule.Deny? {
        return Failed(Denied(rule.reason));
      }
      var balance := ledger.GetBalance(creatorId);
      if balance.None? || balance.value < reward {
        return Failed(InsufficientBalance);
      }
      var _ := ledger.Withdraw(creatorId, reward, now);
      var id := nextId;
      table := table[id := Task(creatorId, title, description, reward, deadline.UnwrapOr(now + TR.DefaultTaskDuration), "open", None, None)];
      nextId := nextId + 1;
      return TaskCreated(id);
    }

    method AcceptTask(performerId: int, taskId: int, activeTasks: int) returns (r: TaskReply)
      modifies this
      ensures TaskStep(r, Model()) == AcceptStep(old(Model()), performerId, taskId, activeTasks)
    {
      if performerId !in ledger.users || taskId !in table {
        return Failed(UserOrTaskNotFound);
      }
      if table[taskId].status != "open" {
        return Failed(NotOpen);
      }
      var rule := TR.CanAcceptTask(ledger.users[performerId].profile, activeTasks);
      if rule.Failure? {
        return Raised(rule.error);
      }
      if rule.value.Deny? {
        return Failed(Denied(rule.value.reason));
      }
      table := table[taskId := table[taskId].(performerId := Some(performerId), status := "in_progress")];
      return StatusIs("in_progress");
    }

    method CompleteTask(performerId: int, taskId: int, now: int) returns (r: TaskReply)
      modifies this
      ensures TaskStep(r, Model()) == CompleteStep(old(Model()), performerId, taskId, now)
    {
      if taskId !in table || table[taskId].performerId != Some(performerId) {
        return Failed(WrongPerformer);
      }
      var rule := TR.CanCompleteTask(table[taskId].status, table[taskId].deadline, now);
      if rule.Deny? {
        return Failed(Denied(rule.reason));
      }
      table := table[taskId := table[taskId].(status := "review")];
      return StatusIs("review");
    }

    method ApproveTask(taskId: int, role: string, now: int) returns (r: TaskReply)
      modifies this, ledger
      ensures TaskStep(r, Model()) == ApproveStep(old(Model()), taskId, role, now)
    {
      if taskId !in table {
        return Failed(TaskNotFound);
      }
      var t := table[taskId];
      var rule := TR.CanApproveTask(role, t.status);
      if rule.Deny? {
        return Failed(Denied(rule.reason));
      }
      table := table[taskId := t.(status := "approved")];
      if t.performerId.Some? {
        var _ := ledger.Deposit(t.performerId.value, t.reward, None, now);
      }
      return StatusIs("approved");
    }

    method RejectTask(taskId: int, role: string, reason: string, now: int) returns (r: TaskReply)
      modifies this, ledger
      ensures TaskStep(r, Model()) == RejectStep(old(Model()), taskId, role, reason, now)
    {
      if taskId !in table {
        return Failed(TaskNotFound);
      }
      var t := table[taskId];
      var rule := TR.CanApproveTask(role, t.status);
      if rule.Deny? {
        return Failed(Denied(rule.reason));
      }
      table := table[taskId := t.(status := "rejected", rejectReason := Some(reason))];
      var _ := ledger.Deposit(t.creatorId, t.reward, None, now);
      return StatusIs("rejected");
    }
  }
}
