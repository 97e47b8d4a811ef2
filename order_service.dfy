/**
 * OrderService: orders move open -> in_progress -> completed, or to
 * cancelled from any status that is not closed; creation takes the price
 * from the client and completion pays the performer the price net of the
 * platform fee, through the ledger's operations.
 */
module OrderService {
  import opened Wrappers
  import opened RuleBase
  import opened UserModel
  import OR = OrderRules
  import opened L = BalanceService

  /** An order as the service reads and writes it. */
  datatype Order = Order(
    clientId: int,
    title: string,
    description: string,
    price: real,
    deadline: int,
    status: string,
    performerId: Option<int>)

  datatype OrderFailure =
    | ClientNotFound
    | Denied(reason: OR.Reason)
    | InsufficientBalance
    | PerformerOrOrderNotFound
    | NotOpen
    | OrderNotFound
    | WithdrawRefused(why: Refusal)

  datatype OrderReply =
    | OrderCreated(orderId: int)
    | StatusIs(status: string)
    | Failed(why: OrderFailure)
    | Raised(error: RuleError)

  /** The order table, the next id it hands out, and the ledger. */
  datatype Orders = Orders(table: map<int, Order>, nextId: int, ledger: Ledger)

  datatype OrderStep = OrderStep(reply: OrderReply, after: Orders)

  predicate Fresh(s: Orders)
  {
    forall id :: id in s.table ==> id < s.nextId
  }

  /**
   * Only the four statuses the service writes occur; an open order has no
   * performer, and one in progress or completed has one.
   */
  predicate Consistent(s: Orders)
  {
    forall id :: id in s.table ==>
      && s.table[id].status in {"open", "in_progress", "completed", "cancelled"}
      && (s.table[id].status == "open" ==> s.table[id].performerId.None?)
      && (s.table[id].status in {"in_progress", "completed"} ==> s.table[id].performerId.Some?)
  }

  /** The lifecycle's edges. */
  predicate Next(a: string, b: string)
  {
    || (a == "open" && (b == "in_progress" || b == "cancelled"))
    || (a == "in_progress" && (b == "completed" || b == "cancelled"))
  }

  /** s2 keeps every order of s, each either at its status or one edge further; new orders are open. */
  predicate Advances(s: Orders, s2: Orders)
  {
    && s.table.Keys <= s2.table.Keys
    && (forall id :: id in s.table ==> s2.table[id].status == s.table[id].status || Next(s.table[id].status, s2.table[id].status))
    && (forall id :: id in s2.table && id !in s.table ==> s2.table[id].status == "open")
  }

  function Start(ledger: Ledger): (s: Orders)
    ensures Fresh(s) && Consistent(s)
  {
    Orders(map[], 1, ledger)
  }

  /**
   * create_order: client lookup, can_create_order, balance >= price, then
   * withdraw whose reply is ignored, then an "open" order whose deadline
   * defaults to now + 7 days.
   */
  function CreateStep(s: Orders, clientId: int, title: string, description: string, price: real,
                      deadline: Option<int>, activeOrders: int, now: int): OrderStep
  {
    if clientId !in s.ledger.users then OrderStep(Failed(ClientNotFound), s)
    else
      var rule := OR.CanCreateOrder(s.ledger.users[clientId].profile, price, activeOrders);
      if rule.Deny? then OrderStep(Failed(Denied(rule.reason)), s)
      else if s.ledger.users[clientId].balance < price then OrderStep(Failed(InsufficientBalance), s)
      else
        var ledger := WithdrawStep(s.ledger, clientId, price, now).after;
        var order := Order(clientId, title, description, price, deadline.UnwrapOr(now + OR.DefaultOrderDuration), "open", None);
        OrderStep(OrderCreated(s.nextId), Orders(s.table[s.nextId := order], s.nextId + 1, ledger))
  }

  /** accept_order: both exist, status "open", then can_accept_order (which raises for a missing rating). */
  function AcceptStep(s: Orders, performerId: int, orderId: int, activeOrders: int): OrderStep
  {
    if performerId !in s.ledger.users || orderId !in s.table then OrderStep(Failed(PerformerOrOrderNotFound), s)
    else if s.table[orderId].status != "open" then OrderStep(Failed(NotOpen), s)
    else
      match OR.CanAcceptOrder(s.ledger.users[performerId].profile, activeOrders)
      case Failure(e) => OrderStep(Raised(e), s)
      case Success(Deny(r)) => OrderStep(Failed(Denied(r)), s)
      case Success(Allow) =>
        var o := s.table[orderId].(performerId := Some(performerId), status := "in_progress");
        OrderStep(StatusIs("in_progress"), s.(table := s.table[orderId := o]))
  }

  /** A performer id Python treats as present: set and not 0. */
  predicate Paid(performerId: Option<int>)
  {
    performerId.Some? && performerId.value != 0
  }

  /**
   * complete_order: can_complete_order, "completed", then a deposit of the
   * price net of the fee, only when the performer id is truthy (reply ignored).
   */
  function CompleteStep(s: Orders, orderId: int, now: int): OrderStep
  {
    if orderId !in s.table then OrderStep(Failed(OrderNotFound), s)
    else
      var o := s.table[orderId];
      var rule := OR.CanCompleteOrder(o.status, o.deadline, now);
      if rule.Deny? then OrderStep(Failed(Denied(rule.reason)), s)
      else
        var net := OR.CalculateFee(o.price).netAmount;
        var ledger := if Paid(o.performerId) then DepositStep(s.ledger, o.performerId.value, net, None, now).after else s.ledger;
        OrderStep(StatusIs("completed"), Orders(s.table[orderId := o.(status := "completed")], s.nextId, ledger))
  }

  /**
   * cancel_order as written: can_cancel_order, then "cancelled"; the refund
   * tests the status after it was overwritten, so it never runs.
   */
  function CancelStep(s: Orders, orderId: int, userId: int, role: string): OrderStep
  {
    if orderId !in s.table then OrderStep(Failed(OrderNotFound), s)
    else
      var rule := OR.CanCancelOrder(s.table[orderId].status, role);
      if rule.Deny? then OrderStep(Failed(Denied(rule.reason)), s)
      else OrderStep(StatusIs("cancelled"), s.(table := s.table[orderId := s.table[orderId].(status := "cancelled")]))
  }

  // ---------------------------------------------------------------------
  // Properties

  /** create_order refuses with no change, or adds one open order under a fresh id and passes the price to withdraw. */
  lemma CreateOutcome(s: Orders, clientId: int, title: string, description: string, price: real,
                      deadline: Option<int>, activeOrders: int, now: int)
    requires Fresh(s)
    ensures var st := CreateStep(s, clientId, title, description, price, deadline, activeOrders, now);
      && Fresh(st.after)
      && (st.reply.OrderCreated? <==>
            && clientId in s.ledger.users
            && OR.CanCreateOrder(s.ledger.users[clientId].profile, price, activeOrders) == Allow
            && s.ledger.users[clientId].balance >= price)
      && (!st.reply.OrderCreated? ==> st.after == s)
      && (st.reply.OrderCreated? ==>
            && st.reply.orderId !in s.table
            && st.after.table == s.table[st.reply.orderId := Order(clientId, title, description, price,
                                   deadline.UnwrapOr(now + OR.DefaultOrderDuration), "open", None)]
            && st.after.ledger == WithdrawStep(s.ledger, clientId, price, now).after)
  {
  }

  /** Every operation moves each order at most one edge along the lifecycle and keeps the table consistent. */
  lemma CreateFollowsLifecycle(s: Orders, uid: int, title: string, description: string, price: real,
                               deadline: Option<int>, active: int, now: int)
    requires Fresh(s) && Consistent(s)
    ensures var a := CreateStep(s, uid, title, description, price, deadline, active, now).after;
      Advances(s, a) && Consistent(a)
  {
  }

  lemma AcceptFollowsLifecycle(s: Orders, uid: int, orderId: int, active: int)
    requires Consistent(s)
    ensures var a := AcceptStep(s, uid, orderId, active).after; Advances(s, a) && Consistent(a)
  {
  }

  lemma CompleteFollowsLifecycle(s: Orders, orderId: int, now: int)
    requires Consistent(s)
    ensures var a := CompleteStep(s, orderId, now).after; Advances(s, a) && Consistent(a)
  {
  }

  lemma CancelFollowsLifecycle(s: Orders, orderId: int, userId: int, role: string)
    requires Consistent(s)
    ensures var a := CancelStep(s, orderId, userId, role).after; Advances(s, a) && Consistent(a)
  {
  }

  /** Once completed or cancelled, an order can be neither completed nor cancelled again. */
  lemma ClosedIsFinal(s: Orders, orderId: int, userId: int, r1: string, r2: string, t1: int, t2: int)
    requires CompleteStep(s, orderId, t1).reply.StatusIs?
    ensures var a := CompleteStep(s, orderId, t1).after;
      CompleteStep(a, orderId, t2).after == a && CancelStep(a, orderId, userId, r2).after == a
  {
  }

  lemma CancelledIsFinal(s: Orders, orderId: int, userId: int, r1: string, r2: string, t2: int)
    requires CancelStep(s, orderId, userId, r1).reply.StatusIs?
    ensures var a := CancelStep(s, orderId, userId, r1).after;
      CompleteStep(a, orderId, t2).after == a && CancelStep(a, orderId, userId, r2).after == a
  {
  }

  /** Completing a consistent order deposits exactly the net amount to its performer (unless the id is 0). */
  lemma CompletePaysNet(s: Orders, orderId: int, now: int)
    requires Consistent(s)
    requires CompleteStep(s, orderId, now).reply == StatusIs("completed")
    ensures s.table[orderId].performerId.Some?
    ensures var o := s.table[orderId];
      o.performerId.value != 0 ==>
        CompleteStep(s, orderId, now).after.ledger == DepositStep(s.ledger, o.performerId.value, o.price - OR.CalculateFee(o.price).fee, None, now).after
  {
  }

  /** Accepting and cancelling (as written) move no money. */
  lemma AcceptAndCancelMoveNoMoney(s: Orders, uid: int, orderId: int, active: int, role: string)
    ensures AcceptStep(s, uid, orderId, active).after.ledger == s.ledger
    ensures CancelStep(s, orderId, uid, role).after.ledger == s.ledger
  {
  }

  /**
   * As written: the refund test comes after the status is overwritten, so
   * an open order a client cancels returns none of the price withdrawn at
   * creation.
   */
  lemma CancelOpenOrderRefundsNothing(p: Profile)
    ensures var o := Order(1, "t", "d", 10000.0, 0, "open", None);
      var s := Orders(map[1 := o], 2, Ledger(map[1 := Account(0.0, p)], []));
      var st := CancelStep(s, 1, 1, "client");
      && st.reply == StatusIs("cancelled")
      && st.after.ledger == s.ledger
  {
  }

  /**
   * As written: creation ignores withdraw's reply. A verified client with
   * 6 000 000 can place a 6 000 000 order; withdraw refuses it (above the
   * 5 000 000 withdrawal maximum), yet the order is created and no money
   * moves.
   */
  lemma CreateIgnoresRefusedWithdraw(p: Profile)
    requires p.isVerified
    ensures var l := Ledger(map[1 := Account(6000000.0, p)], []);
      var st := CreateStep(Start(l), 1, "t", "d", 6000000.0, None, 0, 0);
      && WithdrawStep(l, 1, 6000000.0, 0).reply == Refused(RuleDenied(BalanceRules.AboveMaxWithdraw))
      && st.reply == OrderCreated(1)
      && st.after.ledger == l
  {
  }

  /** Cancellation as evidently intended: an order cancelled while still open returns its price to the client. */
  function CancelRefundStep(s: Orders, orderId: int, userId: int, role: string, now: int): OrderStep
  {
    var st := CancelStep(s, orderId, userId, role);
    if st.reply.StatusIs? && s.table[orderId].status == "open" then
      st.(after := st.after.(ledger := PayoutStep(s.ledger, s.table[orderId].clientId, s.table[orderId].price, now).after))
    else st
  }

  /** Creation as evidently intended: a refused withdraw refuses the order. */
  function CreateFundedStep(s: Orders, clientId: int, title: string, description: string, price: real,
                            deadline: Option<int>, activeOrders: int, now: int): OrderStep
  {
    var st := CreateStep(s, clientId, title, description, price, deadline, activeOrders, now);
    if st.reply.OrderCreated? && WithdrawStep(s.ledger, clientId, price, now).reply.Refused? then
      OrderStep(Failed(WithdrawRefused(WithdrawStep(s.ledger, clientId, price, now).reply.why)), s)
    else st
  }

  /** With the corrected creation, a created order has taken exactly its price from the client. */
  lemma FundedOrderTakesPrice(s: Orders, clientId: int, title: string, description: string, price: real,
                              deadline: Option<int>, activeOrders: int, now: int)
    ensures var st := CreateFundedStep(s, clientId, title, description, price, deadline, activeOrders, now);
      st.reply.OrderCreated? ==>
        && clientId in st.after.ledger.users
        && st.after.ledger.users[clientId].balance == s.ledger.users[clientId].balance - price
        && st.after.ledger.users[clientId].balance >= 0.0
    ensures var st := CreateFundedStep(s, clientId, title, description, price, deadline, activeOrders, now);
      !st.reply.OrderCreated? ==> st.after == s
  {
    WithdrawOutcome(s.ledger, clientId, price, now);
  }

  /**
   * With the corrected cancellation, cancelling an open order of a known
   * client returns exactly its price; cancelling one already in progress
   * returns nothing.
   */
  lemma CancelRefundsOpenOrder(s: Orders, orderId: int, userId: int, role: string, now: int)
    requires orderId in s.table && s.table[orderId].clientId in s.ledger.users
    ensures var o := s.table[orderId]; var st := CancelRefundStep(s, orderId, userId, role, now);
      st.reply.StatusIs? && o.status == "open" ==>
        st.after.ledger.users[o.clientId].balance == s.ledger.users[o.clientId].balance + o.price
    ensures var o := s.table[orderId]; var st := CancelRefundStep(s, orderId, userId, role, now);
      o.status != "open" ==> st.after.ledger == s.ledger
  {
  }

  // ---------------------------------------------------------------------
  // The service

  class OrderService {
    const ledger: L.BalanceService
    var table: map<int, Order>
    var nextId: int

    function Model(): Orders
      reads this, ledger
    {
      Orders(table, nextId, ledger.Model())
    }

    constructor (ledger: L.BalanceService)
      ensures this.ledger == ledger && Model() == Start(ledger.Model())
    {
      this.ledger := ledger;
      table := map[];
      nextId := 1;
    }

    method CreateOrder(clientId: int, title: string, description: string, price: real,
                       deadline: Option<int>, activeOrders: int, now: int) returns (r: OrderReply)
      modifies this, ledger
      ensures OrderStep(r, Model()) == CreateStep(old(Model()), clientId, title, description, price, deadline, activeOrders, now)
    {
      if clientId !in ledger.users {
        return Failed(ClientNotFound);
      }
      var rule := OR.CanCreateOrder(ledger.users[clientId].profile, price, activeOrders);
      if rule.Deny? {
        return Failed(Denied(rule.reason));
      }
      var balance := ledger.GetBalance(clientId);
      if balance.None? || balance.value < price {
        return Failed(InsufficientBalance);
      }
      var _ := ledger.Withdraw(clientId, price, now);
      var id := nextId;
      table := table[id := Order(clientId, title, description, price, deadline.UnwrapOr(now + OR.DefaultOrderDuration), "open", None)];
      nextId := nextId + 1;
      return OrderCreated(id);
    }

    method AcceptOrder(performerId: int, orderId: int, activeOrders: int) returns (r: OrderReply)
      modifies this
      ensures OrderStep(r, Model()) == AcceptStep(old(Model()), performerId, orderId, activeOrders)
    {
      if performerId !in ledger.users || orderId !in table {
        return Failed(PerformerOrOrderNotFound);
      }
      if table[orderId].status != "open" {
        return Failed(NotOpen);
      }
      var rule := OR.CanAcceptOrder(ledger.users[performerId].profile, activeOrders);
      if rule.Failure? {
        return Raised(rule.error);
      }
      if rule.value.Deny? {
        return Failed(Denied(rule.value.reason));
      }
      table := table[orderId := table[orderId].(performerId := Some(performerId), status := "in_progress")];
      return StatusIs("in_progress");
    }

    method CompleteOrder(orderId: int, now: int) returns (r: OrderReply)
      modifies this, ledger
      ensures OrderStep(r, Model()) == CompleteStep(old(Model()), orderId, now)
    {
      if orderId !in table {
        return Failed(OrderNotFound);
      }
      var o := table[orderId];
      var rule := OR.CanCompleteOrder(o.status, o.deadline, now);
      if rule.Deny? {
        return Failed(Denied(rule.reason));
      }
      table := table[orderId := o.(status := "completed")];
      var fee := OR.CalculateFee(o.price);
      if o.performerId.Some? && o.performerId.value != 0 {
        var _ := ledger.Deposit(o.performerId.value, fee.netAmount, None, now);
      }
      return StatusIs("completed");
    }

    method CancelOrder(orderId: int, userId: int, role: string) returns (r: OrderReply)
      modifies this
      ensures OrderStep(r, Model()) == CancelStep(old(Model()), orderId, userId, role)
    {
      if orderId !in table {
        return Failed(OrderNotFound);
      }
      var rule := OR.CanCancelOrder(table[orderId].status, role);
      if rule.Deny? {
        return Failed(Denied(rule.reason));
      }
      table := table[orderId := table[orderId].(status := "cancelled")];
      if table[orderId].status == "open" {
        // Unreachable as in the source: the status was just overwritten.
        assert false;
      }
      return StatusIs("cancelled");
    }
  }
}
