/**
 * The Order model's derived quantities: the budget still unspent and the
 * share of actions completed (the two-decimal rounding is not modelled).
 */
module OrderModel {

  /** remaining_budget: max(total - spent, 0). */
  function RemainingBudget(totalBudget: real, spentBudget: real): (r: real)
    ensures r >= 0.0
    ensures spentBudget <= totalBudget ==> r == totalBudget - spentBudget
    ensures spentBudget > totalBudget ==> r == 0.0
  {
    if totalBudget - spentBudget > 0.0 then totalBudget - spentBudget else 0.0
  }

  /** completion_rate: 0 for no actions, otherwise completed / max * 100. */
  function CompletionRate(completedActions: int, maxActions: int): (r: real)
    ensures maxActions == 0 ==> r == 0.0
  {
    if maxActions == 0 then 0.0
    else completedActions as real / maxActions as real * 100.0
  }

  /** Spending never increases what remains, and spending all of it leaves nothing. */
  lemma SpendingShrinksBudget(totalBudget: real, spent: real, more: real)
    requires more >= 0.0
    ensures RemainingBudget(totalBudget, spent + more) <= RemainingBudget(totalBudget, spent)
    ensures RemainingBudget(totalBudget, totalBudget) == 0.0
  {
  }

  /** With 0 <= completed <= max and max > 0 the rate lies in [0, 100], reaching 100 exactly when all are done. */
  lemma CompletionRateBounds(completedActions: int, maxActions: int)
    requires 0 <= completedActions <= maxActions && maxActions > 0
    ensures 0.0 <= CompletionRate(completedActions, maxActions) <= 100.0
    ensures CompletionRate(completedActions, maxActions) == 100.0 <==> completedActions == maxActions
  {
    var q := completedActions as real / maxActions as real;
    assert q * maxActions as real == completedActions as real;
    assert 0.0 <= q <= 1.0;
    if q == 1.0 {
      assert completedActions as real == maxActions as real;
    }
  }
}
