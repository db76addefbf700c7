// Fuzz-time arithmetic shared by the job lifecycle and the accounting protocol.
// Durations are integer milliseconds, budgets and session lengths whole seconds.
module FuzzTime {
  import opened Basics

  // Whole seconds of budget still unspent; the fractional part already used is forgotten.
  function Remaining(budget: int, completed: nat): nat {
    Max(0, budget - completed / 1000)
  }

  // The part of a finished session that is added to the completed total.
  function Charge(budget: int, completed: nat, accounted: nat): nat {
    Min(accounted, Max(0, budget * 1000 - completed))
  }

  // A session long enough to be charged at all either exhausts the budget or lowers the
  // whole seconds that remain.
  lemma ChargeProgress(budget: int, completed: nat, accounted: nat)
    requires accounted >= 1000
    ensures var total := completed + Charge(budget, completed, accounted);
            total < budget * 1000 ==> Remaining(budget, total) < Remaining(budget, completed)
  {
    var total := completed + Charge(budget, completed, accounted);
    if total < budget * 1000 {
      assert total == completed + accounted;
      assert total / 1000 >= (completed + 1000) / 1000;
    }
  }
}
