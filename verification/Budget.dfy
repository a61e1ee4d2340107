/** The per-run budget guard (api/budget.py): check the committed total before a run, add the cost after. */
module Budget {

  // A cap of zero disables the guard.
  predicate Refuses(cap: real, spent: real) {
    cap > 0.0 && spent >= cap
  }

  class BudgetGuard {
    const cap: real
    var spent: real

    constructor (cap: real)
      ensures this.cap == cap && spent == 0.0
    {
      this.cap := cap;
      spent := 0.0;
    }

    method Check() returns (ok: bool)
      ensures cap <= 0.0 ==> ok
      ensures cap > 0.0 ==> (ok <==> spent < cap)
    {
      if !(cap > 0.0) {
        return true;
      }
      var committed := spent;
      return !(committed >= cap);
    }

    method Add(costUsd: real)
      modifies this`spent
      ensures spent == old(spent) + costUsd
    {
      spent := spent + costUsd;
    }
  }
}
