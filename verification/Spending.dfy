/** Money over every run of the service: conservation, the ledger, and the overshoot bound. */
module Spending {
  import opened Schemas
  import opened Provider
  import opened Pipeline
  import opened Idempotency
  import opened Sums
  import opened Protocol

  // ---------- what each request weighs ----------

  // Pending: spend known but not yet added. Unlogged: spend added but not yet on an access line.
  datatype Weight = Pending | Unlogged

  function Weigh(w: Weight, p: Phase): real {
    match w
    case Pending => if p.Running? then CostOf(p.pipe) else 0.0
    case Unlogged =>
      match p {
        case Won(response) => response.costUsd
        case Storing(row) => row.response.costUsd
        case Replying(o) => Added(o)
        case Logging(o) => Added(o)
        case _ => 0.0
      }
  }

  // What the budget guard was charged for a request that ended this way.
  function Added(o: Outcome): Usd {
    match o
    case Fresh(response) => response.costUsd
    case Failed(_, costUsd) => costUsd
    case Unstored(response) => response.costUsd
    case _ => 0.0
  }

  // The cost field of the access line; null (None) unless the request noted one (api/observability.py).
  function LineCost(o: Outcome): Option<Usd> {
    match o
    case Fresh(response) => Some(response.costUsd)
    case Replayed(_, _) => Some(0.0)
    case Failed(_, costUsd) => Some(costUsd)
    case _ => None
  }

  /** Every run is charged, also one whose response could not be stored. The line of a 200 of its own and of a
      failed run reports the charge, that of a replay zero, and that of any other answer nothing at all. */
  lemma ChargesAre(response: Response, row: Row, at: real, code: FailCode, costUsd: Usd)
    ensures Added(Fresh(response)) == Added(Unstored(response)) == response.costUsd
    ensures Added(Failed(code, costUsd)) == costUsd
    ensures Added(Replayed(row, at)) == Added(Conflict(row, at)) == Added(Refused) == Added(Rejected) == 0.0
    ensures LineCost(Fresh(response)) == Some(response.costUsd) && LineCost(Failed(code, costUsd)) == Some(costUsd)
    ensures LineCost(Replayed(row, at)) == Some(0.0)
    ensures LineCost(Conflict(row, at)) == LineCost(Refused) == LineCost(Rejected) == None
    ensures LineCost(Unstored(response)) == None
  {
  }

  // The line's cost with null as zero, and the spend a line leaves out.
  function OnLine(o: Outcome): Usd {
    if LineCost(o).Some? then LineCost(o).value else 0.0
  }

  function LostBy(o: Outcome): Usd {
    if o.Unstored? then o.response.costUsd else 0.0
  }

  // The requests that hold a slot, and those past the budget check and not yet added to the budget.
  datatype Group = Holders | Unsettled

  predicate Belongs(g: Group, p: Phase) {
    match g
    case Holders => !(p.Queued? || p.Logging? || p.Done?)
    case Unsettled => p.Running?
  }

  ghost function Members(g: Group, reqs: map<Id, Req>): set<Id> {
    set id | id in reqs && Belongs(g, reqs[id].phase)
  }

  function One(b: bool): int {
    if b then 1 else 0
  }

  lemma MembersUpdate(g: Group, reqs: map<Id, Req>, id: Id, req: Req)
    ensures |Members(g, reqs[id := req])| ==
            |Members(g, reqs)| - One(id in reqs && Belongs(g, reqs[id].phase)) + One(Belongs(g, req.phase))
  {
    var before, after := Members(g, reqs), Members(g, reqs[id := req]);
    assert before - {id} == after - {id};
    SizeUpdate(before, after, id);
  }

  ghost function Weights(w: Weight, reqs: map<Id, Req>): map<Id, real> {
    map id | id in reqs :: Weigh(w, reqs[id].phase)
  }

  ghost function Sum(w: Weight, reqs: map<Id, Req>): real {
    Total(Weights(w, reqs))
  }

  lemma SumUpdate(w: Weight, reqs: map<Id, Req>, id: Id, req: Req)
    ensures Sum(w, reqs[id := req]) ==
            Sum(w, reqs) - (if id in reqs then Weigh(w, reqs[id].phase) else 0.0) + Weigh(w, req.phase)
  {
    assert Weights(w, reqs[id := req]) == Weights(w, reqs)[id := Weigh(w, req.phase)];
    TotalUpdate(Weights(w, reqs), id, Weigh(w, req.phase));
  }

  // ---------- totals over the history ----------

  // The known cost of every provider call made.
  function Billed(log: seq<Event>): real {
    if log == [] then 0.0
    else Billed(log[..|log| - 1]) + (var e := log[|log| - 1]; if e.Called? then KnownCost(e.reply) else 0.0)
  }

  // The sum of the access lines' cost fields, null as zero.
  function LineTotal(log: seq<Event>): real {
    if log == [] then 0.0
    else LineTotal(log[..|log| - 1]) + (var e := log[|log| - 1]; if e.Line? then OnLine(e.outcome) else 0.0)
  }

  // Spend whose access line carries no cost: the response's store write raised.
  function LostTotal(log: seq<Event>): real {
    if log == [] then 0.0
    else LostTotal(log[..|log| - 1]) + (var e := log[|log| - 1]; if e.Line? then LostBy(e.outcome) else 0.0)
  }

  // ---------- the invariant ----------

  // The most n calls, and the most one run, can cost.
  function CallsBound(c: Config, n: nat): real {
    Repeat(c.callBound, n)
  }

  function RunBound(c: Config): real {
    CallsBound(c, c.maxAttempts)
  }

  // A run has cost at most the per-call bound for each call it made.
  ghost predicate PipeBounded(c: Config, p: Pipe) {
    if p.Trying? then
      |p.trail| < c.maxAttempts && p.costUsd <= CallsBound(c, |p.trail|)
    else
      CostOf(p) <= RunBound(c)
  }

  ghost predicate Bounded(c: Config, s: State) {
    forall id :: id in s.reqs && s.reqs[id].phase.Running? ==> PipeBounded(c, s.reqs[id].phase.pipe)
  }

  ghost predicate SlotsCounted(c: Config, s: State) {
    s.borrowed == |Members(Holders, s.reqs)| <= c.slots
  }

  // Spend, plus the worst every unsettled run can still add, stays under the bound.
  ghost predicate Headroom(c: Config, s: State) {
    c.cap > 0.0 ==>
      s.spent + Repeat(RunBound(c), |Members(Unsettled, s.reqs)|) < c.cap + Repeat(RunBound(c), c.slots)
  }

  ghost predicate Reconciled(s: State) {
    && Billed(s.log) == s.spent + Sum(Pending, s.reqs)
    && s.spent == LineTotal(s.log) + LostTotal(s.log) + Sum(Unlogged, s.reqs)
  }

  ghost predicate Accounts(c: Config, s: State) {
    Bounded(c, s) && SlotsCounted(c, s) && Headroom(c, s) && Reconciled(s)
  }

  lemma PipeBoundedStep(c: Config, job: Job, p: Pipe, o: CallOutcome)
    requires job.maxAttempts == c.maxAttempts
    requires p.Trying? && PipeBounded(c, p) && KnownCost(o) <= c.callBound
    ensures PipeBounded(c, Advance(job, p, o))
  {
    RepeatMonotone(c.callBound, |p.trail| + 1, c.maxAttempts);
  }

  // Moving one request changes every sum by that request's change alone.
  lemma MoveSums(s: State, id: Id, phase: Phase)
    requires id in s.reqs
    ensures forall w :: Sum(w, Move(s, id, phase).reqs) ==
                        Sum(w, s.reqs) - Weigh(w, s.reqs[id].phase) + Weigh(w, phase)
  {
    forall w
      ensures Sum(w, Move(s, id, phase).reqs) == Sum(w, s.reqs) - Weigh(w, s.reqs[id].phase) + Weigh(w, phase)
    {
      SumUpdate(w, s.reqs, id, Req(s.reqs[id].request, phase));
    }
  }

  lemma ArriveSums(s: State, id: Id, request: Request)
    requires id !in s.reqs
    ensures forall w :: Sum(w, s.reqs[id := Req(request, Queued)]) == Sum(w, s.reqs)
  {
    forall w ensures Sum(w, s.reqs[id := Req(request, Queued)]) == Sum(w, s.reqs) {
      SumUpdate(w, s.reqs, id, Req(request, Queued));
    }
  }

  // The one request an action moves, if it moves one.
  function Mover(a: Action): Option<Id> {
    match a
    case Tick(_) => None
    case PlanSweep => None
    case RunSweep(_) => None
    case Arrive(_, _) => None
    case _ => Some(a.id)
  }

  // What an action does to every sum at once.
  lemma StepSums(c: Config, s: State, a: Action)
    requires Enabled(c, s, a)
    ensures Mover(a).None? ==> forall w :: Sum(w, Do(c, s, a).reqs) == Sum(w, s.reqs)
    ensures Mover(a).Some? ==>
              && a.id in s.reqs && a.id in Do(c, s, a).reqs
              && forall w :: Sum(w, Do(c, s, a).reqs) ==
                             Sum(w, s.reqs) - Weigh(w, s.reqs[a.id].phase) + Weigh(w, Do(c, s, a).reqs[a.id].phase)
  {
    if a.Arrive? {
      ArriveSums(s, a.id, a.request);
    } else if Mover(a).Some? {
      var s' := Do(c, s, a);
      MoveSums(s, a.id, s'.reqs[a.id].phase);
      assert s'.reqs == Move(s, a.id, s'.reqs[a.id].phase).reqs;
    }
  }

  lemma BoundedStep(c: Config, s: State, a: Action)
    requires WellConfigured(c) && Bounded(c, s) && Enabled(c, s, a)
    ensures Bounded(c, Do(c, s, a))
  {
    if a.Call? {
      PipeBoundedStep(c, JobOf(c, s.reqs[a.id].request), s.reqs[a.id].phase.pipe, a.reply);
    }
  }

  // What an action does to the size of each group.
  lemma StepMembers(c: Config, s: State, a: Action, g: Group)
    requires Enabled(c, s, a)
    ensures Mover(a).None? ==> |Members(g, Do(c, s, a).reqs)| == |Members(g, s.reqs)|
    ensures Mover(a).Some? ==>
              && a.id in s.reqs && a.id in Do(c, s, a).reqs
              && |Members(g, Do(c, s, a).reqs)| ==
                 |Members(g, s.reqs)| - One(Belongs(g, s.reqs[a.id].phase))
                 + One(Belongs(g, Do(c, s, a).reqs[a.id].phase))
  {
    if a.Arrive? {
      MembersUpdate(g, s.reqs, a.id, Req(a.request, Queued));
    } else if Mover(a).Some? {
      MembersUpdate(g, s.reqs, a.id, Do(c, s, a).reqs[a.id]);
      assert Do(c, s, a).reqs == s.reqs[a.id := Do(c, s, a).reqs[a.id]];
    }
  }

  lemma SlotsStep(c: Config, s: State, a: Action)
    requires SlotsCounted(c, s) && Enabled(c, s, a)
    ensures SlotsCounted(c, Do(c, s, a))
  {
    StepMembers(c, s, a, Holders);
  }

  // Every unsettled run holds a slot.
  lemma UnsettledWithinSlots(c: Config, s: State)
    requires SlotsCounted(c, s)
    ensures |Members(Unsettled, s.reqs)| <= c.slots
  {
    SubsetSize(Members(Unsettled, s.reqs), Members(Holders, s.reqs));
  }

  lemma HeadroomStep(c: Config, s: State, a: Action)
    requires Bounded(c, s) && SlotsCounted(c, s) && Headroom(c, s) && Enabled(c, s, a)
    ensures Headroom(c, Do(c, s, a))
  {
    var s' := Do(c, s, a);
    StepMembers(c, s, a, Unsettled);
    if a.Check? {
      SlotsStep(c, s, a);
      UnsettledWithinSlots(c, s');
      RepeatMonotone(c.callBound, 0, c.maxAttempts);
      RepeatMonotone(RunBound(c), |Members(Unsettled, s'.reqs)|, c.slots);
    } else if a.Add? {
      assert CostOf(s.reqs[a.id].phase.pipe) <= RunBound(c);
    }
  }

  lemma BilledStep(c: Config, s: State, a: Action)
    requires Billed(s.log) == s.spent + Sum(Pending, s.reqs) && Enabled(c, s, a)
    ensures var s' := Do(c, s, a); Billed(s'.log) == s'.spent + Sum(Pending, s'.reqs)
  {
    StepSums(c, s, a);
    LogStep(c, s, a);
  }

  // A request's own change: what it was charged is on its line, or still owed to it.
  lemma LedgerBalance(c: Config, s: State, a: Action)
    requires Enabled(c, s, a) && Mover(a).Some?
    ensures a.id in s.reqs && a.id in Do(c, s, a).reqs
    ensures Do(c, s, a).spent - s.spent ==
            Weigh(Unlogged, Do(c, s, a).reqs[a.id].phase) - Weigh(Unlogged, s.reqs[a.id].phase)
            + if a.Log? then OnLine(s.reqs[a.id].phase.outcome) + LostBy(s.reqs[a.id].phase.outcome) else 0.0
  {
  }

  lemma LedgerStep(c: Config, s: State, a: Action)
    requires s.spent == LineTotal(s.log) + LostTotal(s.log) + Sum(Unlogged, s.reqs) && Enabled(c, s, a)
    ensures var s' := Do(c, s, a); s'.spent == LineTotal(s'.log) + LostTotal(s'.log) + Sum(Unlogged, s'.reqs)
  {
    StepSums(c, s, a);
    LogStep(c, s, a);
    if Mover(a).Some? {
      LedgerBalance(c, s, a);
    }
  }

  // What an action writes to the history, and what that adds to each total.
  lemma LogStep(c: Config, s: State, a: Action)
    requires Enabled(c, s, a)
    ensures var s' := Do(c, s, a);
            && Billed(s'.log) == Billed(s.log) + (if a.Call? then KnownCost(a.reply) else 0.0)
            && LineTotal(s'.log) == LineTotal(s.log) + (if a.Log? then OnLine(s.reqs[a.id].phase.outcome) else 0.0)
            && LostTotal(s'.log) == LostTotal(s.log) + (if a.Log? then LostBy(s.reqs[a.id].phase.outcome) else 0.0)
  {
    var s' := Do(c, s, a);
    if s'.log != s.log {
      assert s'.log[..|s.log|] == s.log && |s'.log| == |s.log| + 1;
    }
  }

  lemma AccountsInitially(c: Config, start: real)
    ensures Accounts(c, Initial(start))
  {
    var s := Initial(start);
    forall w ensures Sum(w, s.reqs) == 0.0 {
      TotalZero(Weights(w, s.reqs));
    }
    assert forall g :: Members(g, s.reqs) == {};
    RepeatMonotone(c.callBound, 0, c.maxAttempts);
    RepeatMonotone(RunBound(c), 0, c.slots);
  }

  lemma AccountsStep(c: Config, s: State, a: Action)
    requires WellConfigured(c) && Accounts(c, s) && Enabled(c, s, a)
    ensures Accounts(c, Do(c, s, a))
  {
    BoundedStep(c, s, a);
    SlotsStep(c, s, a);
    HeadroomStep(c, s, a);
    BilledStep(c, s, a);
    LedgerStep(c, s, a);
  }

  lemma {:induction false} AccountsAlways(c: Config, states: seq<State>, actions: seq<Action>, i: nat)
    requires WellConfigured(c) && IsRun(c, states, actions) && i < |states|
    ensures Accounts(c, states[i])
  {
    if i == 0 {
      AccountsInitially(c, states[0].now);
    } else {
      AccountsAlways(c, states, actions, i - 1);
      AccountsStep(c, states[i - 1], actions[i - 1]);
    }
  }

  // ---------- the theorems ----------

  /** The overshoot past the cap is bounded by the slots: with a cap set, committed spend stays under
      the cap plus, for each slot, the most one run can cost. */
  lemma SpendBounded(c: Config, states: seq<State>, actions: seq<Action>, i: nat)
    requires WellConfigured(c) && IsRun(c, states, actions) && i < |states|
    requires c.cap > 0.0
    ensures states[i].spent < c.cap + Repeat(RunBound(c), c.slots)
  {
    AccountsAlways(c, states, actions, i);
    RepeatMonotone(c.callBound, 0, c.maxAttempts);
    RepeatMonotone(RunBound(c), 0, |Members(Unsettled, states[i].reqs)|);
  }

  // The bound as a product: slots * attempts * cost of one call.
  lemma BoundIsProduct(c: Config)
    ensures Repeat(RunBound(c), c.slots) == c.slots as real * (c.maxAttempts as real * c.callBound)
  {
    RepeatIsProduct(c.callBound, c.maxAttempts);
    RepeatIsProduct(RunBound(c), c.slots);
  }

  // Spend never goes down.
  lemma {:induction false} SpendMonotone(c: Config, states: seq<State>, actions: seq<Action>, i: nat, j: nat)
    requires IsRun(c, states, actions) && i <= j < |states|
    ensures states[i].spent <= states[j].spent
  {
    if i < j {
      SpendMonotone(c, states, actions, i, j - 1);
      assert states[j] == Do(c, states[j - 1], actions[j - 1]);
    }
  }

  /** Once one check refuses, every later check refuses. */
  lemma RefusalIsFinal(c: Config, states: seq<State>, actions: seq<Action>, i: nat, j: nat)
    requires IsRun(c, states, actions) && i <= j < |actions|
    requires actions[i].Check? && states[i + 1].reqs[actions[i].id].phase == Replying(Refused)
    requires actions[j].Check?
    ensures states[j + 1].reqs[actions[j].id].phase == Replying(Refused)
  {
    SpendMonotone(c, states, actions, i, j);
    assert states[i + 1] == Do(c, states[i], actions[i]) && states[j + 1] == Do(c, states[j], actions[j]);
  }

  /** The guard refuses exactly when it is enabled and the committed spend has reached the cap; disabled, it
      lets every request run, whatever has been spent. */
  lemma CheckDecides(c: Config, states: seq<State>, actions: seq<Action>, i: nat)
    requires IsRun(c, states, actions) && i < |actions| && actions[i].Check?
    ensures var id := actions[i].id;
            && id in states[i + 1].reqs
            && (states[i + 1].reqs[id].phase == Replying(Refused) <==> c.cap > 0.0 && states[i].spent >= c.cap)
            && (states[i + 1].reqs[id].phase.Running? <==> c.cap <= 0.0 || states[i].spent < c.cap)
  {
    assert states[i + 1] == Do(c, states[i], actions[i]);
  }

  ghost predicate Idle(s: State) {
    forall id :: id in s.reqs ==> s.reqs[id].phase.Done?
  }

  /** Every billed attempt is reconciled: the known cost of all calls ever made is the committed spend
      plus what runs in progress carry, and exactly the committed spend once no run is in progress. */
  lemma BillingConserved(c: Config, states: seq<State>, actions: seq<Action>, i: nat)
    requires WellConfigured(c) && IsRun(c, states, actions) && i < |states|
    ensures Billed(states[i].log) == states[i].spent + Sum(Pending, states[i].reqs)
    ensures (forall id :: id in states[i].reqs ==> !states[i].reqs[id].phase.Running?) ==>
              Billed(states[i].log) == states[i].spent
  {
    AccountsAlways(c, states, actions, i);
    if forall id :: id in states[i].reqs ==> !states[i].reqs[id].phase.Running? {
      TotalZero(Weights(Pending, states[i].reqs));
    }
  }

  /** Ledger agreement: the access lines never report more than was committed. When every request has
      finished they fall short by exactly the responses whose store write raised. */
  lemma LedgerAgrees(c: Config, states: seq<State>, actions: seq<Action>, i: nat)
    requires WellConfigured(c) && IsRun(c, states, actions) && i < |states|
    ensures LineTotal(states[i].log) <= states[i].spent
    ensures Idle(states[i]) ==> states[i].spent == LineTotal(states[i].log) + LostTotal(states[i].log)
  {
    var s := states[i];
    AccountsAlways(c, states, actions, i);
    TotalNonnegative(Weights(Unlogged, s.reqs));
    LostZeroIff(s.log);
    if Idle(s) {
      TotalZero(Weights(Unlogged, s.reqs));
    }
  }

  lemma {:induction false} LostZeroIff(log: seq<Event>)
    ensures 0.0 <= LostTotal(log)
    ensures LostTotal(log) == 0.0 <==> forall i :: 0 <= i < |log| && log[i].Line? ==> LostBy(log[i].outcome) == 0.0
  {
    if log != [] {
      var front := log[..|log| - 1];
      LostZeroIff(front);
      assert forall i :: 0 <= i < |front| ==> log[i] == front[i];
    }
  }

  /** When every request has finished, the ledger and the budget agree exactly when every response whose
      store write raised had cost nothing; so they agree whenever no store write raised. */
  lemma LedgerEqualIff(c: Config, states: seq<State>, actions: seq<Action>, i: nat)
    requires WellConfigured(c) && IsRun(c, states, actions) && i < |states| && Idle(states[i])
    ensures states[i].spent == LineTotal(states[i].log) <==>
            forall k :: 0 <= k < |states[i].log| && states[i].log[k].Line? && states[i].log[k].outcome.Unstored? ==>
              states[i].log[k].outcome.response.costUsd == 0.0
  {
    LedgerAgrees(c, states, actions, i);
    LostZeroIff(states[i].log);
  }
}
