/** How far past the cap spend can go: the least bound, and when the documented one holds. */
module Overshoot {
  import opened Text
  import opened Schemas
  import opened Provider
  import opened Pipeline
  import opened Budget
  import opened Sums
  import opened Protocol
  import opened Spending
  import opened Refinement

  // Some completion fails some schema.
  ghost predicate CanReject(c: Config) {
    exists doc, text :: !Blank(text) && c.validate(doc, text).Invalid?
  }

  // The most calls one run can make: only a rejected completion leads to another call.
  ghost function Attempts(c: Config): nat {
    if CanReject(c) then c.maxAttempts else 1
  }

  // The most one run can cost, and the most all slots can add at once.
  ghost function DearestRun(c: Config): real {
    Repeat(c.callBound, Attempts(c))
  }

  ghost function Most(c: Config): real {
    Repeat(DearestRun(c), c.slots)
  }

  ghost predicate StaysUnder(c: Config, bound: real) {
    forall states: seq<State>, actions: seq<Action>, i: nat ::
      IsRun(c, states, actions) && i < |states| ==> states[i].spent < bound
  }

  // ---------- never more ----------

  // With nothing to reject, no run makes a second call, so the attempt bound does not matter.
  lemma NeverRejected(c: Config, s: State, a: Action)
    requires !CanReject(c) && Enabled(c, s, a)
    ensures Enabled(c.(maxAttempts := 1), s, a) && Do(c.(maxAttempts := 1), s, a) == Do(c, s, a)
  {
  }

  lemma StaysUnderMost(c: Config)
    requires WellConfigured(c) && c.cap > 0.0
    ensures StaysUnder(c, c.cap + Most(c))
  {
    forall states: seq<State>, actions: seq<Action>, i: nat | IsRun(c, states, actions) && i < |states|
      ensures states[i].spent < c.cap + Most(c)
    {
      if CanReject(c) {
        SpendBounded(c, states, actions, i);
      } else {
        forall k | 0 <= k < |actions|
          ensures Enabled(c.(maxAttempts := 1), states[k], actions[k])
                  && Do(c.(maxAttempts := 1), states[k], actions[k]) == Do(c, states[k], actions[k])
        {
          NeverRejected(c, states[k], actions[k]);
        }
        SpendBounded(c.(maxAttempts := 1), states, actions, i);
      }
    }
  }

  // ---------- and no less ----------

  // A reply that makes a run of this document type cost as much as a run can.
  ghost predicate Dearest(c: Config, doc: DocType, reply: CallOutcome) {
    && Possible(reply) && KnownCost(reply) == c.callBound
    && if CanReject(c) then reply.Completed? && c.validate(doc, reply.result.text).Invalid? else reply.Raised?
  }

  lemma {:induction false} CostOfSame(reply: CallOutcome, n: nat)
    ensures CostOfFirst((k: nat) => reply, n) == Repeat(KnownCost(reply), n)
  {
    if n > 0 {
      CostOfSame(reply, n - 1);
    }
  }

  lemma DearestSettles(c: Config, job: Job, reply: CallOutcome)
    requires job.validate == c.validate && job.maxAttempts == c.maxAttempts >= 1 && Dearest(c, job.doc, reply)
    ensures var p := After(job, (k: nat) => reply, c.maxAttempts);
            !p.Trying? && CostOf(p) == DearestRun(c)
  {
    RunSettles(job, (k: nat) => reply, Attempts(c));
    CostOfSame(reply, Attempts(c));
  }

  // A keyless request with something to extract.
  predicate Askable(c: Config, r: Request) {
    r.key.None? && !Blank(ContentOf(c, r.payload))
  }

  // One more request past the budget check.
  lemma Open(c: Config, s: State, r: Request, id: Id) returns (s': State)
    requires id !in s.reqs && Askable(c, r) && s.borrowed < c.slots && !Refuses(c.cap, s.spent)
    ensures Reaches(c, s, s')
    ensures s' == s.(reqs := s.reqs[id := Req(r, Running(Start(JobOf(c, r))))], borrowed := s.borrowed + 1)
  {
    Stay(c, s);
    var s1 := Do(c, s, Arrive(id, r));
    Step(c, s, s, Arrive(id, r));
    var s2 := Go(c, s, id, r, s1, Admit(id));
    var s3 := Go(c, s, id, r, s2, Skip(id));
    s' := Go(c, s, id, r, s3, Check(id));
  }

  // Requests n up to n + k are past the budget check, none of them settled.
  ghost predicate Opened(c: Config, s: State, r: Request, n: Id, k: nat) {
    forall id :: n <= id < n + k ==> id in s.reqs && s.reqs[id] == Req(r, Running(Start(JobOf(c, r))))
  }

  ghost predicate Fresh(s: State, n: Id) {
    forall id :: id in s.reqs ==> id < n
  }

  lemma {:induction false} Fill(c: Config, s: State, r: Request, n: Id, k: nat) returns (s': State)
    requires Askable(c, r) && s.borrowed + k <= c.slots && !Refuses(c.cap, s.spent) && Fresh(s, n)
    ensures Reaches(c, s, s') && s'.spent == s.spent && s'.borrowed == s.borrowed + k
    ensures Opened(c, s', r, n, k) && Fresh(s', n + k)
    decreases k
  {
    if k == 0 {
      s' := s;
      Stay(c, s);
    } else {
      var s0 := Fill(c, s, r, n, k - 1);
      s' := Open(c, s0, r, n + k - 1);
      Then(c, s, s0, s');
    }
  }

  // One open request runs as dearly as it can.
  lemma Close(c: Config, s: State, r: Request, id: Id, reply: CallOutcome) returns (s': State)
    requires Opened(c, s, r, id, 1) && c.maxAttempts >= 1 && Dearest(c, r.payload.doc, reply)
    ensures Reaches(c, s, s') && s'.spent == s.spent + DearestRun(c)
    ensures forall other :: other in s.reqs && other != id ==> other in s'.reqs && s'.reqs[other] == s.reqs[other]
  {
    Stay(c, s);
    assert id in s.reqs && s.reqs[id] == Req(r, Running(Start(JobOf(c, r))));
    var s1 := MakeCalls(c, s, id, r, s, JobOf(c, r), (k: nat) => reply, c.maxAttempts,
                        s.now, s.table, s.spent, s.borrowed);
    DearestSettles(c, JobOf(c, r), reply);
    s' := Go(c, s, id, r, s1, Add(id));
  }

  lemma {:induction false} Drain(c: Config, s: State, r: Request, n: Id, k: nat, reply: CallOutcome) returns (s': State)
    requires Opened(c, s, r, n, k) && c.maxAttempts >= 1 && Dearest(c, r.payload.doc, reply)
    ensures Reaches(c, s, s') && s'.spent == s.spent + Repeat(DearestRun(c), k)
    ensures forall id :: id in s.reqs && !(n <= id < n + k) ==> id in s'.reqs && s'.reqs[id] == s.reqs[id]
    decreases k
  {
    if k == 0 {
      s' := s;
      Stay(c, s);
    } else {
      var s0 := Drain(c, s, r, n, k - 1, reply);
      s' := Close(c, s0, r, n + k - 1, reply);
      Then(c, s, s0, s');
    }
  }

  // An open request whose one call fails at this cost.
  lemma FailOnce(c: Config, s: State, r: Request, id: Id, costUsd: Usd) returns (s': State)
    requires Opened(c, s, r, id, 1) && costUsd <= c.callBound
    ensures Reaches(c, s, s') && Only(s, id, r, s')
    ensures s'.reqs[id].phase.Replying? && s'.spent == s.spent + costUsd && s'.borrowed == s.borrowed
  {
    Stay(c, s);
    assert id in s.reqs && s.reqs[id] == Req(r, Running(Start(JobOf(c, r))));
    var s1 := Go(c, s, id, r, s, Call(id, Raised(Error, costUsd)));
    s' := Go(c, s, id, r, s1, Add(id));
  }

  // One request on its own, of exactly this cost.
  lemma SpendOnce(c: Config, s: State, r: Request, id: Id, costUsd: Usd) returns (s': State)
    requires id !in s.reqs && Askable(c, r) && s.borrowed < c.slots && !Refuses(c.cap, s.spent)
    requires costUsd <= c.callBound
    ensures Reaches(c, s, s') && s'.spent == s.spent + costUsd && s'.borrowed == s.borrowed
    ensures s'.reqs.Keys == s.reqs.Keys + {id}
  {
    var s1 := Open(c, s, r, id);
    var s2 := FailOnce(c, s1, r, id, costUsd);
    s' := Do(c, s2, Release(id));
    Then(c, s, s1, s2);
    Step(c, s, s2, Release(id));
  }

  // Spend can be brought to any amount below the cap.
  lemma {:induction false} SpendTo(c: Config, s: State, r: Request, n: Id, target: real, k: nat) returns (s': State)
    requires Askable(c, r) && s.borrowed < c.slots && Fresh(s, n)
    requires s.spent <= target < c.cap && target - s.spent <= Repeat(c.callBound, k)
    ensures Reaches(c, s, s') && s'.spent == target && s'.borrowed == s.borrowed && Fresh(s', n + k)
    decreases k
  {
    if k == 0 {
      s' := s;
      Stay(c, s);
    } else {
      var left := target - s.spent;
      var s0 := SpendOnce(c, s, r, n, if left < c.callBound then left else c.callBound);
      RepeatMonotone(c.callBound, 0, k - 1);
      s' := SpendTo(c, s0, r, n + 1, target, k - 1);
      Then(c, s, s0, s');
    }
  }

  lemma ProductNonnegative(a: real, b: real)
    requires 0.0 <= a && 0.0 <= b
    ensures 0.0 <= a * b
  {
  }

  lemma EnoughRepeats(x: real, target: real) returns (k: nat)
    requires x > 0.0 && target >= 0.0
    ensures target <= Repeat(x, k)
  {
    var q := target / x;
    assert q * x == target;
    assert q >= 0.0;
    k := q.Floor + 1;
    RepeatIsProduct(x, k);
    ProductNonnegative(k as real - q, x);
    assert (k as real - q) * x == k as real * x - q * x;
  }

  lemma ARejection(c: Config) returns (doc: DocType, reply: CallOutcome)
    ensures Dearest(c, doc, reply)
  {
    if CanReject(c) {
      var text;
      doc, text :| !Blank(text) && c.validate(doc, text).Invalid?;
      reply := Completed(Completion(text, "model", 1, 1, c.callBound, 0.0, "completed"));
    } else {
      doc, reply := InvoiceDoc, Raised(Error, c.callBound);
    }
  }

  /** Every excess below the most all slots can add at once is reached: bring spend close under the cap one
      request at a time, let every slot pass the check, then let every run cost what it can. */
  lemma ExcessReached(c: Config, start: real, x: real) returns (states: seq<State>, actions: seq<Action>)
    requires WellConfigured(c) && c.cap > 0.0 && c.slots >= 1 && c.callBound > 0.0 && x < Most(c)
    ensures IsRun(c, states, actions) && states[|actions|].spent >= c.cap + x
  {
    var doc, reply := ARejection(c);
    var r := Request(Payload(doc, "v1", "x", PlainText, "default"), None);
    assert Askable(c, r) by { assert !IsSpace("x"[0]); }
    var i := Initial(start);
    var target := if c.cap + x - Most(c) > 0.0 then c.cap + x - Most(c) else 0.0;
    var k := EnoughRepeats(c.callBound, target);
    var s1 := SpendTo(c, i, r, 0, target, k);
    var s2 := Fill(c, s1, r, k, c.slots);
    var s3 := Drain(c, s2, r, k, c.slots, reply);
    Then(c, i, s1, s2);
    Then(c, i, s2, s3);
    actions :| Steps(c, i, actions, s3);
    states := StepsAreRun(c, i, actions, s3);
  }

  // ---------- the theorems ----------

  /** The overshoot exactly: with a cap, a slot and a price, an excess x is never reached if and only if x is
      at least slots times the calls a run can make times the cost of a call. */
  lemma OvershootIff(c: Config, x: real)
    requires WellConfigured(c) && c.cap > 0.0 && c.slots >= 1 && c.callBound > 0.0
    ensures StaysUnder(c, c.cap + x) <==> Most(c) <= x
  {
    if Most(c) <= x {
      StaysUnderMost(c);
    } else {
      var states, actions := ExcessReached(c, 0.0, x);
    }
  }

  lemma {:induction false} RepeatLess(a: real, b: real, n: nat)
    requires a < b && n >= 1
    ensures Repeat(a, n) < Repeat(b, n)
  {
    if n > 1 {
      RepeatLess(a, b, n - 1);
    }
  }

  lemma RepeatFew(x: real)
    ensures Repeat(x, 1) == x && Repeat(x, 2) == x + x
  {
    assert Repeat(x, 0) == 0.0;
    assert Repeat(x, 1) == x;
  }

  /** The documented bound, one call for each slot, is kept in every run if and only if a run makes one call
      at most, or there is no slot, or calls cost nothing. */
  lemma CallsInFlightIff(c: Config)
    requires WellConfigured(c) && c.cap > 0.0
    ensures StaysUnder(c, c.cap + Repeat(c.callBound, c.slots)) <==>
            c.maxAttempts <= 1 || c.slots == 0 || c.callBound == 0.0 || !CanReject(c)
  {
    if c.slots == 0 || c.callBound == 0.0 {
      StaysUnderMost(c);
      RepeatIsProduct(c.callBound, Attempts(c));
      RepeatIsProduct(DearestRun(c), c.slots);
      RepeatIsProduct(c.callBound, c.slots);
    } else {
      OvershootIff(c, Repeat(c.callBound, c.slots));
      RepeatFew(c.callBound);
      if c.maxAttempts > 1 && CanReject(c) {
        RepeatMonotone(c.callBound, 2, c.maxAttempts);
        RepeatLess(c.callBound, DearestRun(c), c.slots);
      } else {
        assert DearestRun(c) == c.callBound;
      }
    }
  }
}
