/** Requests handled one after another are runs of the step machine: the endpoint methods take the
    machine's steps, so what holds of every run of the machine holds of every sequential history. */
module Refinement {
  import opened Text
  import opened Schemas
  import opened Provider
  import opened Pipeline
  import opened Idempotency
  import opened Protocol
  import opened Spending
  import opened Endpoint
  import Sequential

  // The machine can go from one state to another by these actions.
  ghost predicate Steps(c: Config, s: State, acts: seq<Action>, s': State)
    decreases |acts|
  {
    if acts == [] then s' == s
    else Enabled(c, s, acts[0]) && Steps(c, Do(c, s, acts[0]), acts[1..], s')
  }

  ghost predicate Reaches(c: Config, s: State, s': State) {
    exists acts :: Steps(c, s, acts, s')
  }

  lemma Stay(c: Config, s: State)
    ensures Reaches(c, s, s)
  {
    assert Steps(c, s, [], s);
  }

  lemma {:induction false} StepsConcat(c: Config, s: State, a: seq<Action>, s': State, b: seq<Action>, s'': State)
    requires Steps(c, s, a, s') && Steps(c, s', b, s'')
    ensures Steps(c, s, a + b, s'')
    decreases |a|
  {
    if a == [] {
      assert a + b == b;
    } else {
      StepsConcat(c, Do(c, s, a[0]), a[1..], s', b, s'');
      assert (a + b)[1..] == a[1..] + b;
    }
  }

  lemma Then(c: Config, s: State, s': State, s'': State)
    requires Reaches(c, s, s') && Reaches(c, s', s'')
    ensures Reaches(c, s, s'')
  {
    var a :| Steps(c, s, a, s');
    var b :| Steps(c, s', b, s'');
    StepsConcat(c, s, a, s', b, s'');
  }

  lemma Step(c: Config, s: State, s': State, a: Action)
    requires Reaches(c, s, s') && Enabled(c, s', a)
    ensures Reaches(c, s, Do(c, s', a))
  {
    assert Steps(c, s', [a], Do(c, s', a)) by {
      assert [a][1..] == [];
    }
    Then(c, s, s', Do(c, s', a));
  }

  // The machine as it stands, except for one request.
  ghost predicate Only(s: State, id: Id, r: Request, s': State) {
    id in s'.reqs && s'.reqs == s.reqs[id := Req(r, s'.reqs[id].phase)] && s'.cutoffs == s.cutoffs
  }

  // The same, with that request in the given phase and these effects so far.
  ghost predicate At(s: State, id: Id, r: Request, s': State,
                     now: real, table: Table, spent: real, borrowed: int, phase: Phase) {
    && Only(s, id, r, s') && s'.reqs[id].phase == phase
    && s'.now == now && s'.table == table && s'.spent == spent && s'.borrowed == borrowed
  }

  lemma OnlyMoves(c: Config, s: State, id: Id, r: Request, s1: State, a: Action)
    requires Only(s, id, r, s1) && Enabled(c, s1, a)
    requires a.Tick? || Mover(a) == Some(id)
    ensures Only(s, id, r, Do(c, s1, a))
  {
    var after := Do(c, s1, a).reqs[id];
    assert Do(c, s1, a).reqs == s1.reqs[id := after];
    assert after.request == r;
  }

  // That request takes a step, or the clock moves.
  lemma Go(c: Config, s: State, id: Id, r: Request, s1: State, a: Action) returns (s': State)
    requires Reaches(c, s, s1) && Only(s, id, r, s1) && Enabled(c, s1, a)
    requires a.Tick? || Mover(a) == Some(id)
    ensures s' == Do(c, s1, a) && Reaches(c, s, s') && Only(s, id, r, s')
  {
    s' := Do(c, s1, a);
    Step(c, s, s1, a);
    OnlyMoves(c, s, id, r, s1, a);
  }

  // The request a turn puts to the machine.
  function RequestOf(t: Turn): Request {
    Request(t.payload, KeyUsed(t))
  }

  // A header that is present must be usable for the request to reach the store.
  predicate BadHeader(t: Turn) {
    t.header.Some? && ValidateIdempotencyKey(t.header.value).None?
  }

  // Content resolution is the machine's.
  predicate ResolvedBy(c: Config, t: Turn) {
    t.prepared.Ready? || t.prepared.NoClient? ==> t.prepared.content == ContentOf(c, t.payload)
  }

  // The turn is one this machine can serve now.
  ghost predicate Servable(c: Config, s: State, id: Id, t: Turn) {
    && c.maxAttempts >= 1
    && id !in s.reqs && s.borrowed < c.slots
    && s.now <= t.seenAt <= t.storedAt
    && ResolvedBy(c, t)
    && forall k :: Possible(t.provider(k)) && KnownCost(t.provider(k)) <= c.callBound
  }

  lemma Enter(c: Config, s: State, id: Id, t: Turn) returns (s': State)
    requires Servable(c, s, id, t)
    ensures Reaches(c, s, s')
    ensures At(s, id, RequestOf(t), s', t.seenAt, s.table, s.spent, s.borrowed + 1, Admitted)
  {
    Stay(c, s);
    var s0 := Do(c, s, Tick(t.seenAt));
    Step(c, s, s, Tick(t.seenAt));
    var s1 := Do(c, s0, Arrive(id, RequestOf(t)));
    Step(c, s, s0, Arrive(id, RequestOf(t)));
    s' := Go(c, s, id, RequestOf(t), s1, Admit(id));
  }

  // From the slot to the store's verdict: an answer from a row, or a miss with the stale row gone.
  lemma LookUp(c: Config, s: State, id: Id, r: Request, s1: State, now: real, spent: real, borrowed: int)
    returns (s': State)
    requires Reaches(c, s, s1) && r.key.Some?
    requires At(s, id, r, s1, now, s.table, spent, borrowed, Admitted)
    ensures Reaches(c, s, s')
    ensures var live := Live(s.table, now, c.ttl);
            At(s, id, r, s', now, Purged(s.table, r.key.value, now, c.ttl), spent, borrowed,
               if r.key.value in live then Judge(c, s1, r, live[r.key.value]) else Missed)
  {
    var key := r.key.value;
    s' := Go(c, s, id, r, s1, Look(id));
    if key in s.table {
      var s2 := s';
      s' := Go(c, s, id, r, s2, Test(id));
      if Expired(s.table[key].created, now, c.ttl) {
        var s3 := s';
        s' := Go(c, s, id, r, s3, Drop(id, true, false));
      }
    }
  }

  // The calls of a run, one by one.
  lemma {:induction false} MakeCalls(c: Config, s: State, id: Id, r: Request, s1: State, job: Job,
                                     provider: nat -> CallOutcome, k: nat,
                                     now: real, table: Table, spent: real, borrowed: int)
    returns (s': State)
    requires Reaches(c, s, s1) && job == JobOf(c, r)
    requires forall n :: Possible(provider(n)) && KnownCost(provider(n)) <= c.callBound
    requires At(s, id, r, s1, now, table, spent, borrowed, Running(Start(job)))
    ensures Reaches(c, s, s')
    ensures At(s, id, r, s', now, table, spent, borrowed, Running(After(job, provider, k)))
  {
    if k == 0 {
      s' := s1;
    } else {
      var s2 := MakeCalls(c, s, id, r, s1, job, provider, k - 1, now, table, spent, borrowed);
      s' := s2;
      if After(job, provider, k - 1).Trying? {
        s' := Go(c, s, id, r, s2, Call(id, provider(k - 1)));
      }
    }
  }

  // The run of a request past the budget check, the budget reconciled.
  lemma SpendRun(c: Config, s: State, id: Id, t: Turn, s1: State, table: Table, borrowed: int) returns (s': State)
    requires Reaches(c, s, s1) && Servable(c, s, id, t) && Runs(c, s.spent, t)
    requires At(s, id, RequestOf(t), s1, t.seenAt, table, s.spent, borrowed, Missed)
    ensures Reaches(c, s, s')
    ensures var o := RunOutcomeOf(c, s.spent, t);
            At(s, id, RequestOf(t), s', t.seenAt, table, s.spent + Added(o), borrowed,
               if o.Fresh? then Won(o.response) else Replying(o))
  {
    var job := TurnJob(c, t);
    var s2 := Go(c, s, id, RequestOf(t), s1, Check(id));
    var s3 := MakeCalls(c, s, id, RequestOf(t), s2, job, t.provider, c.maxAttempts, t.seenAt, table, s.spent, borrowed);
    RunFinishes(job, t.provider);
    s' := Go(c, s, id, RequestOf(t), s3, Add(id));
  }

  // From a miss to the end of the run, if there is one.
  lemma Spend(c: Config, s: State, id: Id, t: Turn, s1: State, table: Table, borrowed: int) returns (s': State)
    requires Reaches(c, s, s1) && Servable(c, s, id, t)
    requires At(s, id, RequestOf(t), s1, t.seenAt, table, s.spent, borrowed, Missed)
    ensures Reaches(c, s, s')
    ensures var o := RunOutcomeOf(c, s.spent, t);
            At(s, id, RequestOf(t), s', t.seenAt, table, s.spent + Added(o), borrowed,
               if o.Fresh? then Won(o.response) else Replying(o))
  {
    if Runs(c, s.spent, t) {
      s' := SpendRun(c, s, id, t, s1, table, borrowed);
    } else if RunOutcomeOf(c, s.spent, t).Refused? {
      s' := Go(c, s, id, RequestOf(t), s1, Check(id));
    } else {
      s' := Go(c, s, id, RequestOf(t), s1, Reject(id));
    }
  }

  lemma RunFinishes(job: Job, provider: nat -> CallOutcome)
    requires job.maxAttempts >= 1
    ensures !After(job, provider, job.maxAttempts).Trying?
  {
    if After(job, provider, job.maxAttempts).Trying? {
      TryingAccumulates(job, provider, job.maxAttempts);
    }
  }

  // From a success to its answer: a keyed one is stamped and stored first.
  lemma Keep(c: Config, s: State, id: Id, t: Turn, s1: State, key: Key, response: Response) returns (s': State)
    requires Reaches(c, s, s1) && t.seenAt <= t.storedAt && RequestOf(t).key == Some(key)
    requires At(s, id, RequestOf(t), s1, t.seenAt, s1.table, s1.spent, s1.borrowed, Won(response)) && key !in s1.table
    ensures Reaches(c, s, s')
    ensures At(s, id, RequestOf(t), s', t.storedAt,
               if t.put.NotWritten? then s1.table else s1.table[key := StoredRow(c, t, response)],
               s1.spent, s1.borrowed, Replying(if t.put.Written? then Fresh(response) else Unstored(response)))
  {
    var s2 := Go(c, s, id, RequestOf(t), s1, Tick(t.storedAt));
    var s3 := Go(c, s, id, RequestOf(t), s2, Stamp(id));
    assert s3.reqs[id].phase == Storing(StoredRow(c, t, response));
    s' := Go(c, s, id, RequestOf(t), s3, Store(id, !t.put.NotWritten?, !t.put.Written?));
  }

  // The slot goes back and the access line is written.
  lemma Finish(c: Config, s: State, id: Id, t: Turn, s1: State, table: Table, spent: real, o: Outcome)
    returns (s': State)
    requires Reaches(c, s, s1) && s1.now <= t.storedAt
    requires At(s, id, RequestOf(t), s1, s1.now, table, spent, s.borrowed + 1, Replying(o))
    ensures Reaches(c, s, s')
    ensures At(s, id, RequestOf(t), s', t.storedAt, table, spent, s.borrowed, Done(o))
  {
    var s2 := Go(c, s, id, RequestOf(t), s1, Tick(t.storedAt));
    var s3 := Go(c, s, id, RequestOf(t), s2, Release(id));
    s' := Go(c, s, id, RequestOf(t), s3, Log(id));
  }

  // A request that gets past the store, from its slot to its reply.
  lemma RunThrough(c: Config, s: State, id: Id, t: Turn, s1: State, table: Table) returns (s': State)
    requires Reaches(c, s, s1) && Servable(c, s, id, t)
    requires At(s, id, RequestOf(t), s1, t.seenAt, table, s.spent, s.borrowed + 1, Missed)
    requires var key := RequestOf(t).key; key.Some? ==> key.value !in table
    ensures Reaches(c, s, s') && s'.now <= t.storedAt
    ensures var r := RequestOf(t);
            var ran := RunOutcomeOf(c, s.spent, t);
            var kept := r.key.Some? && ran.Fresh?;
            At(s, id, r, s', s'.now,
               if kept && !t.put.NotWritten? then table[r.key.value := StoredRow(c, t, ran.response)] else table,
               s.spent + Added(ran), s.borrowed + 1,
               Replying(if kept && !t.put.Written? then Unstored(ran.response) else ran))
  {
    s' := Spend(c, s, id, t, s1, table, s.borrowed + 1);
    var ran := RunOutcomeOf(c, s.spent, t);
    if ran.Fresh? {
      if RequestOf(t).key.Some? {
        s' := Keep(c, s, id, t, s', RequestOf(t).key.value, ran.response);
      } else {
        s' := Go(c, s, id, RequestOf(t), s', Reply(id));
      }
    }
  }

  // A keyed request, from its slot to its reply.
  lemma KeyedTurn(c: Config, s: State, id: Id, t: Turn, s1: State, key: Key) returns (s': State)
    requires Reaches(c, s, s1) && Servable(c, s, id, t) && RequestOf(t).key == Some(key)
    requires At(s, id, RequestOf(t), s1, t.seenAt, s.table, s.spent, s.borrowed + 1, Admitted)
    ensures Reaches(c, s, s') && s'.now <= t.storedAt
    ensures var o := OutcomeOf(c, s.table, s.spent, t);
            At(s, id, RequestOf(t), s', s'.now, TableAfter(c, s.table, s.spent, t), s.spent + Added(o),
               s.borrowed + 1, Replying(o))
  {
    KeyedMeaning(c, s.table, s.spent, t);
    s' := LookUp(c, s, id, RequestOf(t), s1, t.seenAt, s.spent, s.borrowed + 1);
    if key !in Live(s.table, t.seenAt, c.ttl) {
      s' := RunThrough(c, s, id, t, s', Purged(s.table, key, t.seenAt, c.ttl));
    }
  }

  /** One request handled on its own is a run of the machine, with the same answer, the same table and
      the same spend as the endpoint method. */
  lemma TurnIsRun(c: Config, s: State, id: Id, t: Turn) returns (s': State)
    requires Servable(c, s, id, t)
    ensures Reaches(c, s, s')
    ensures var o := OutcomeOf(c, s.table, s.spent, t);
            At(s, id, RequestOf(t), s', t.storedAt, TableAfter(c, s.table, s.spent, t), s.spent + Added(o),
               s.borrowed, Done(o))
  {
    var s1 := Enter(c, s, id, t);
    if BadHeader(t) {
      s' := Go(c, s, id, RequestOf(t), s1, Reject(id));
    } else if t.header.None? {
      var s2 := Go(c, s, id, RequestOf(t), s1, Skip(id));
      s' := RunThrough(c, s, id, t, s2, s.table);
    } else {
      s' := KeyedTurn(c, s, id, t, s1, RequestOf(t).key.value);
    }
    var o := OutcomeOf(c, s.table, s.spent, t);
    s' := Finish(c, s, id, t, s', TableAfter(c, s.table, s.spent, t), s.spent + Added(o), o);
  }

  // ---------- whole histories ----------

  // A sweep on its own leaves exactly the rows that are young enough.
  lemma SweepIsRun(c: Config, s: State, at: real) returns (s': State)
    requires s.cutoffs == [] && s.now <= at
    ensures Reaches(c, s, s')
    ensures s' == s.(now := at, table := Live(s.table, at, c.ttl))
  {
    Stay(c, s);
    var s1 := Do(c, s, Tick(at));
    Step(c, s, s, Tick(at));
    var s2 := Do(c, s1, PlanSweep);
    Step(c, s, s1, PlanSweep);
    s' := Do(c, s2, RunSweep(0));
    Step(c, s, s2, RunSweep(0));
    assert s'.table == Live(s.table, at, c.ttl) && s'.cutoffs == [];
  }

  // What the machine needs of a history: a slot, deterministic content, bounded calls, a clock.
  ghost predicate Suits(c: Config, start: real, visits: seq<Sequential.Visit>) {
    && c.maxAttempts >= 1 && c.slots >= 1
    && (forall i :: 0 <= i < |visits| ==> start <= Sequential.Start(visits[i]))
    && (forall i :: 0 <= i < |visits| && visits[i].Serve? ==>
          var t := visits[i].turn;
          && ResolvedBy(c, t)
          && forall k :: Possible(t.provider(k)) && KnownCost(t.provider(k)) <= c.callBound)
  }

  // The machine after the first m visits: request i answered visit i.
  ghost predicate Mirrors(c: Config, s: State, start: real, visits: seq<Sequential.Visit>,
                          states: seq<Sequential.Service>, m: nat)
    requires m <= |visits| && |states| == |visits| + 1
  {
    && s.table == states[m].table && s.spent == states[m].spent
    && s.borrowed == 0 && s.cutoffs == []
    && s.now == (if m == 0 then start else Sequential.End(visits[m - 1]))
    && (forall id :: id in s.reqs <==> 0 <= id < m && visits[id].Serve?)
    && (forall id :: id in s.reqs ==>
          s.reqs[id] == Req(RequestOf(visits[id].turn), Done(Sequential.OutcomeAt(c, states[id], visits[id]))))
  }

  lemma MirrorVisit(c: Config, s: State, svc: Sequential.Service, id: Id, v: Sequential.Visit) returns (s': State)
    requires s.table == svc.table && s.spent == svc.spent && s.borrowed == 0 && s.cutoffs == []
    requires if v.Serve? then Servable(c, s, id, v.turn) else s.now <= v.at
    ensures Reaches(c, s, s')
    ensures s'.table == Sequential.Next(c, svc, v).table && s'.spent == Sequential.Next(c, svc, v).spent
    ensures s'.borrowed == 0 && s'.cutoffs == [] && s'.now == Sequential.End(v)
    ensures s'.reqs == if v.Serve? then s.reqs[id := Req(RequestOf(v.turn), Done(Sequential.OutcomeAt(c, svc, v)))]
                       else s.reqs
  {
    match v
    case Serve(t) => s' := TurnIsRun(c, s, id, t);
    case Sweep(at) => s' := SweepIsRun(c, s, at);
  }

  lemma {:induction false} MirroredUpTo(c: Config, start: real, visits: seq<Sequential.Visit>,
                                        states: seq<Sequential.Service>, m: nat)
    returns (s: State)
    requires Sequential.IsHistory(c, visits, states) && Suits(c, start, visits) && m <= |visits|
    ensures Reaches(c, Initial(start), s) && Mirrors(c, s, start, visits, states, m)
  {
    if m == 0 {
      s := Initial(start);
      Stay(c, s);
    } else {
      var s0 := MirroredUpTo(c, start, visits, states, m - 1);
      s := MirrorVisit(c, s0, states[m - 1], m - 1, visits[m - 1]);
      Then(c, Initial(start), s0, s);
    }
  }

  // Reaching a state from the start is a run.
  lemma {:induction false} StepsAreRun(c: Config, s: State, acts: seq<Action>, s': State) returns (states: seq<State>)
    requires Steps(c, s, acts, s')
    ensures |states| == |acts| + 1 && states[0] == s && states[|acts|] == s'
    ensures forall i :: 0 <= i < |acts| ==> Enabled(c, states[i], acts[i]) && states[i + 1] == Do(c, states[i], acts[i])
    decreases |acts|
  {
    if acts == [] {
      states := [s];
    } else {
      var rest := StepsAreRun(c, Do(c, s, acts[0]), acts[1..], s');
      states := [s] + rest;
    }
  }

  /** Every history of requests and sweeps handled one after another is a run of the concurrent machine
      that ends with the same store and the same spend, every request finished with the same answer. */
  lemma HistoryIsRun(c: Config, start: real, visits: seq<Sequential.Visit>, states: seq<Sequential.Service>)
    requires Sequential.IsHistory(c, visits, states) && Suits(c, start, visits)
    ensures exists run, acts :: IsRun(c, run, acts) && Mirrors(c, run[|acts|], start, visits, states, |visits|)
  {
    var s := MirroredUpTo(c, start, visits, states, |visits|);
    var acts :| Steps(c, Initial(start), acts, s);
    var run := StepsAreRun(c, Initial(start), acts, s);
    assert IsRun(c, run, acts);
  }
}
