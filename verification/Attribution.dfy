/** What each request gets is what was called for it: the replies to its own calls, in order, make its answer. */
module Attribution {
  import opened Schemas
  import opened Provider
  import opened Pipeline
  import opened Idempotency
  import opened Protocol
  import opened Spending

  // What came back from the calls made for one request, in order.
  function RepliesFor(log: seq<Event>, id: Id): seq<CallOutcome> {
    if log == [] then []
    else
      var e := log[|log| - 1];
      RepliesFor(log[..|log| - 1], id) + if e.Called? && e.id == id then [e.reply] else []
  }

  // Only a call made for the request adds to them.
  lemma RepliesSnoc(log: seq<Event>, e: Event, id: Id)
    ensures RepliesFor(log + [e], id) ==
            if e.Called? && e.id == id then RepliesFor(log, id) + [e.reply] else RepliesFor(log, id)
  {
    assert (log + [e])[..|log|] == log;
  }

  // The replies as a provider; it is asked for no more of them.
  function Script(replies: seq<CallOutcome>): nat -> CallOutcome {
    (k: nat) => if k < |replies| then replies[k] else Raised(Error, 0.0)
  }

  // ---------- what the replies come to ----------

  // The run these calls make so far, each made while the run was still trying.
  ghost predicate RunsOn(job: Job, replies: seq<CallOutcome>, p: Pipe) {
    && p == After(job, Script(replies), |replies|)
    && (replies != [] ==> After(job, Script(replies), |replies| - 1).Trying?)
  }

  lemma {:induction false} AfterAgrees(job: Job, f: nat -> CallOutcome, g: nat -> CallOutcome, n: nat)
    requires forall k :: 0 <= k < n ==> f(k) == g(k)
    ensures After(job, f, n) == After(job, g, n)
  {
    if n > 0 {
      AfterAgrees(job, f, g, n - 1);
    }
  }

  lemma RunsOnNext(job: Job, replies: seq<CallOutcome>, p: Pipe, o: CallOutcome)
    requires RunsOn(job, replies, p) && p.Trying?
    ensures RunsOn(job, replies + [o], Advance(job, p, o))
  {
    AfterAgrees(job, Script(replies), Script(replies + [o]), |replies|);
  }

  lemma RunsOnSettles(job: Job, replies: seq<CallOutcome>, p: Pipe)
    requires job.maxAttempts >= 1 && RunsOn(job, replies, p) && !p.Trying?
    ensures Settles(job, Script(replies), |replies|, p)
  {
    var n, script := |replies|, Script(replies);
    assert n > 0;
    TryingAccumulates(job, script, n - 1);
    assert p == Advance(job, After(job, script, n - 1), script(n - 1));
    assert IsCallCount(job, script, n);
    AdvanceSettles(job, script, n - 1, After(job, script, n - 1));
  }

  // A success: all calls but the last were rejected, and the last is the answer.
  ghost predicate Answers(c: Config, r: Request, replies: seq<CallOutcome>, response: Response) {
    && IsCallCount(JobOf(c, r), Script(replies), |replies|)
    && AnsweredBy(c, r.payload.doc, Script(replies), |replies|, response)
  }

  // An outcome and the calls it rests on; any that is not of a run rests on none.
  ghost predicate RestsOn(c: Config, r: Request, replies: seq<CallOutcome>, o: Outcome) {
    match o
    case Fresh(response) => Answers(c, r, replies, response)
    case Unstored(response) => Answers(c, r, replies, response)
    case Failed(code, costUsd) =>
      && IsCallCount(JobOf(c, r), Script(replies), |replies|)
      && FailedBy(c, r.payload.doc, Script(replies), |replies|, code)
      && costUsd == CostOfFirst(Script(replies), |replies|)
    case _ => replies == []
  }

  // ---------- the invariant ----------

  // Past the run, or never in one: no call is made any more.
  predicate Finished(p: Phase) {
    p.Won? || p.Storing? || p.Replying? || p.Logging? || p.Done?
  }

  ghost predicate PhaseRests(c: Config, r: Request, replies: seq<CallOutcome>, p: Phase) {
    match p
    case Running(pipe) => RunsOn(JobOf(c, r), replies, pipe)
    case Won(response) => Answers(c, r, replies, response)
    case Storing(row) => Answers(c, r, replies, row.response)
    case Replying(o) => RestsOn(c, r, replies, o)
    case Logging(o) => RestsOn(c, r, replies, o)
    case Done(o) => RestsOn(c, r, replies, o)
    case _ => replies == []
  }

  ghost predicate PhasesRest(c: Config, s: State) {
    forall id :: if id in s.reqs then PhaseRests(c, s.reqs[id].request, RepliesFor(s.log, id), s.reqs[id].phase)
                 else RepliesFor(s.log, id) == []
  }

  // A success and an access line in the history rest on all the calls there are, or will be, for the request.
  ghost predicate EventRests(c: Config, s: State, e: Event) {
    match e
    case Called(_, _) => true
    case Succeeded(id, response) =>
      && id in s.reqs && Finished(s.reqs[id].phase)
      && Answers(c, s.reqs[id].request, RepliesFor(s.log, id), response)
    case Line(id, o) =>
      && id in s.reqs && Finished(s.reqs[id].phase)
      && RestsOn(c, s.reqs[id].request, RepliesFor(s.log, id), o)
  }

  ghost predicate EventsRest(c: Config, s: State) {
    forall k :: 0 <= k < |s.log| ==> EventRests(c, s, s.log[k])
  }

  // An action other than a call for this request leaves its replies as they were.
  lemma RepliesKept(c: Config, s: State, a: Action, id: Id)
    requires Enabled(c, s, a)
    ensures RepliesFor(Do(c, s, a).log, id) ==
            if a.Call? && a.id == id then RepliesFor(s.log, id) + [a.reply] else RepliesFor(s.log, id)
  {
    var s' := Do(c, s, a);
    if |s'.log| == |s.log| + 1 {
      RepliesSnoc(s.log, s'.log[|s.log|], id);
      assert s'.log == s.log + [s'.log[|s.log|]];
    }
  }

  lemma AddRests(c: Config, r: Request, replies: seq<CallOutcome>, p: Pipe)
    requires WellConfigured(c) && RunsOn(JobOf(c, r), replies, p) && !p.Trying?
    ensures p.Accepted? ==> Answers(c, r, replies, ResponseOf(p))
    ensures !p.Accepted? ==> RestsOn(c, r, replies, Failed(CodeOf(p), CostOf(p)))
  {
    RunsOnSettles(JobOf(c, r), replies, p);
    SettledAnswer(c, JobOf(c, r), Script(replies), |replies|, p);
  }

  // What is carried over when the run is neither called nor settled.
  lemma CarriedOver(c: Config, s: State, a: Action, replies: seq<CallOutcome>)
    requires Enabled(c, s, a) && Mover(a).Some? && !a.Call? && !a.Add?
    requires a.id in s.reqs && PhaseRests(c, s.reqs[a.id].request, replies, s.reqs[a.id].phase)
    ensures a.id in Do(c, s, a).reqs && Do(c, s, a).reqs[a.id].request == s.reqs[a.id].request
    ensures PhaseRests(c, s.reqs[a.id].request, replies, Do(c, s, a).reqs[a.id].phase)
  {
  }

  lemma CalledOrAdded(c: Config, s: State, a: Action, replies: seq<CallOutcome>)
    requires WellConfigured(c) && Enabled(c, s, a) && (a.Call? || a.Add?)
    requires PhaseRests(c, s.reqs[a.id].request, replies, s.reqs[a.id].phase)
    ensures a.id in Do(c, s, a).reqs && Do(c, s, a).reqs[a.id].request == s.reqs[a.id].request
    ensures PhaseRests(c, s.reqs[a.id].request, if a.Call? then replies + [a.reply] else replies,
                       Do(c, s, a).reqs[a.id].phase)
  {
    var r, pipe := s.reqs[a.id].request, s.reqs[a.id].phase.pipe;
    if a.Call? {
      RunsOnNext(JobOf(c, r), replies, pipe, a.reply);
    } else {
      AddRests(c, r, replies, pipe);
    }
  }

  lemma Untouched(c: Config, s: State, a: Action, id: Id)
    requires Enabled(c, s, a) && id in s.reqs && Mover(a) != Some(id)
    ensures id in Do(c, s, a).reqs && Do(c, s, a).reqs[id] == s.reqs[id]
  {
  }

  lemma PhaseStep(c: Config, s: State, a: Action, id: Id)
    requires WellConfigured(c) && PhasesRest(c, s) && Enabled(c, s, a) && id in Do(c, s, a).reqs
    ensures PhaseRests(c, Do(c, s, a).reqs[id].request, RepliesFor(Do(c, s, a).log, id), Do(c, s, a).reqs[id].phase)
  {
    RepliesKept(c, s, a, id);
    var replies := RepliesFor(s.log, id);
    if id in s.reqs {
      assert PhaseRests(c, s.reqs[id].request, replies, s.reqs[id].phase);
      if (a.Call? || a.Add?) && a.id == id {
        CalledOrAdded(c, s, a, replies);
      } else if Mover(a) == Some(id) {
        CarriedOver(c, s, a, replies);
      } else {
        Untouched(c, s, a, id);
      }
    }
  }

  // Once past its run, a request stays so, and is called for no more.
  lemma StaysFinished(c: Config, s: State, a: Action, id: Id)
    requires Enabled(c, s, a) && id in s.reqs && Finished(s.reqs[id].phase)
    ensures id in Do(c, s, a).reqs && Do(c, s, a).reqs[id].request == s.reqs[id].request
    ensures Finished(Do(c, s, a).reqs[id].phase) && !(a.Call? && a.id == id)
  {
  }

  lemma OldEvent(c: Config, s: State, a: Action, e: Event)
    requires Enabled(c, s, a) && EventRests(c, s, e)
    ensures EventRests(c, Do(c, s, a), e)
  {
    if !e.Called? {
      StaysFinished(c, s, a, e.id);
      RepliesKept(c, s, a, e.id);
    }
  }

  lemma NewEvent(c: Config, s: State, a: Action)
    requires WellConfigured(c) && PhasesRest(c, s) && Enabled(c, s, a) && |Do(c, s, a).log| > |s.log|
    ensures EventRests(c, Do(c, s, a), Do(c, s, a).log[|s.log|])
  {
    if !a.Call? {
      PhaseStep(c, s, a, a.id);
    }
  }

  lemma EventStep(c: Config, s: State, a: Action, k: nat)
    requires WellConfigured(c) && PhasesRest(c, s) && EventsRest(c, s) && Enabled(c, s, a) && k < |Do(c, s, a).log|
    ensures EventRests(c, Do(c, s, a), Do(c, s, a).log[k])
  {
    if k < |s.log| {
      OldEvent(c, s, a, s.log[k]);
    } else {
      NewEvent(c, s, a);
    }
  }

  lemma {:induction false} RestsAlways(c: Config, states: seq<State>, actions: seq<Action>, i: nat)
    requires WellConfigured(c) && IsRun(c, states, actions) && i < |states|
    ensures PhasesRest(c, states[i]) && EventsRest(c, states[i])
  {
    if i > 0 {
      var s, a, s' := states[i - 1], actions[i - 1], states[i];
      RestsAlways(c, states, actions, i - 1);
      assert s' == Do(c, s, a);
      forall id
        ensures if id in s'.reqs then PhaseRests(c, s'.reqs[id].request, RepliesFor(s'.log, id), s'.reqs[id].phase)
                else RepliesFor(s'.log, id) == []
      {
        RepliesKept(c, s, a, id);
        if id in s'.reqs {
          PhaseStep(c, s, a, id);
        }
      }
      forall k | 0 <= k < |s'.log| ensures EventRests(c, s', s'.log[k]) {
        EventStep(c, s, a, k);
      }
    }
  }

  lemma EventsAlways(c: Config, states: seq<State>, actions: seq<Action>, i: nat, e: Event)
    requires WellConfigured(c) && IsRun(c, states, actions) && i < |states| && e in states[i].log
    ensures EventRests(c, states[i], e)
  {
    RestsAlways(c, states, actions, i);
    var k :| 0 <= k < |states[i].log| && states[i].log[k] == e;
    assert EventRests(c, states[i], states[i].log[k]);
  }

  // ---------- the theorems ----------

  /** In every run of the service each success is the answer to its own request: the last reply called for it,
      validated for the type it asked for, and the number, cost and latency of all its calls. */
  lemma SuccessIsOwnAnswer(c: Config, states: seq<State>, actions: seq<Action>, i: nat, id: Id, response: Response)
    requires WellConfigured(c) && IsRun(c, states, actions) && i < |states|
    requires Succeeded(id, response) in states[i].log
    ensures id in states[i].reqs
    ensures var r, replies := states[i].reqs[id].request, RepliesFor(states[i].log, id);
            && replies != [] && replies[|replies| - 1].Completed?
            && c.validate(r.payload.doc, replies[|replies| - 1].result.text) == Valid(response.data)
            && Answers(c, r, replies, response)
  {
    EventsAlways(c, states, actions, i, Succeeded(id, response));
  }

  /** So does every access line: a success or a failure is that of all the calls made for the request, and a
      request that ends in any other way made none. */
  lemma LineIsOwnOutcome(c: Config, states: seq<State>, actions: seq<Action>, i: nat, id: Id, o: Outcome)
    requires WellConfigured(c) && IsRun(c, states, actions) && i < |states|
    requires Line(id, o) in states[i].log
    ensures id in states[i].reqs && RestsOn(c, states[i].reqs[id].request, RepliesFor(states[i].log, id), o)
  {
    EventsAlways(c, states, actions, i, Line(id, o));
  }

  lemma RunAsks(c: Config, r: Request, replies: seq<CallOutcome>, p: Pipe)
    requires RunsOn(JobOf(c, r), replies, p) && p.Trying?
    ensures var content := ContentOf(c, r.payload);
            if replies == [] then p.prompt == Ask(content)
            else
              var last := replies[|replies| - 1];
              && last.Completed? && c.validate(r.payload.doc, last.result.text).Invalid?
              && p.prompt == AskAgain(content, last.result.text, c.validate(r.payload.doc, last.result.text).errors)
  {
    TryingAccumulates(JobOf(c, r), Script(replies), |replies|);
    if replies != [] {
      assert JobOf(c, r).Rejects(Script(replies)(|replies| - 1));
    }
  }

  /** A run in progress asks next for its own content, with the text and the errors of its own last reply. */
  lemma AsksForOwnContent(c: Config, states: seq<State>, actions: seq<Action>, i: nat, id: Id)
    requires WellConfigured(c) && IsRun(c, states, actions) && i < |states| && id in states[i].reqs
    requires states[i].reqs[id].phase.Running? && states[i].reqs[id].phase.pipe.Trying?
    ensures var r, replies := states[i].reqs[id].request, RepliesFor(states[i].log, id);
            var content := ContentOf(c, r.payload);
            if replies == [] then states[i].reqs[id].phase.pipe.prompt == Ask(content)
            else
              var last := replies[|replies| - 1];
              && last.Completed? && c.validate(r.payload.doc, last.result.text).Invalid?
              && states[i].reqs[id].phase.pipe.prompt ==
                 AskAgain(content, last.result.text, c.validate(r.payload.doc, last.result.text).errors)
  {
    RestsAlways(c, states, actions, i);
    var r, replies := states[i].reqs[id].request, RepliesFor(states[i].log, id);
    RunAsks(c, r, replies, states[i].reqs[id].phase.pipe);
  }
}
