/** The store over every run of the service: fresh rows survive, replays are faithful, bodies are valid. */
module Replay {
  import opened Schemas
  import opened Idempotency
  import opened Protocol

  // ---------- fresh rows ----------

  // A row young enough to be answered with is the first row ever inserted under its key and stamp.
  ghost predicate Canonical(c: Config, s: State, key: Key, row: Row) {
    Expired(row.created, s.now, c.ttl) || ((key, row.created) in s.firsts && s.firsts[(key, row.created)] == row)
  }

  // While it is young enough, that first row is still in the table.
  ghost predicate FirstsKept(c: Config, s: State) {
    forall key, created :: (key, created) in s.firsts ==>
      && s.firsts[(key, created)].created == created
      && (!Expired(created, s.now, c.ttl) ==> key in s.table && s.table[key] == s.firsts[(key, created)])
  }

  ghost predicate TableCanonical(c: Config, s: State) {
    forall key :: key in s.table ==> Canonical(c, s, key, s.table[key])
  }

  // Deletes that are decided but have not run aim only at rows that are already too old.
  ghost predicate DeletesAimed(c: Config, s: State) {
    && (forall id :: id in s.reqs && s.reqs[id].phase.Expiring? ==> Expired(s.reqs[id].phase.created, s.now, c.ttl))
    && (forall n :: 0 <= n < |s.cutoffs| ==> s.cutoffs[n] <= s.now - c.ttl)
  }

  ghost predicate FoundCanonical(c: Config, s: State) {
    forall id :: id in s.reqs && s.reqs[id].phase.Found? ==>
      Canonical(c, s, KeyOf(s.reqs[id].request), s.reqs[id].phase.row)
  }

  ghost predicate StoreSound(c: Config, s: State) {
    FirstsKept(c, s) && TableCanonical(c, s) && DeletesAimed(c, s) && FoundCanonical(c, s)
  }

  /** No action removes or alters a row whose age is within the TTL: not a sweep, not an insert, and not
      an expiry delete that runs after the row it was meant for is gone, even when stamps collide. */
  lemma FreshRowSurvives(c: Config, s: State, a: Action, key: Key)
    requires DeletesAimed(c, s) && Enabled(c, s, a)
    requires key in s.table && !Expired(s.table[key].created, Do(c, s, a).now, c.ttl)
    ensures key in Do(c, s, a).table && Do(c, s, a).table[key] == s.table[key]
  {
  }

  lemma DeletesAimedStep(c: Config, s: State, a: Action)
    requires DeletesAimed(c, s) && Enabled(c, s, a)
    ensures DeletesAimed(c, Do(c, s, a))
  {
  }

  // Any delete leaves the rest of the table as it was; only Store adds a row.
  lemma TableStep(c: Config, s: State, a: Action, key: Key)
    requires Enabled(c, s, a)
    requires key in Do(c, s, a).table && !(key in s.table && s.table[key] == Do(c, s, a).table[key])
    ensures a.Store? && key !in s.table && key == KeyOf(s.reqs[a.id].request)
    ensures Do(c, s, a).table[key] == s.reqs[a.id].phase.row
  {
  }

  lemma FirstsKeptStep(c: Config, s: State, a: Action)
    requires FirstsKept(c, s) && DeletesAimed(c, s) && Enabled(c, s, a)
    ensures FirstsKept(c, Do(c, s, a))
  {
    var s' := Do(c, s, a);
    forall key, created | (key, created) in s'.firsts
      ensures s'.firsts[(key, created)].created == created
      ensures !Expired(created, s'.now, c.ttl) ==> key in s'.table && s'.table[key] == s'.firsts[(key, created)]
    {
      if (key, created) in s.firsts && !Expired(created, s'.now, c.ttl) {
        FreshRowSurvives(c, s, a, key);
      }
    }
  }

  // History is never rewritten.
  lemma FirstsGrow(c: Config, s: State, a: Action)
    requires Enabled(c, s, a)
    ensures forall k :: k in s.firsts ==> k in Do(c, s, a).firsts && Do(c, s, a).firsts[k] == s.firsts[k]
  {
  }

  lemma TableCanonicalStep(c: Config, s: State, a: Action)
    requires FirstsKept(c, s) && TableCanonical(c, s) && Enabled(c, s, a)
    ensures TableCanonical(c, Do(c, s, a))
  {
  }

  lemma FoundCanonicalStep(c: Config, s: State, a: Action)
    requires TableCanonical(c, s) && FoundCanonical(c, s) && Enabled(c, s, a)
    ensures FoundCanonical(c, Do(c, s, a))
  {
    FirstsGrow(c, s, a);
  }

  lemma StoreSoundStep(c: Config, s: State, a: Action)
    requires StoreSound(c, s) && Enabled(c, s, a)
    ensures StoreSound(c, Do(c, s, a))
  {
    FirstsKeptStep(c, s, a);
    TableCanonicalStep(c, s, a);
    DeletesAimedStep(c, s, a);
    FoundCanonicalStep(c, s, a);
  }

  // ---------- where responses come from ----------

  // An earlier successful run for this key and hash produced the row.
  ghost predicate Earned(c: Config, reqs: map<Id, Req>, log: seq<Event>, key: Key, row: Row) {
    exists i :: 0 <= i < |log| && log[i].Succeeded? && EarnedBy(c, reqs, log[i].id, log[i].response, key, row)
  }

  ghost predicate EarnedBy(c: Config, reqs: map<Id, Req>, id: Id, response: Response, key: Key, row: Row) {
    && id in reqs
    && reqs[id].request.key == Some(key)
    && c.hash(reqs[id].request.payload) == row.hash
    && response == row.response
  }

  // What a request's outcome promises, given the history before it.
  ghost predicate Backed(c: Config, s: State, log: seq<Event>, id: Id, o: Outcome) {
    id in s.reqs &&
    var r := s.reqs[id].request;
    match o
    case Fresh(response) => Succeeded(id, response) in log
    case Replayed(row, at) => FromStore(c, s, log, r, row, at) && row.hash == c.hash(r.payload)
    case Conflict(row, at) => FromStore(c, s, log, r, row, at) && row.hash != c.hash(r.payload)
    case _ => true
  }

  ghost predicate FromStore(c: Config, s: State, log: seq<Event>, r: Request, row: Row, at: real) {
    && r.key.Some?
    && (r.key.value, row.created) in s.firsts && s.firsts[(r.key.value, row.created)] == row
    && Earned(c, s.reqs, log, r.key.value, row)
    && !Expired(row.created, at, c.ttl)
  }

  ghost predicate PhaseBacked(c: Config, s: State, id: Id)
    requires id in s.reqs
  {
    var r := s.reqs[id].request;
    match s.reqs[id].phase
    case Found(row) => r.key.Some? && Earned(c, s.reqs, s.log, r.key.value, row)
    case Expiring(_) => r.key.Some?
    case Won(response) => Succeeded(id, response) in s.log
    case Storing(row) => r.key.Some? && Succeeded(id, row.response) in s.log && row.hash == c.hash(r.payload)
    case Replying(o) => Backed(c, s, s.log, id, o)
    case Logging(o) => Backed(c, s, s.log, id, o)
    case Done(o) => Backed(c, s, s.log, id, o)
    case _ => true
  }

  ghost predicate PhasesBacked(c: Config, s: State) {
    forall id :: id in s.reqs ==> PhaseBacked(c, s, id)
  }

  ghost predicate TableEarned(c: Config, s: State) {
    forall key :: key in s.table ==> Earned(c, s.reqs, s.log, key, s.table[key])
  }

  ghost predicate LinesBacked(c: Config, s: State) {
    forall i :: 0 <= i < |s.log| && s.log[i].Line? ==> Backed(c, s, s.log[..i], s.log[i].id, s.log[i].outcome)
  }

  ghost predicate SuccessValid(s: State, e: Event)
    requires e.Succeeded?
  {
    && e.id in s.reqs
    && RecordOk(e.response.data)
    && DocTypeOf(e.response.data) == s.reqs[e.id].request.payload.doc
  }

  ghost predicate SuccessesValid(s: State) {
    forall i :: 0 <= i < |s.log| && s.log[i].Succeeded? ==> SuccessValid(s, s.log[i])
  }

  // A finished run holds a record its validator accepted.
  ghost predicate PipeValid(req: Req) {
    req.phase.Running? && req.phase.pipe.Accepted? ==>
      && RecordOk(req.phase.pipe.record)
      && DocTypeOf(req.phase.pipe.record) == req.request.payload.doc
  }

  ghost predicate PipesValid(s: State) {
    forall id :: id in s.reqs ==> PipeValid(s.reqs[id])
  }

  // The phases of a request that has passed the budget check.
  predicate Ran(p: Phase) {
    match p
    case Running(_) => true
    case Won(_) => true
    case Storing(_) => true
    case Replying(o) => RunOutcome(o)
    case Logging(o) => RunOutcome(o)
    case Done(o) => RunOutcome(o)
    case _ => false
  }

  predicate RunOutcome(o: Outcome) {
    o.Fresh? || o.Failed? || o.Unstored?
  }

  ghost predicate CallsFromRuns(s: State) {
    forall i :: 0 <= i < |s.log| && s.log[i].Called? ==> s.log[i].id in s.reqs && Ran(s.reqs[s.log[i].id].phase)
  }

  ghost predicate LinesDone(s: State) {
    forall i :: 0 <= i < |s.log| && s.log[i].Line? ==>
      s.log[i].id in s.reqs && s.reqs[s.log[i].id].phase == Done(s.log[i].outcome)
  }

  ghost predicate Provenance(c: Config, s: State) {
    && PhasesBacked(c, s) && TableEarned(c, s) && LinesBacked(c, s)
    && SuccessesValid(s) && PipesValid(s) && CallsFromRuns(s) && LinesDone(s)
  }

  // Requests keep what they asked for, and history only grows.
  ghost predicate Extends(s: State, s': State) {
    && (forall id :: id in s.reqs ==> id in s'.reqs && s'.reqs[id].request == s.reqs[id].request)
    && s.log <= s'.log
    && (forall k :: k in s.firsts ==> k in s'.firsts && s'.firsts[k] == s.firsts[k])
  }

  lemma RequestsKept(c: Config, s: State, a: Action)
    requires Enabled(c, s, a)
    ensures forall id :: id in s.reqs ==> id in Do(c, s, a).reqs && Do(c, s, a).reqs[id].request == s.reqs[id].request
  {
  }

  lemma LogKept(c: Config, s: State, a: Action)
    requires Enabled(c, s, a)
    ensures s.log <= Do(c, s, a).log
  {
  }

  lemma StepExtends(c: Config, s: State, a: Action)
    requires Enabled(c, s, a)
    ensures Extends(s, Do(c, s, a))
  {
    RequestsKept(c, s, a);
    LogKept(c, s, a);
    FirstsGrow(c, s, a);
  }

  // At most one request changes in a step.
  lemma OthersUnchanged(c: Config, s: State, a: Action)
    requires Enabled(c, s, a)
    ensures forall id :: id in Do(c, s, a).reqs ==>
              (id in s.reqs && Do(c, s, a).reqs[id] == s.reqs[id]) || ((a.Arrive? || Moves(a)) && id == a.id)
  {
  }

  predicate Moves(a: Action) {
    !(a.Tick? || a.PlanSweep? || a.RunSweep? || a.Arrive?)
  }

  lemma EarnedGrows(c: Config, s: State, s': State, log: seq<Event>, log': seq<Event>, key: Key, row: Row)
    requires Extends(s, s') && log <= log' && Earned(c, s.reqs, log, key, row)
    ensures Earned(c, s'.reqs, log', key, row)
  {
  }

  lemma BackedGrows(c: Config, s: State, s': State, log: seq<Event>, log': seq<Event>, id: Id, o: Outcome)
    requires Extends(s, s') && log <= log' && Backed(c, s, log, id, o)
    ensures Backed(c, s', log', id, o)
  {
  }

  lemma PhaseBackedGrows(c: Config, s: State, s': State, id: Id)
    requires Extends(s, s') && id in s.reqs && s'.reqs[id] == s.reqs[id] && PhaseBacked(c, s, id)
    ensures PhaseBacked(c, s', id)
  {
  }

  lemma LookBacked(c: Config, s: State, id: Id)
    requires TableEarned(c, s) && Enabled(c, s, Look(id))
    ensures PhaseBacked(c, Do(c, s, Look(id)), id)
  {
  }

  // The verdict on a row that was found is about the canonical row, at the clock of the expiry test.
  lemma TestBacked(c: Config, s: State, id: Id)
    requires FoundCanonical(c, s) && Enabled(c, s, Test(id)) && PhaseBacked(c, s, id)
    ensures PhaseBacked(c, Do(c, s, Test(id)), id)
  {
  }

  lemma OutcomeCarried(c: Config, s: State, a: Action)
    requires (a.Release? || a.Log?) && Enabled(c, s, a) && PhaseBacked(c, s, a.id)
    ensures PhaseBacked(c, Do(c, s, a), a.id)
  {
    var s' := Do(c, s, a);
    StepExtends(c, s, a);
    BackedGrows(c, s, s', s.log, s'.log, a.id, s.reqs[a.id].phase.outcome);
  }

  lemma AddBacked(c: Config, s: State, id: Id)
    requires Enabled(c, s, Add(id))
    ensures PhaseBacked(c, Do(c, s, Add(id)), id)
  {
  }

  lemma OthersBacked(c: Config, s: State, a: Action)
    requires Moves(a) && !(a.Look? || a.Test? || a.Add? || a.Release? || a.Log?)
    requires Enabled(c, s, a) && PhaseBacked(c, s, a.id)
    ensures a.id in Do(c, s, a).reqs && PhaseBacked(c, Do(c, s, a), a.id)
  {
  }

  // The moved request is backed in its new phase.
  lemma MovedBacked(c: Config, s: State, a: Action)
    requires FoundCanonical(c, s) && TableEarned(c, s) && Enabled(c, s, a) && Moves(a) && PhaseBacked(c, s, a.id)
    ensures a.id in Do(c, s, a).reqs && PhaseBacked(c, Do(c, s, a), a.id)
  {
    match a
    case Look(id) => LookBacked(c, s, id);
    case Test(id) => TestBacked(c, s, id);
    case Add(id) => AddBacked(c, s, id);
    case Release(id) => OutcomeCarried(c, s, a);
    case Log(id) => OutcomeCarried(c, s, a);
    case _ => OthersBacked(c, s, a);
  }

  lemma PhasesBackedStep(c: Config, s: State, a: Action)
    requires StoreSound(c, s) && Provenance(c, s) && Enabled(c, s, a)
    ensures PhasesBacked(c, Do(c, s, a))
  {
    var s' := Do(c, s, a);
    StepExtends(c, s, a);
    OthersUnchanged(c, s, a);
    forall id | id in s'.reqs
      ensures PhaseBacked(c, s', id)
    {
      if id in s.reqs && s'.reqs[id] == s.reqs[id] {
        assert PhaseBacked(c, s, id);
        PhaseBackedGrows(c, s, s', id);
      } else if Moves(a) {
        assert PhaseBacked(c, s, a.id);
        MovedBacked(c, s, a);
      }
    }
  }

  lemma TableEarnedStep(c: Config, s: State, a: Action)
    requires Provenance(c, s) && Enabled(c, s, a)
    ensures TableEarned(c, Do(c, s, a))
  {
    var s' := Do(c, s, a);
    StepExtends(c, s, a);
    forall key | key in s'.table
      ensures Earned(c, s'.reqs, s'.log, key, s'.table[key])
    {
      if key in s.table && s.table[key] == s'.table[key] {
        EarnedGrows(c, s, s', s.log, s'.log, key, s.table[key]);
      } else {
        TableStep(c, s, a, key);
        assert PhaseBacked(c, s, a.id);
        var row := s.reqs[a.id].phase.row;
        var i :| 0 <= i < |s.log| && s.log[i] == Succeeded(a.id, row.response);
        assert EarnedBy(c, s.reqs, s.log[i].id, s.log[i].response, key, row);
        EarnedGrows(c, s, s', s.log, s'.log, key, row);
      }
    }
  }

  // The line a Log writes is backed by the history before it.
  lemma NewLineBacked(c: Config, s: State, id: Id)
    requires Enabled(c, s, Log(id)) && PhaseBacked(c, s, id)
    ensures Backed(c, Do(c, s, Log(id)), s.log, id, s.reqs[id].phase.outcome)
  {
  }

  lemma LogGrowth(c: Config, s: State, a: Action)
    requires Enabled(c, s, a)
    ensures var log' := Do(c, s, a).log;
            log' == s.log || (|log'| == |s.log| + 1 && log'[..|s.log|] == s.log
                              && (log'[|s.log|].Line? ==>
                                    a.Log? && log'[|s.log|] == Line(a.id, s.reqs[a.id].phase.outcome)))
  {
  }

  lemma LinesBackedStep(c: Config, s: State, a: Action)
    requires LinesBacked(c, s) && PhasesBacked(c, s) && Enabled(c, s, a)
    ensures LinesBacked(c, Do(c, s, a))
  {
    var s' := Do(c, s, a);
    StepExtends(c, s, a);
    LogGrowth(c, s, a);
    forall i | 0 <= i < |s'.log| && s'.log[i].Line?
      ensures Backed(c, s', s'.log[..i], s'.log[i].id, s'.log[i].outcome)
    {
      assert s'.log[..i] == s.log[..i];
      if i < |s.log| {
        assert s'.log[i] == s.log[i];
        BackedGrows(c, s, s', s.log[..i], s.log[..i], s.log[i].id, s.log[i].outcome);
      } else {
        assert s.log[..i] == s.log && PhaseBacked(c, s, a.id);
        NewLineBacked(c, s, a.id);
      }
    }
  }

  lemma PipesValidStep(c: Config, s: State, a: Action)
    requires WellConfigured(c) && PipesValid(s) && Enabled(c, s, a)
    ensures PipesValid(Do(c, s, a))
  {
  }

  lemma SuccessesValidStep(c: Config, s: State, a: Action)
    requires PipesValid(s) && SuccessesValid(s) && Enabled(c, s, a)
    ensures SuccessesValid(Do(c, s, a))
  {
    var s' := Do(c, s, a);
    RequestsKept(c, s, a);
    if a.Add? {
      assert PipeValid(s.reqs[a.id]);
    }
    forall i | 0 <= i < |s'.log| && s'.log[i].Succeeded?
      ensures SuccessValid(s', s'.log[i])
    {
      if i < |s.log| {
        LogKept(c, s, a);
        assert SuccessValid(s, s.log[i]);
      }
    }
  }

  // A request that has passed the budget check never comes back before it.
  lemma RanStays(c: Config, s: State, a: Action, id: Id)
    requires Enabled(c, s, a) && id in s.reqs && Ran(s.reqs[id].phase)
    ensures id in Do(c, s, a).reqs && Ran(Do(c, s, a).reqs[id].phase)
  {
  }

  lemma CallsFromRunsStep(c: Config, s: State, a: Action)
    requires CallsFromRuns(s) && Enabled(c, s, a)
    ensures CallsFromRuns(Do(c, s, a))
  {
    var s' := Do(c, s, a);
    StepExtends(c, s, a);
    forall i | 0 <= i < |s'.log| && s'.log[i].Called?
      ensures s'.log[i].id in s'.reqs && Ran(s'.reqs[s'.log[i].id].phase)
    {
      if i < |s.log| {
        RanStays(c, s, a, s.log[i].id);
      }
    }
  }

  lemma LinesDoneStep(c: Config, s: State, a: Action)
    requires LinesDone(s) && Enabled(c, s, a)
    ensures LinesDone(Do(c, s, a))
  {
  }

  ghost predicate Sound(c: Config, s: State) {
    StoreSound(c, s) && Provenance(c, s)
  }

  lemma SoundStep(c: Config, s: State, a: Action)
    requires WellConfigured(c) && Sound(c, s) && Enabled(c, s, a)
    ensures Sound(c, Do(c, s, a))
  {
    StoreSoundStep(c, s, a);
    PhasesBackedStep(c, s, a);
    TableEarnedStep(c, s, a);
    LinesBackedStep(c, s, a);
    PipesValidStep(c, s, a);
    SuccessesValidStep(c, s, a);
    CallsFromRunsStep(c, s, a);
    LinesDoneStep(c, s, a);
  }

  lemma {:induction false} SoundAlways(c: Config, states: seq<State>, actions: seq<Action>, i: nat)
    requires WellConfigured(c) && IsRun(c, states, actions) && i < |states|
    ensures Sound(c, states[i])
  {
    if i > 0 {
      SoundAlways(c, states, actions, i - 1);
      SoundStep(c, states[i - 1], actions[i - 1]);
    }
  }

  // ---------- the theorems ----------

  lemma ClockStep(c: Config, s: State, a: Action)
    requires Enabled(c, s, a)
    ensures s.now <= Do(c, s, a).now
  {
  }

  lemma DeletesAimedAlways(c: Config, states: seq<State>, actions: seq<Action>, i: nat)
    requires WellConfigured(c) && IsRun(c, states, actions) && i < |states|
    ensures DeletesAimed(c, states[i])
  {
    SoundAlways(c, states, actions, i);
  }

  /** While a stored row is young enough, every state of the run still holds it, unaltered. */
  lemma {:induction false} FreshRowsPersist(c: Config, states: seq<State>, actions: seq<Action>,
                                            i: nat, j: nat, key: Key)
    requires WellConfigured(c) && IsRun(c, states, actions) && i <= j < |states|
    requires key in states[i].table && !Expired(states[i].table[key].created, states[j].now, c.ttl)
    ensures key in states[j].table && states[j].table[key] == states[i].table[key]
  {
    if i < j {
      var s, a := states[j - 1], actions[j - 1];
      ClockStep(c, s, a);
      FreshRowsPersist(c, states, actions, i, j - 1, key);
      DeletesAimedAlways(c, states, actions, j - 1);
      FreshRowSurvives(c, s, a, key);
    }
  }

  /** So a lookup made while a stored row is young finds that row, whatever ran in between. */
  lemma LookupFinds(c: Config, states: seq<State>, actions: seq<Action>, i: nat, j: nat, key: Key)
    requires WellConfigured(c) && IsRun(c, states, actions) && i <= j < |actions|
    requires key in states[i].table && !Expired(states[i].table[key].created, states[j].now, c.ttl)
    requires actions[j].Look? && states[j].reqs[actions[j].id].request.key == Some(key)
    ensures states[j + 1].reqs[actions[j].id].phase == Found(states[i].table[key])
  {
    FreshRowsPersist(c, states, actions, i, j, key);
    assert states[j + 1] == Do(c, states[j], actions[j]);
  }

  // The answer a request was given from the store, if it has been given one.
  function StoreAnswer(p: Phase): Option<Outcome> {
    match p
    case Replying(o) => if o.Replayed? || o.Conflict? then Some(o) else None
    case Logging(o) => if o.Replayed? || o.Conflict? then Some(o) else None
    case Done(o) => if o.Replayed? || o.Conflict? then Some(o) else None
    case _ => None
  }

  // Step m tested the age of this row for this request, at this time.
  ghost predicate TestsAt(states: seq<State>, actions: seq<Action>, m: nat, id: Id, row: Row, at: real)
    requires |states| == |actions| + 1 && m < |actions|
  {
    actions[m] == Test(id) && states[m].now == at && id in states[m].reqs && states[m].reqs[id].phase == Found(row)
  }

  lemma AnswerStep(c: Config, s: State, a: Action, id: Id)
    requires Enabled(c, s, a) && id in Do(c, s, a).reqs && StoreAnswer(Do(c, s, a).reqs[id].phase).Some?
    ensures id in s.reqs
    ensures var o := StoreAnswer(Do(c, s, a).reqs[id].phase).value;
            StoreAnswer(s.reqs[id].phase) == Some(o)
            || (a == Test(id) && s.now == o.at && s.reqs[id].phase == Found(o.row))
  {
  }

  // An answer from the store was decided by an expiry test of its row, at the clock it records.
  lemma {:induction false} AnswerTested(c: Config, states: seq<State>, actions: seq<Action>, i: nat, id: Id)
    returns (m: nat)
    requires IsRun(c, states, actions) && i < |states|
    requires id in states[i].reqs && StoreAnswer(states[i].reqs[id].phase).Some?
    ensures m < i
    ensures var o := StoreAnswer(states[i].reqs[id].phase).value; TestsAt(states, actions, m, id, o.row, o.at)
  {
    var s, a, o := states[i - 1], actions[i - 1], StoreAnswer(states[i].reqs[id].phase).value;
    assert states[i] == Do(c, s, a);
    AnswerStep(c, s, a, id);
    if StoreAnswer(s.reqs[id].phase) == Some(o) {
      m := AnswerTested(c, states, actions, i - 1, id);
    } else {
      m := i - 1;
    }
  }

  // Nothing was called on behalf of this request.
  ghost predicate NoCalls(s: State, id: Id) {
    forall i :: 0 <= i < |s.log| ==> !(s.log[i].Called? && s.log[i].id == id)
  }

  /** Every answer from the store is faithful. The row a replay or a conflict rests on was of age at most
      the TTL when a step of this run tested it for this request, and was produced by a run that had already
      succeeded under the same key and the row's hash. A replay's hash is the request's own, a conflict's is
      not, and neither makes a provider call. */
  lemma StoreAnswersFaithful(c: Config, states: seq<State>, actions: seq<Action>, i: nat, j: nat)
    requires WellConfigured(c) && IsRun(c, states, actions) && i < |states|
    requires j < |states[i].log| && states[i].log[j].Line?
    requires states[i].log[j].outcome.Replayed? || states[i].log[j].outcome.Conflict?
    ensures
      var s, id, o := states[i], states[i].log[j].id, states[i].log[j].outcome;
      && id in s.reqs && s.reqs[id].request.key.Some?
      && Earned(c, s.reqs, s.log[..j], s.reqs[id].request.key.value, o.row)
      && (exists m :: 0 <= m < i && TestsAt(states, actions, m, id, o.row, o.at))
      && o.at - o.row.created <= c.ttl
      && (o.Replayed? <==> o.row.hash == c.hash(s.reqs[id].request.payload))
      && NoCalls(s, id)
  {
    SoundAlways(c, states, actions, i);
    var s := states[i];
    assert Backed(c, s, s.log[..j], s.log[j].id, s.log[j].outcome);
    assert s.reqs[s.log[j].id].phase == Done(s.log[j].outcome);
    var m := AnswerTested(c, states, actions, i, s.log[j].id);
  }

  /** All answers given from one stored row agree: the same key and the same stamp mean the same row. */
  lemma StoreAnswersAgree(c: Config, states: seq<State>, actions: seq<Action>, i: nat, j: nat, k: nat)
    requires WellConfigured(c) && IsRun(c, states, actions) && i < |states|
    requires j < |states[i].log| && states[i].log[j].Line? && k < |states[i].log| && states[i].log[k].Line?
    requires states[i].log[j].outcome.Replayed? || states[i].log[j].outcome.Conflict?
    requires states[i].log[k].outcome.Replayed? || states[i].log[k].outcome.Conflict?
    requires states[i].log[j].id in states[i].reqs && states[i].log[k].id in states[i].reqs
    requires states[i].reqs[states[i].log[j].id].request.key == states[i].reqs[states[i].log[k].id].request.key
    requires states[i].log[j].outcome.row.created == states[i].log[k].outcome.row.created
    ensures states[i].log[j].outcome.row == states[i].log[k].outcome.row
  {
    SoundAlways(c, states, actions, i);
    var s := states[i];
    assert Backed(c, s, s.log[..j], s.log[j].id, s.log[j].outcome);
    assert Backed(c, s, s.log[..k], s.log[k].id, s.log[k].outcome);
  }

  // No two requests so far have different payloads with one hash.
  ghost predicate NoCollision(c: Config, s: State) {
    forall a, b :: a in s.reqs && b in s.reqs ==>
      var p, q := s.reqs[a].request.payload, s.reqs[b].request.payload;
      c.hash(p) == c.hash(q) ==> p == q
  }

  /** Every 200 body, fresh or replayed, satisfies its schema's relations. Unless two payloads of the run
      collide, it is a record of the very schema the request asked for. */
  lemma BodiesValid(c: Config, states: seq<State>, actions: seq<Action>, i: nat, j: nat)
    requires WellConfigured(c) && IsRun(c, states, actions) && i < |states|
    requires j < |states[i].log| && states[i].log[j].Line?
    requires states[i].log[j].outcome.Fresh? || states[i].log[j].outcome.Replayed?
    ensures var o := states[i].log[j].outcome;
            var data := if o.Fresh? then o.response.data else o.row.response.data;
            && RecordOk(data)
            && (NoCollision(c, states[i]) ==>
                  && states[i].log[j].id in states[i].reqs
                  && DocTypeOf(data) == states[i].reqs[states[i].log[j].id].request.payload.doc)
  {
    SoundAlways(c, states, actions, i);
    var s, id, o := states[i], states[i].log[j].id, states[i].log[j].outcome;
    assert Backed(c, s, s.log[..j], id, o);
    if o.Fresh? {
      var k :| 0 <= k < j && s.log[k] == Succeeded(id, o.response);
    } else {
      var key := s.reqs[id].request.key.value;
      var k :| 0 <= k < |s.log[..j]| && s.log[..j][k].Succeeded?
               && EarnedBy(c, s.reqs, s.log[..j][k].id, s.log[..j][k].response, key, o.row);
      assert s.log[..j][k] == s.log[k];
    }
  }
}
