/** Every request can end: no slot is ever lost for good. */
module Progress {
  import opened Text
  import opened Schemas
  import opened Provider
  import opened Protocol
  import opened Spending
  import opened Refinement

  // How many kinds of step a request can still be from its end.
  function Rank(p: Phase): nat {
    match p
    case Queued => 11
    case Admitted => 10
    case Found(_) => 9
    case Expiring(_) => 8
    case Missed => 7
    case Running(pipe) => if pipe.Trying? then 6 else 5
    case Won(_) => 4
    case Storing(_) => 3
    case Replying(_) => 2
    case Logging(_) => 1
    case Done(_) => 0
  }

  // A step that brings a request nearer to its end: the next call fails, the rest goes as it should.
  function NextStep(c: Config, req: Req, id: Id): Action
    requires !req.phase.Done?
  {
    match req.phase
    case Queued => Admit(id)
    case Admitted => if req.request.key.Some? then Look(id) else Skip(id)
    case Found(_) => Test(id)
    case Expiring(_) => Drop(id, true, false)
    case Missed => if Blank(ContentOf(c, req.request.payload)) then Reject(id) else Check(id)
    case Running(pipe) => if pipe.Trying? then Call(id, Raised(Error, 0.0)) else Add(id)
    case Won(_) => if req.request.key.Some? then Stamp(id) else Reply(id)
    case Storing(_) => Store(id, true, false)
    case Replying(_) => Release(id)
    case Logging(_) => Log(id)
  }

  lemma StepNearer(c: Config, s: State, id: Id)
    requires id in s.reqs && !s.reqs[id].phase.Done? && (s.reqs[id].phase.Queued? ==> s.borrowed < c.slots)
    ensures var a := NextStep(c, s.reqs[id], id);
            && Enabled(c, s, a) && Mover(a) == Some(id)
            && id in Do(c, s, a).reqs && Rank(Do(c, s, a).reqs[id].phase) < Rank(s.reqs[id].phase)
            && !Do(c, s, a).reqs[id].phase.Queued?
  {
  }

  // One request is taken to its end; the others stay as they are.
  lemma {:induction false} FinishOne(c: Config, s: State, id: Id) returns (s': State)
    requires SlotsCounted(c, s) && id in s.reqs && (s.reqs[id].phase.Queued? ==> s.borrowed < c.slots)
    ensures Reaches(c, s, s') && SlotsCounted(c, s')
    ensures Only(s, id, s.reqs[id].request, s') && s'.reqs[id].phase.Done?
    decreases Rank(s.reqs[id].phase)
  {
    var r := s.reqs[id].request;
    Stay(c, s);
    assert s.reqs[id := Req(r, s.reqs[id].phase)] == s.reqs;
    if s.reqs[id].phase.Done? {
      s' := s;
    } else {
      var a := NextStep(c, s.reqs[id], id);
      StepNearer(c, s, id);
      var s1 := Go(c, s, id, r, s, a);
      SlotsStep(c, s, a);
      s' := FinishOne(c, s1, id);
      Then(c, s, s1, s');
      assert s'.reqs == s.reqs[id := s'.reqs[id]];
    }
  }

  ghost function Unfinished(s: State): set<Id> {
    set id | id in s.reqs && !s.reqs[id].phase.Done?
  }

  // A request that can be taken to its end now: one past the queue, or one waiting when all slots are free.
  lemma CanFinishOne(c: Config, s: State) returns (id: Id)
    requires SlotsCounted(c, s) && c.slots >= 1 && Unfinished(s) != {}
    ensures id in Unfinished(s) && (s.reqs[id].phase.Queued? ==> s.borrowed < c.slots)
  {
    if past :| past in Unfinished(s) && !s.reqs[past].phase.Queued? {
      id := past;
    } else {
      id :| id in Unfinished(s);
      assert Members(Holders, s.reqs) == {};
    }
  }

  lemma {:induction false} FinishAll(c: Config, s: State) returns (s': State)
    requires SlotsCounted(c, s) && c.slots >= 1
    ensures Reaches(c, s, s') && SlotsCounted(c, s') && Idle(s')
    ensures s'.reqs.Keys == s.reqs.Keys
    decreases |Unfinished(s)|
  {
    if Unfinished(s) == {} {
      s' := s;
      Stay(c, s);
      assert forall id :: id in s.reqs ==> id !in Unfinished(s);
    } else {
      var id := CanFinishOne(c, s);
      var s1 := FinishOne(c, s, id);
      assert Unfinished(s1) == Unfinished(s) - {id};
      s' := FinishAll(c, s1);
      Then(c, s, s1, s');
    }
  }

  /** From every state of every run, given a slot, there is a continuation in which every request that has
      arrived finishes and every slot is given back. */
  lemma EveryRequestCanFinish(c: Config, states: seq<State>, actions: seq<Action>, i: nat) returns (s: State)
    requires WellConfigured(c) && c.slots >= 1 && IsRun(c, states, actions) && i < |states|
    ensures Reaches(c, states[i], s)
    ensures s.reqs.Keys == states[i].reqs.Keys && Idle(s) && s.borrowed == 0
  {
    AccountsAlways(c, states, actions, i);
    s := FinishAll(c, states[i]);
    assert Members(Holders, s.reqs) == {};
  }
}
