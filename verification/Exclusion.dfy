/** When a success is produced once: with one slot, and not with two. */
module Exclusion {
  import opened Text
  import opened Schemas
  import opened Provider
  import opened Pipeline
  import opened Idempotency
  import opened Sums
  import opened Protocol
  import opened Spending
  import opened Replay
  import opened Refinement

  // No store write is lost.
  ghost predicate NoLostWrite(actions: seq<Action>) {
    forall i :: 0 <= i < |actions| && actions[i].Store? ==> actions[i].committed
  }

  // ---------- one slot ----------

  lemma OneHolder(c: Config, s: State, a: Id, b: Id)
    requires SlotsCounted(c, s) && c.slots <= 1
    requires a in s.reqs && Belongs(Holders, s.reqs[a].phase) && b in s.reqs && Belongs(Holders, s.reqs[b].phase)
    ensures a == b
  {
    SubsetSize({a, b}, Members(Holders, s.reqs));
  }

  // What the request holding the slot knows of its key's row.
  ghost predicate RowKnown(s: State, key: Key, p: Phase) {
    match p
    case Found(row) => key in s.table ==> s.table[key] == row
    case Expiring(created) => key in s.table ==> s.table[key].created == created
    case Missed => key !in s.table
    case Running(_) => key !in s.table
    case Won(_) => key !in s.table
    case Storing(_) => key !in s.table
    case _ => true
  }

  // Every row ever inserted under the key was too old when the run began, and stays so.
  ghost predicate PastOld(c: Config, s: State, key: Key, p: Phase) {
    match p
    case Missed => AllOld(c, s, key, s.now)
    case Running(_) => AllOld(c, s, key, s.now)
    case Won(_) => AllOld(c, s, key, s.now)
    case Storing(row) => AllOld(c, s, key, row.created)
    case _ => true
  }

  ghost predicate AllOld(c: Config, s: State, key: Key, now: real) {
    forall created :: (key, created) in s.firsts ==> Expired(created, now, c.ttl)
  }

  ghost predicate Lone(c: Config, s: State, id: Id)
    requires id in s.reqs
  {
    var req := s.reqs[id];
    var key := req.request.key;
    key.Some? ==> RowKnown(s, key.value, req.phase) && PastOld(c, s, key.value, req.phase)
  }

  ghost predicate AllLone(c: Config, s: State) {
    forall id :: id in s.reqs ==> Lone(c, s, id)
  }

  // A key with no young row in the table has only old rows behind it.
  lemma NoneYoung(c: Config, s: State, key: Key)
    requires FirstsKept(c, s)
    requires key in s.table ==> Expired(s.table[key].created, s.now, c.ttl)
    ensures AllOld(c, s, key, s.now)
  {
  }

  lemma LookLone(c: Config, s: State, id: Id)
    requires StoreSound(c, s) && Enabled(c, s, Look(id))
    ensures Lone(c, Do(c, s, Look(id)), id)
  {
    var key := s.reqs[id].request.key.value;
    if key !in s.table {
      NoneYoung(c, s, key);
    }
  }

  lemma DropLone(c: Config, s: State, id: Id, committed: bool, raised: bool)
    requires StoreSound(c, s) && Enabled(c, s, Drop(id, committed, raised)) && Lone(c, s, id)
    ensures Lone(c, Do(c, s, Drop(id, committed, raised)), id)
  {
    if s.reqs[id].request.key.Some? {
      NoneYoung(c, s, s.reqs[id].request.key.value);
    }
  }

  // The request that takes the step.
  lemma MoverLone(c: Config, s: State, a: Action)
    requires StoreSound(c, s) && Enabled(c, s, a) && Moves(a) && a.id in s.reqs && Lone(c, s, a.id)
    ensures a.id in Do(c, s, a).reqs && Lone(c, Do(c, s, a), a.id)
  {
    match a
    case Look(id) => LookLone(c, s, id);
    case Drop(id, committed, raised) => DropLone(c, s, id, committed, raised);
    case _ =>
  }

  // Nothing but a store write adds to the table or to its history.
  lemma NothingAdded(c: Config, s: State, a: Action)
    requires Enabled(c, s, a) && !a.Store?
    ensures var s' := Do(c, s, a);
            && (forall key :: key in s'.table ==> key in s.table && s'.table[key] == s.table[key])
            && s'.firsts == s.firsts && s.now <= s'.now
  {
  }

  // A request that keeps the slot while something else happens.
  lemma OtherLone(c: Config, s: State, a: Action, id: Id)
    requires SlotsCounted(c, s) && c.slots <= 1 && Enabled(c, s, a)
    requires id in s.reqs && Lone(c, s, id) && id in Do(c, s, a).reqs && Do(c, s, a).reqs[id] == s.reqs[id]
    requires a.Store? ==> a.id != id
    ensures Lone(c, Do(c, s, a), id)
  {
    if Belongs(Holders, s.reqs[id].phase) {
      if a.Store? {
        OneHolder(c, s, a.id, id);
      } else {
        NothingAdded(c, s, a);
      }
    }
  }

  lemma LoneStep(c: Config, s: State, a: Action)
    requires SlotsCounted(c, s) && c.slots <= 1 && StoreSound(c, s) && AllLone(c, s) && Enabled(c, s, a)
    ensures AllLone(c, Do(c, s, a))
  {
    var s' := Do(c, s, a);
    OthersUnchanged(c, s, a);
    forall id | id in s'.reqs ensures Lone(c, s', id) {
      if id in s.reqs && Moves(a) && a.id == id {
        MoverLone(c, s, a);
      } else if id in s.reqs {
        OtherLone(c, s, a, id);
      }
    }
  }

  lemma {:induction false} LoneAlways(c: Config, states: seq<State>, actions: seq<Action>, i: nat)
    requires WellConfigured(c) && c.slots <= 1 && IsRun(c, states, actions) && i < |states|
    ensures AllLone(c, states[i])
  {
    if i > 0 {
      LoneAlways(c, states, actions, i - 1);
      AccountsAlways(c, states, actions, i - 1);
      SoundAlways(c, states, actions, i - 1);
      LoneStep(c, states[i - 1], actions[i - 1]);
    }
  }

  // Step i stamps a success under this key.
  ghost predicate StampsAt(c: Config, states: seq<State>, actions: seq<Action>, i: nat, key: Key)
    requires IsRun(c, states, actions) && i < |actions|
  {
    actions[i].Stamp? && states[i].reqs[actions[i].id].request.key == Some(key)
  }

  // A stamped success is in the history of the store, or about to be.
  ghost predicate Booked(s: State, id: Id, key: Key, created: real) {
    || (key, created) in s.firsts
    || (id in s.reqs && s.reqs[id].request.key == Some(key) && s.reqs[id].phase.Storing?
        && s.reqs[id].phase.row.created == created)
  }

  lemma BookedStep(c: Config, s: State, a: Action, id: Id, key: Key, created: real)
    requires AllLone(c, s) && Enabled(c, s, a) && Booked(s, id, key, created)
    requires a.Store? ==> a.committed
    ensures Booked(Do(c, s, a), id, key, created)
  {
    if (key, created) in s.firsts {
      FirstsGrow(c, s, a);
    } else if a.Store? && a.id == id {
      assert Lone(c, s, id);
    } else {
      OthersUnchanged(c, s, a);
      RequestsKept(c, s, a);
    }
  }

  lemma {:induction false} StampBooked(c: Config, states: seq<State>, actions: seq<Action>, i: nat, j: nat, key: Key)
    requires WellConfigured(c) && c.slots <= 1 && IsRun(c, states, actions) && NoLostWrite(actions)
    requires i < j < |states| && StampsAt(c, states, actions, i, key)
    ensures Booked(states[j], actions[i].id, key, states[i].now)
  {
    var s, a := states[j - 1], actions[j - 1];
    assert states[j] == Do(c, s, a);
    if j > i + 1 {
      StampBooked(c, states, actions, i, j - 1, key);
      LoneAlways(c, states, actions, j - 1);
      BookedStep(c, s, a, actions[i].id, key, states[i].now);
    }
  }

  /** With one slot and no lost write: after a success is stamped under a key, no provider call is made and
      no other success stamped under that key until more than the TTL later. */
  lemma OneSlotOnce(c: Config, states: seq<State>, actions: seq<Action>, i: nat, j: nat, key: Key)
    requires WellConfigured(c) && c.slots <= 1 && IsRun(c, states, actions) && NoLostWrite(actions)
    requires i < j < |actions| && StampsAt(c, states, actions, i, key)
    requires (actions[j].Call? || actions[j].Stamp?) && states[j].reqs[actions[j].id].request.key == Some(key)
    ensures states[j].now - states[i].now > c.ttl
  {
    var s, id := states[j], actions[j].id;
    StampBooked(c, states, actions, i, j, key);
    LoneAlways(c, states, actions, j);
    assert Lone(c, s, id);
    if (key, states[i].now) !in s.firsts {
      AccountsAlways(c, states, actions, j);
      OneHolder(c, s, actions[i].id, id);
    }
  }

  // ---------- two slots ----------

  // The actions that lead there, none of which stores anything.
  ghost predicate Leads(c: Config, s: State, acts: seq<Action>, s': State) {
    Steps(c, s, acts, s') && forall i :: 0 <= i < |acts| ==> !acts[i].Store?
  }

  lemma LeadsOn(c: Config, s: State, acts: seq<Action>, s1: State, a: Action, s2: State)
    requires Leads(c, s, acts, s1) && Enabled(c, s1, a) && s2 == Do(c, s1, a) && !a.Store?
    ensures Leads(c, s, acts + [a], s2)
  {
    assert Steps(c, s1, [a], s2) by {
      assert [a][1..] == [];
    }
    StepsConcat(c, s, acts, s1, [a], s2);
  }

  // Both requests take the same kind of step, neither seeing the other's effect.
  lemma Both(c: Config, s: State, acts: seq<Action>, s1: State, a: Action, b: Action, s3: State)
    requires Leads(c, s, acts, s1) && Enabled(c, s1, a) && Enabled(c, Do(c, s1, a), b) && s3 == Do(c, Do(c, s1, a), b)
    requires !a.Store? && !b.Store?
    ensures Leads(c, s, acts + [a] + [b], s3)
  {
    LeadsOn(c, s, acts, s1, a, Do(c, s1, a));
    LeadsOn(c, s, acts + [a], Do(c, s1, a), b, s3);
  }

  // Two requests under one key, side by side.
  function Pair(s: State, r: Request, first: Phase, second: Phase): State {
    s.(reqs := map[0 := Req(r, first), 1 := Req(r, second)])
  }

  ghost predicate Twin(c: Config, r: Request) {
    c.slots >= 2 && r.key.Some? && !Blank(ContentOf(c, r.payload))
  }

  lemma BothMissed(c: Config, start: real, r: Request) returns (s: State, acts: seq<Action>)
    requires Twin(c, r)
    ensures Leads(c, Initial(start), acts, s)
    ensures s == Pair(Initial(start).(borrowed := 2), r, Missed, Missed)
  {
    var i := Initial(start);
    assert Leads(c, i, [], i);
    var s1 := Pair(i, r, Queued, Queued);
    Both(c, i, [], i, Arrive(0, r), Arrive(1, r), s1);
    var s2 := Pair(i.(borrowed := 2), r, Admitted, Admitted);
    acts := [] + [Arrive(0, r)] + [Arrive(1, r)];
    Both(c, i, acts, s1, Admit(0), Admit(1), s2);
    acts := acts + [Admit(0)] + [Admit(1)];
    s := Pair(i.(borrowed := 2), r, Missed, Missed);
    Both(c, i, acts, s2, Look(0), Look(1), s);
    acts := acts + [Look(0)] + [Look(1)];
  }

  // Both pass the budget check before either has added anything.
  lemma BothBegun(c: Config, start: real, r: Request) returns (s: State, acts: seq<Action>)
    requires Twin(c, r)
    ensures Leads(c, Initial(start), acts, s)
    ensures var begun := Running(Start(JobOf(c, r)));
            s == Pair(Initial(start).(borrowed := 2), r, begun, begun)
  {
    var s1, before := BothMissed(c, start, r);
    var begun := Running(Start(JobOf(c, r)));
    s := Pair(s1, r, begun, begun);
    Both(c, Initial(start), before, s1, Check(0), Check(1), s);
    acts := before + [Check(0)] + [Check(1)];
  }

  lemma BothCalled(c: Config, start: real, r: Request, reply: CallOutcome) returns (s: State, acts: seq<Action>)
    requires Twin(c, r) && Possible(reply) && KnownCost(reply) <= c.callBound
    ensures Leads(c, Initial(start), acts, s)
    ensures var ended := Running(Advance(JobOf(c, r), Start(JobOf(c, r)), reply));
            var log := [Called(0, reply), Called(1, reply)];
            s == Pair(Initial(start).(borrowed := 2, log := log), r, ended, ended)
  {
    var s1, before := BothBegun(c, start, r);
    var ended := Running(Advance(JobOf(c, r), Start(JobOf(c, r)), reply));
    s := Pair(s1, r, ended, ended).(log := [Called(0, reply), Called(1, reply)]);
    Both(c, Initial(start), before, s1, Call(0, reply), Call(1, reply), s);
    acts := before + [Call(0, reply)] + [Call(1, reply)];
  }

  ghost predicate Accepting(c: Config, r: Request, reply: CallOutcome) {
    && Possible(reply) && reply.Completed? && reply.result.costUsd <= c.callBound
    && c.validate(r.payload.doc, reply.result.text).Valid?
  }

  /** The guarantee is for sequential requests only: given two slots, two concurrent requests under one key
      can both miss, both run and both be billed. */
  lemma ConcurrentMissesBothRun(c: Config, start: real, r: Request, reply: CallOutcome)
    returns (s: State, acts: seq<Action>)
    requires Twin(c, r) && Accepting(c, r, reply)
    ensures Leads(c, Initial(start), acts, s)
    ensures exists response ::
              && s.reqs == map[0 := Req(r, Won(response)), 1 := Req(r, Won(response))]
              && Succeeded(0, response) in s.log && Succeeded(1, response) in s.log
    ensures s.spent == reply.result.costUsd + reply.result.costUsd && s.now == start
  {
    var s1, before := BothCalled(c, start, r, reply);
    var s2 := Do(c, s1, Add(0));
    s := Do(c, s2, Add(1));
    Both(c, Initial(start), before, s1, Add(0), Add(1), s);
    acts := before + [Add(0)] + [Add(1)];
    var response := ResponseOf(s1.reqs[0].phase.pipe);
    assert s2.log == s1.log + [Succeeded(0, response)] && s.log == s2.log + [Succeeded(1, response)];
    assert s2.log[2] == s.log[2] == Succeeded(0, response) && s.log[3] == Succeeded(1, response);
    assert s.reqs == map[0 := Req(r, Won(response)), 1 := Req(r, Won(response))];
  }

  // ---------- exactly when ----------

  // In every run with no lost write, successes stamped under one key are more than the TTL apart.
  ghost predicate OncePerTtl(c: Config) {
    forall states: seq<State>, actions: seq<Action>, i: nat, j: nat, key: Key ::
      IsRun(c, states, actions) && NoLostWrite(actions) && i < j < |actions|
      && StampsAt(c, states, actions, i, key) && StampsAt(c, states, actions, j, key)
      ==> states[j].now - states[i].now > c.ttl
  }

  lemma {:induction false} ClockForward(c: Config, states: seq<State>, actions: seq<Action>, i: nat, j: nat)
    requires IsRun(c, states, actions) && i <= j < |states|
    ensures states[i].now <= states[j].now
  {
    if i < j {
      ClockForward(c, states, actions, i, j - 1);
      ClockStep(c, states[j - 1], actions[j - 1]);
    }
  }

  lemma BothStamp(c: Config, start: real, r: Request, reply: CallOutcome)
    returns (states: seq<State>, actions: seq<Action>, i: nat)
    requires Twin(c, r) && Accepting(c, r, reply)
    ensures IsRun(c, states, actions) && NoLostWrite(actions) && i + 1 < |actions|
    ensures StampsAt(c, states, actions, i, r.key.value) && StampsAt(c, states, actions, i + 1, r.key.value)
    ensures states[i].now == states[i + 1].now
  {
    var s, acts := ConcurrentMissesBothRun(c, start, r, reply);
    var s1 := Do(c, s, Stamp(0));
    var s2 := Do(c, s1, Stamp(1));
    Both(c, Initial(start), acts, s, Stamp(0), Stamp(1), s2);
    actions, i := acts + [Stamp(0)] + [Stamp(1)], |acts|;
    states := StepsAreRun(c, Initial(start), actions, s2);
    ClockForward(c, states, actions, 0, i);
    ClockForward(c, states, actions, i, i + 1);
    ClockForward(c, states, actions, i + 1, i + 2);
    RequestsKept(c, states[i], actions[i]);
    RequestsKept(c, states[i + 1], actions[i + 1]);
  }

  /** Successes under one key are kept more than the TTL apart in every run, given a reply that can be
      accepted, if and only if there is at most one slot. */
  lemma OncePerTtlIff(c: Config)
    requires WellConfigured(c) && c.ttl >= 0.0
    requires exists doc, text :: !Blank(text) && c.validate(doc, text).Valid?
    ensures OncePerTtl(c) <==> c.slots <= 1
  {
    if c.slots <= 1 {
      forall states: seq<State>, actions: seq<Action>, i: nat, j: nat, key |
        IsRun(c, states, actions) && NoLostWrite(actions) && i < j < |actions|
        && StampsAt(c, states, actions, i, key) && StampsAt(c, states, actions, j, key)
        ensures states[j].now - states[i].now > c.ttl
      {
        OneSlotOnce(c, states, actions, i, j, key);
      }
    } else {
      var doc, text :| !Blank(text) && c.validate(doc, text).Valid?;
      var r := Request(Payload(doc, "v1", "x", PlainText, "default"), Some("k"));
      assert !Blank("x") by { assert !IsSpace("x"[0]); }
      var reply := Completed(Completion(text, "model", 1, 1, 0.0, 0.0, "completed"));
      var states, actions, i := BothStamp(c, 0.0, r, reply);
      assert StampsAt(c, states, actions, i, "k") && StampsAt(c, states, actions, i + 1, "k");
    }
  }
}
