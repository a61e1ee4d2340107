/** Requests handled one after another: the keyed endpoint is a map from key to response with expiry. */
module Sequential {
  import opened Schemas
  import opened Provider
  import opened Pipeline
  import opened Idempotency
  import opened Protocol
  import opened Spending
  import opened Endpoint

  datatype Service = Service(table: Table, spent: real)

  datatype Visit = Serve(turn: Turn) | Sweep(at: real)

  function Start(v: Visit): real {
    if v.Serve? then v.turn.seenAt else v.at
  }

  function End(v: Visit): real {
    if v.Serve? then v.turn.storedAt else v.at
  }

  // Endpoint.Extract and SqliteIdempotencyStore.Sweep, as functions of the state.
  function Next(c: Config, s: Service, v: Visit): Service {
    match v
    case Serve(t) => Service(TableAfter(c, s.table, s.spent, t), s.spent + Added(OutcomeOf(c, s.table, s.spent, t)))
    case Sweep(at) => s.(table := Live(s.table, at, c.ttl))
  }

  // One visit finishes before the next begins, and the clock does not go back.
  ghost predicate IsHistory(c: Config, visits: seq<Visit>, states: seq<Service>) {
    && |states| == |visits| + 1
    && states[0] == Service(map[], 0.0)
    && (forall i :: 0 <= i < |visits| ==>
          states[i + 1] == Next(c, states[i], visits[i]) && Start(visits[i]) <= End(visits[i]))
    && (forall i, j :: 0 <= i < j < |visits| ==> End(visits[i]) <= Start(visits[j]))
  }

  // The key a request is handled under, if it sent a usable one.
  function KeyIn(v: Visit): Option<Key> {
    if v.Serve? then KeyUsed(v.turn) else None
  }

  function OutcomeAt(c: Config, s: Service, v: Visit): Outcome {
    if v.Serve? then OutcomeOf(c, s.table, s.spent, v.turn) else Rejected
  }

  // The response a visit leaves in the store under a key, if it leaves one.
  function StoredResponse(c: Config, s: Service, v: Visit, key: Key): Option<Response> {
    if v.Serve? && KeyIn(v) == Some(key) then
      ResponseStored(c, Live(s.table, v.turn.seenAt, c.ttl), s.spent, key, v.turn)
    else
      None
  }

  // The visit stored a success under this key.
  ghost predicate Stores(c: Config, s: Service, v: Visit, key: Key) {
    StoredResponse(c, s, v, key).Some?
  }

  function RowStored(c: Config, s: Service, v: Visit, key: Key): Row
    requires StoredResponse(c, s, v, key).Some?
  {
    StoredRow(c, v.turn, StoredResponse(c, s, v, key).value)
  }

  // One visit keeps every row that is young enough when it begins.
  lemma VisitKeeps(c: Config, s: Service, v: Visit, key: Key)
    requires key in s.table && !Expired(s.table[key].created, Start(v), c.ttl)
    ensures key in Next(c, s, v).table && Next(c, s, v).table[key] == s.table[key]
  {
    if v.Serve? {
      KeyedMeaning(c, s.table, s.spent, v.turn);
    }
  }

  // The row a visit stored under a key, if it did.
  function Stored(c: Config, s: Service, v: Visit, key: Key): Option<Row> {
    if StoredResponse(c, s, v, key).Some? then Some(RowStored(c, s, v, key)) else None
  }

  // A row in the table after a visit was there before, or is the one the visit stored.
  lemma VisitAdds(c: Config, s: Service, v: Visit, key: Key)
    requires key in Next(c, s, v).table
    ensures (key in s.table && s.table[key] == Next(c, s, v).table[key])
            || Stored(c, s, v, key) == Some(Next(c, s, v).table[key])
  {
    if v.Serve? {
      KeyedMeaning(c, s.table, s.spent, v.turn);
    }
  }

  lemma VisitStores(c: Config, s: Service, v: Visit, key: Key)
    requires Stores(c, s, v, key)
    ensures key in Next(c, s, v).table && Next(c, s, v).table[key] == RowStored(c, s, v, key)
  {
    KeyedMeaning(c, s.table, s.spent, v.turn);
  }

  function Tables(states: seq<Service>): (r: seq<Table>)
    ensures |r| == |states| && forall i :: 0 <= i < |r| ==> r[i] == states[i].table
  {
    seq(|states|, i requires 0 <= i < |states| => states[i].table)
  }

  // A row every step keeps is still there at the end.
  lemma {:induction false} Kept(tables: seq<Table>, i: nat, m: nat, key: Key, row: Row)
    requires i <= m < |tables| && key in tables[i] && tables[i][key] == row
    requires forall n :: i <= n < m && key in tables[n] && tables[n][key] == row ==>
               key in tables[n + 1] && tables[n + 1][key] == row
    ensures key in tables[m] && tables[m][key] == row
  {
    if i < m {
      Kept(tables, i, m - 1, key, row);
    }
  }

  // A row that is there at the end was added by some step.
  lemma {:induction false} Origin(tables: seq<Table>, added: seq<Option<Row>>, m: nat, key: Key) returns (i: nat)
    requires m < |tables| && |added| >= m && tables[0] == map[] && key in tables[m]
    requires forall n :: 0 <= n < m && key in tables[n + 1] ==>
               (key in tables[n] && tables[n][key] == tables[n + 1][key]) || added[n] == Some(tables[n + 1][key])
    ensures i < m && added[i] == Some(tables[m][key])
  {
    if added[m - 1] == Some(tables[m][key]) {
      i := m - 1;
    } else {
      i := Origin(tables, added, m - 1, key);
    }
  }

  lemma RowStays(c: Config, visits: seq<Visit>, states: seq<Service>, i: nat, m: nat, now: real, key: Key)
    requires IsHistory(c, visits, states) && i < m <= |visits|
    requires Stores(c, states[i], visits[i], key)
    requires forall n :: i < n < m ==> Start(visits[n]) <= now
    requires !Expired(End(visits[i]), now, c.ttl)
    ensures key in states[m].table && states[m].table[key] == RowStored(c, states[i], visits[i], key)
  {
    var row := RowStored(c, states[i], visits[i], key);
    VisitStores(c, states[i], visits[i], key);
    forall n | i + 1 <= n < m && key in states[n].table && states[n].table[key] == row
      ensures key in states[n + 1].table && states[n + 1].table[key] == row
    {
      VisitKeeps(c, states[n], visits[n], key);
    }
    Kept(Tables(states), i + 1, m, key, row);
  }

  lemma RowsWereStored(c: Config, visits: seq<Visit>, states: seq<Service>, m: nat, key: Key) returns (i: nat)
    requires IsHistory(c, visits, states) && m <= |visits| && key in states[m].table
    ensures i < m && Stored(c, states[i], visits[i], key) == Some(states[m].table[key])
  {
    var added := seq(m, n requires 0 <= n < m => Stored(c, states[n], visits[n], key));
    forall n | 0 <= n < m && key in states[n + 1].table
      ensures (key in states[n].table && states[n].table[key] == states[n + 1].table[key])
              || added[n] == Some(states[n + 1].table[key])
    {
      VisitAdds(c, states[n], visits[n], key);
    }
    i := Origin(Tables(states), added, m, key);
  }

  // ---------- the theorems ----------

  /** A visit stores a success under a key exactly when it carries that key, no young row answers it, it
      gets past the checks before a run, the last call of its run completes with a valid record, and the
      store write is committed. */
  lemma StoresIff(c: Config, s: Service, t: Turn, key: Key, calls: nat)
    requires IsCallCount(TurnJob(c, t), t.provider, calls)
    ensures Stores(c, s, Serve(t), key) <==>
            && KeyUsed(t) == Some(key)
            && !(key in s.table && !Expired(s.table[key].created, t.seenAt, c.ttl))
            && Runs(c, s.spent, t)
            && t.provider(calls - 1).Completed? && !TurnJob(c, t).Rejects(t.provider(calls - 1))
            && !t.put.NotWritten?
  {
    KeyedMeaning(c, s.table, s.spent, t);
    RunSettles(TurnJob(c, t), t.provider, calls);
  }

  /** The row a visit stores is stamped with its own hash and clock, and carries what the last call of its run
      came back with, validated; so does every replay of it. */
  lemma StoredIsAnswer(c: Config, s: Service, t: Turn, key: Key, calls: nat)
    requires IsCallCount(TurnJob(c, t), t.provider, calls) && Stores(c, s, Serve(t), key)
    ensures var row := RowStored(c, s, Serve(t), key);
            && row.hash == c.hash(t.payload) && row.created == t.storedAt
            && AnsweredBy(c, t.payload.doc, t.provider, calls, row.response)
  {
    RunSettles(TurnJob(c, t), t.provider, calls);
    SettledAnswer(c, TurnJob(c, t), t.provider, calls, RunOf(c, t));
  }

  /** Within the TTL of a stored success, every request under its key is answered from it: the same
      request replays it, any other conflicts. Nothing in between changes that. */
  lemma AnsweredFromSuccess(c: Config, visits: seq<Visit>, states: seq<Service>, i: nat, j: nat, key: Key)
    requires IsHistory(c, visits, states) && i < j < |visits|
    requires Stores(c, states[i], visits[i], key) && KeyIn(visits[j]) == Some(key)
    requires visits[j].turn.seenAt - visits[i].turn.storedAt <= c.ttl
    ensures OutcomeAt(c, states[j], visits[j]) ==
            var row := RowStored(c, states[i], visits[i], key);
            if c.hash(visits[i].turn.payload) == c.hash(visits[j].turn.payload)
            then Replayed(row, visits[j].turn.seenAt)
            else Conflict(row, visits[j].turn.seenAt)
  {
    forall n | i < n < j ensures Start(visits[n]) <= visits[j].turn.seenAt {
      assert Start(visits[n]) <= End(visits[n]) <= Start(visits[j]);
    }
    RowStays(c, visits, states, i, j, visits[j].turn.seenAt, key);
  }

  ghost predicate FromStore(o: Outcome) {
    o.Replayed? || o.Conflict?
  }

  /** A keyed request is answered from the store exactly when some earlier success under its key was
      stored at most the TTL before; otherwise it is handled as if the key were new. */
  lemma FromStoreIffRecentSuccess(c: Config, visits: seq<Visit>, states: seq<Service>, j: nat, key: Key)
    requires IsHistory(c, visits, states) && j < |visits| && KeyIn(visits[j]) == Some(key)
    ensures FromStore(OutcomeAt(c, states[j], visits[j])) <==>
            exists i :: 0 <= i < j && Stores(c, states[i], visits[i], key)
                        && visits[j].turn.seenAt - visits[i].turn.storedAt <= c.ttl
  {
    if i :| 0 <= i < j && Stores(c, states[i], visits[i], key)
            && visits[j].turn.seenAt - visits[i].turn.storedAt <= c.ttl {
      AnsweredFromSuccess(c, visits, states, i, j, key);
    } else if FromStore(OutcomeAt(c, states[j], visits[j])) {
      var i := RowsWereStored(c, visits, states, j, key);
    }
  }

  /** Two successes stored under one key are more than the TTL apart. */
  lemma SuccessesApart(c: Config, visits: seq<Visit>, states: seq<Service>, i: nat, j: nat, key: Key)
    requires IsHistory(c, visits, states) && i < j < |visits|
    requires Stores(c, states[i], visits[i], key) && Stores(c, states[j], visits[j], key)
    ensures visits[j].turn.storedAt - visits[i].turn.storedAt > c.ttl
  {
    if visits[j].turn.seenAt - visits[i].turn.storedAt <= c.ttl {
      AnsweredFromSuccess(c, visits, states, i, j, key);
    }
  }

  // Dropping a stale row changes no answer the store can give from then on.
  lemma PurgedLive(table: Table, key: Key, seen: real, now: real, ttl: real)
    requires seen <= now
    ensures Live(Purged(table, key, seen, ttl), now, ttl) == Live(table, now, ttl)
  {
  }

  /** A request that is not a stored success leaves every answer the store can give as it was, so after
      a failed run the key is free to be tried again. */
  lemma FailureChangesNoAnswer(c: Config, s: Service, v: Visit, now: real)
    requires Start(v) <= now
    requires forall key :: !Stores(c, s, v, key)
    ensures Live(Next(c, s, v).table, now, c.ttl) == Live(s.table, now, c.ttl)
  {
    match v
    case Sweep(at) =>
    case Serve(t) =>
      KeyedMeaning(c, s.table, s.spent, t);
      if KeyUsed(t).Some? {
        assert !Stores(c, s, v, KeyUsed(t).value);
        PurgedLive(s.table, KeyUsed(t).value, t.seenAt, now, c.ttl);
        var rest := Purged(s.table, KeyUsed(t).value, t.seenAt, c.ttl);
        assert Next(c, s, v).table == s.table || Next(c, s, v).table == rest;
      }
  }

  // Replacing one row replaces one answer, if the new row is young.
  lemma LiveUpdated(table: Table, key: Key, row: Row, now: real, ttl: real)
    requires !Expired(row.created, now, ttl)
    ensures Live(table[key := row], now, ttl) == Live(table, now, ttl)[key := row]
  {
  }

  /** A stored success changes exactly its own key's answer. */
  lemma SuccessChangesItsKey(c: Config, s: Service, v: Visit, now: real, key: Key)
    requires Start(v) <= now && Stores(c, s, v, key) && !Expired(v.turn.storedAt, now, c.ttl)
    ensures Live(Next(c, s, v).table, now, c.ttl) == Live(s.table, now, c.ttl)[key := RowStored(c, s, v, key)]
  {
    var rest := Purged(s.table, key, v.turn.seenAt, c.ttl);
    assert Next(c, s, v).table == rest[key := RowStored(c, s, v, key)] by {
      KeyedMeaning(c, s.table, s.spent, v.turn);
    }
    LiveUpdated(rest, key, RowStored(c, s, v, key), now, c.ttl);
    PurgedLive(s.table, key, v.turn.seenAt, now, c.ttl);
  }
}
