/** The idempotency table and its store (api/idempotency.py). */
module Idempotency {
  import opened Schemas
  import opened Provider

  type Key = string
  type Hash = string

  datatype Response = Response(data: Record, attempts: nat, costUsd: Usd, latencyMs: real, model: string)

  datatype Row = Row(hash: Hash, response: Response, created: real)

  // One table, one row a key (the primary key).
  type Table = map<Key, Row>

  predicate Expired(created: real, now: real, ttl: real) {
    now - created > ttl
  }

  // ---------- the four statements, each atomic ----------

  function Select(t: Table, key: Key): Option<Row> {
    if key in t then Some(t[key]) else None
  }

  // INSERT OR IGNORE.
  function InsertOrIgnore(t: Table, key: Key, row: Row): Table {
    if key in t then t else t[key := row]
  }

  // DELETE ... WHERE key = ? AND created_at_epoch = ?
  function DeleteScoped(t: Table, key: Key, created: real): Table {
    if key in t && t[key].created == created then t - {key} else t
  }

  // DELETE ... WHERE created_at_epoch < ?
  function DeleteBefore(t: Table, cutoff: real): Table {
    map k | k in t && !(t[k].created < cutoff) :: t[k]
  }

  // ---------- what the table means at a moment ----------

  // The rows a lookup at time `now` may answer with.
  function Live(t: Table, now: real, ttl: real): Table {
    map k | k in t && !Expired(t[k].created, now, ttl) :: t[k]
  }

  // The table without the key's row when that row is too old.
  function Purged(t: Table, key: Key, now: real, ttl: real): Table {
    if key in t && Expired(t[key].created, now, ttl) then t - {key} else t
  }

  class SqliteIdempotencyStore {
    const ttl: real
    var table: Table

    constructor (ttlHours: int)
      ensures ttl == ttlHours as real * 3600.0 && table == map[]
    {
      ttl := ttlHours as real * 3600.0;
      table := map[];
    }

    // api/idempotency.py:143-164; `now` is the clock reading of the expiry test.
    method Get(key: Key, now: real) returns (r: Option<Row>)
      modifies this`table
      ensures r.Some? <==> key in old(table) && now - old(table)[key].created <= ttl
      ensures r.Some? ==> r.value == old(table)[key] && table == old(table)
      ensures r.None? ==> table == old(table) - {key}
      ensures r == Select(Live(old(table), now, ttl), key)
      ensures table == Purged(old(table), key, now, ttl)
      ensures Live(table, now, ttl) == Live(old(table), now, ttl)
    {
      var row := Select(table, key);
      if row.None? {
        return None;
      }
      if Expired(row.value.created, now, ttl) {
        table := DeleteScoped(table, key, row.value.created);
        return None;
      }
      return row;
    }

    // First writer wins: a stored response is never overwritten.
    method Put(key: Key, row: Row)
      modifies this`table
      ensures table == if key in old(table) then old(table) else old(table)[key := row]
    {
      table := InsertOrIgnore(table, key, row);
    }

    // api/idempotency.py:186-191.
    method Sweep(now: real) returns (removed: nat)
      modifies this`table
      ensures forall k :: k in table <==> k in old(table) && now - old(table)[k].created <= ttl
      ensures forall k :: k in table ==> table[k] == old(table)[k]
      ensures table == Live(old(table), now, ttl)
      ensures removed == |old(table)| - |table|
    {
      var before := table;
      var cutoff := now - ttl;
      table := DeleteBefore(table, cutoff);
      assert table == Live(before, now, ttl);
      assert table.Keys <= before.Keys;
      var gone := before.Keys - table.Keys;
      assert before.Keys == table.Keys + gone;
      removed := |gone|;
    }
  }
}
