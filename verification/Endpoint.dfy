/** The request handlers as the code writes them: _run_extract, _run_extract_idempotent and the endpoint
    (api/main.py), with the facts the access line reports (api/observability.py). */
module Endpoint {
  import opened Text
  import opened Schemas
  import opened Provider
  import opened Pipeline
  import opened Budget
  import opened Idempotency
  import opened Protocol
  import opened Spending

  // What schema lookup, content decoding and provider lookup make of a request before any call.
  datatype Prepared = Unsupported | Unreadable | NoClient(content: string) | Ready(content: string)

  // The per-request facts bag; unset until noted.
  class Facts {
    var costUsd: Option<Usd>
    var replayed: bool
    var attempts: Option<nat>

    // note_request starts every extract request with replayed false.
    constructor ()
      ensures costUsd.None? && !replayed && attempts.None?
    {
      costUsd, replayed, attempts := None, false, None;
    }

    method NoteCost(cost: Usd)
      modifies this`costUsd
      ensures costUsd == Some(cost)
    {
      costUsd := Some(cost);
    }

    // A terminal validation failure also reports how many attempts it took.
    method NoteFailure(count: nat, cost: Usd)
      modifies this`attempts, this`costUsd
      ensures attempts == Some(count) && costUsd == Some(cost)
    {
      attempts, costUsd := Some(count), Some(cost);
    }

    // A replay made no provider call, so it reports no attempt and no spend.
    method NoteMeta(response: Response, isReplay: bool)
      modifies this
      ensures replayed == isReplay
      ensures attempts == Some(if isReplay then 0 else response.attempts)
      ensures costUsd == Some(if isReplay then 0.0 else response.costUsd)
    {
      replayed := isReplay;
      attempts := Some(if isReplay then 0 else response.attempts);
      costUsd := Some(if isReplay then 0.0 else response.costUsd);
    }
  }

  // ---------- what the environment supplies for one request ----------

  // How store.put ends. The last two raise; a write can be committed all the same.
  datatype PutResult = Written | NotWritten | WrittenButRaised

  datatype Turn = Turn(
    payload: Payload,
    header: Option<string>,       // Idempotency-Key as sent
    prepared: Prepared,
    provider: nat -> CallOutcome,
    seenAt: real,                 // the clock of the store's expiry test
    storedAt: real,               // the clock that stamps a stored response
    put: PutResult)

  function TurnJob(c: Config, t: Turn): Job {
    Job(c.validate, t.payload.doc, if t.prepared.Ready? then t.prepared.content else "", c.maxAttempts)
  }

  // The run a request makes once it is past the budget check.
  function RunOf(c: Config, t: Turn): Pipe {
    After(TurnJob(c, t), t.provider, c.maxAttempts)
  }

  // Whether a request gets as far as a provider call, given the budget.
  predicate Runs(c: Config, spent: real, t: Turn) {
    && (t.prepared.Ready? || t.prepared.NoClient?) && !Blank(t.prepared.content)
    && !Refuses(c.cap, spent) && t.prepared.Ready?
  }

  // What a run, or the lack of one, answers.
  function RunOutcomeOf(c: Config, spent: real, t: Turn): Outcome {
    if Runs(c, spent, t) then
      var p := RunOf(c, t);
      if p.Accepted? then Fresh(ResponseOf(p)) else Failed(CodeOf(p), CostOf(p))
    else if (t.prepared.Ready? || t.prepared.NoClient?) && !Blank(t.prepared.content) && Refuses(c.cap, spent) then
      Refused
    else
      Rejected
  }

  // An outcome of a run is charged and credited with exactly the calls of that run; no other makes a call.
  ghost predicate CallsAccounted(c: Config, t: Turn, o: Outcome, calls: nat) {
    match o
    case Fresh(response) =>
      IsCallCount(TurnJob(c, t), t.provider, calls) && AnsweredBy(c, t.payload.doc, t.provider, calls, response)
    case Unstored(response) =>
      IsCallCount(TurnJob(c, t), t.provider, calls) && AnsweredBy(c, t.payload.doc, t.provider, calls, response)
    case Failed(code, costUsd) =>
      && IsCallCount(TurnJob(c, t), t.provider, calls)
      && FailedBy(c, t.payload.doc, t.provider, calls, code)
      && costUsd == CostOfFirst(t.provider, calls)
    case _ => calls == 0
  }

  // The provider is asked for the content, and from the second call on with the text and the errors of the
  // call before.
  ghost predicate Asked(c: Config, t: Turn, prompts: seq<Prompt>) {
    prompts != [] ==>
      && t.prepared.Ready? && prompts[0] == Ask(t.prepared.content)
      && forall k :: 1 <= k < |prompts| ==>
           && t.provider(k - 1).Completed?
           && var text := t.provider(k - 1).result.text;
           && c.validate(t.payload.doc, text).Invalid?
           && prompts[k] == AskAgain(t.prepared.content, text, c.validate(t.payload.doc, text).errors)
  }

  lemma PromptsAsk(c: Config, t: Turn, calls: nat)
    requires t.prepared.Ready? && IsCallCount(TurnJob(c, t), t.provider, calls)
    ensures Asked(c, t, PromptsOf(TurnJob(c, t), t.provider, calls))
  {
    var job := TurnJob(c, t);
    PromptsAt(job, t.provider, calls, 0);
    forall k | 1 <= k < calls
      ensures PromptsOf(job, t.provider, calls)[k] == PromptFor(job, t.provider, k) && job.Rejects(t.provider(k - 1))
    {
      PromptsAt(job, t.provider, calls, k);
    }
  }

  // api/main.py:72-147.
  method RunExtract(c: Config, t: Turn, budget: BudgetGuard, facts: Facts)
    returns (o: Outcome, calls: nat, ghost prompts: seq<Prompt>)
    requires c.maxAttempts >= 1 && budget.cap == c.cap
    modifies budget`spent, facts`costUsd, facts`attempts
    ensures o == RunOutcomeOf(c, old(budget.spent), t)
    ensures budget.spent == old(budget.spent) + Added(o)
    ensures facts.costUsd == if o.Failed? then Some(o.costUsd) else old(facts.costUsd)
    ensures facts.attempts == if o.Failed? && o.code.Invalid422? then Some(calls) else old(facts.attempts)
    ensures CallsAccounted(c, t, o, calls) && |prompts| == calls && Asked(c, t, prompts)
    // The checks come in this order: content, budget, client.
    ensures var spent := old(budget.spent);
            var resolved := (t.prepared.Ready? || t.prepared.NoClient?) && !Blank(t.prepared.content);
            && (o.Refused? <==> resolved && c.cap > 0.0 && spent >= c.cap)
            && (o.Rejected? <==> !resolved || (t.prepared.NoClient? && (c.cap <= 0.0 || spent < c.cap)))
            && (o.Fresh? || o.Failed? <==> resolved && t.prepared.Ready? && (c.cap <= 0.0 || spent < c.cap))
  {
    calls, prompts := 0, [];
    if t.prepared.Unsupported? || t.prepared.Unreadable? {
      return Rejected, calls, prompts;
    }
    if Blank(t.prepared.content) {
      return Rejected, calls, prompts;
    }
    var ok := budget.Check();
    if !ok {
      return Refused, calls, prompts;
    }
    if t.prepared.NoClient? {
      return Rejected, calls, prompts;
    }
    var p, asked := RunExtraction(TurnJob(c, t), t.provider);
    calls, prompts := |asked|, asked;
    SettlesOnce(TurnJob(c, t), t.provider, calls, p);
    SettledAnswer(c, TurnJob(c, t), t.provider, calls, p);
    PromptsAsk(c, t, calls);
    match p {
      case Aborted(failure, costUsd) =>
        budget.Add(costUsd);
        facts.NoteCost(costUsd);
        o := Failed(if failure.Timeout? then Timeout504 else Provider502, costUsd);
      case Exhausted(trail, costUsd) =>
        budget.Add(costUsd);
        facts.NoteFailure(|trail|, costUsd);
        o := Failed(Invalid422, costUsd);
      case Accepted(record, total, attempts) =>
        budget.Add(total.costUsd);
        o := Fresh(Response(record, attempts, total.costUsd, total.latencyMs, total.model));
    }
  }

  // What a keyed request answers, given the rows it may be answered with.
  function KeyedOutcome(c: Config, live: Table, spent: real, key: Key, t: Turn): Outcome {
    if key in live then
      if live[key].hash == c.hash(t.payload) then Replayed(live[key], t.seenAt) else Conflict(live[key], t.seenAt)
    else
      var o := RunOutcomeOf(c, spent, t);
      if o.Fresh? && !t.put.Written? then Unstored(o.response) else o
  }

  // The response a request leaves in the store, if it leaves one.
  function ResponseStored(c: Config, live: Table, spent: real, key: Key, t: Turn): Option<Response> {
    var o := RunOutcomeOf(c, spent, t);
    if key !in live && o.Fresh? && !t.put.NotWritten? then Some(o.response) else None
  }

  function StoredRow(c: Config, t: Turn, response: Response): Row {
    Row(c.hash(t.payload), response, t.storedAt)
  }

  // api/main.py:186-222.
  method RunExtractIdempotent(c: Config, t: Turn, store: SqliteIdempotencyStore, key: Key,
                              budget: BudgetGuard, facts: Facts)
    returns (o: Outcome, calls: nat)
    requires c.maxAttempts >= 1 && budget.cap == c.cap && store.ttl == c.ttl
    modifies store`table, budget`spent, facts`costUsd, facts`attempts
    ensures o == KeyedOutcome(c, Live(old(store.table), t.seenAt, c.ttl), old(budget.spent), key, t)
    ensures budget.spent == old(budget.spent) + Added(o)
    ensures facts.costUsd == if o.Failed? then Some(o.costUsd) else old(facts.costUsd)
    ensures facts.attempts == if o.Failed? && o.code.Invalid422? then Some(calls) else old(facts.attempts)
    ensures CallsAccounted(c, t, o, calls)
    ensures (o.Fresh? ==> t.put.Written?) && (o.Unstored? ==> !t.put.Written?)
    // A row within the TTL answers, and which way is decided by its hash.
    ensures o.Replayed? || o.Conflict? <==>
              key in old(store.table) && t.seenAt - old(store.table)[key].created <= c.ttl
    ensures o.Replayed? || o.Conflict? ==> o.row == old(store.table)[key] && o.at == t.seenAt
    ensures (o.Replayed? ==> o.row.hash == c.hash(t.payload)) && (o.Conflict? ==> o.row.hash != c.hash(t.payload))
    // Only a success of its own writes, and then exactly its own row; otherwise at most an expired row is gone.
    ensures store.table ==
              var rest := Purged(old(store.table), key, t.seenAt, c.ttl);
              if o.Fresh? || (o.Unstored? && t.put.WrittenButRaised?)
              then rest[key := Row(c.hash(t.payload), o.response, t.storedAt)] else rest
  {
    var requestHash := c.hash(t.payload);
    var existing := store.Get(key, t.seenAt);
    if existing.Some? {
      if existing.value.hash != requestHash {
        return Conflict(existing.value, t.seenAt), 0;
      }
      return Replayed(existing.value, t.seenAt), 0;
    }
    ghost var prompts;
    o, calls, prompts := RunExtract(c, t, budget, facts);
    if o.Fresh? {
      if !t.put.NotWritten? {
        store.Put(key, Row(requestHash, o.response, t.storedAt));
      }
      if !t.put.Written? {
        return Unstored(o.response), calls;
      }
    }
  }

  const MAX_IDEMPOTENCY_KEY_LEN := 255

  // api/main.py:167-183. None stands for the validation_failed it raises.
  function ValidateIdempotencyKey(raw: string): (key: Option<Key>)
    ensures key.Some? <==> !Blank(raw) && |Strip(raw)| <= 255
    ensures key.Some? ==> key.value != "" && key.value == Strip(raw)
  {
    StripEmptyIffBlank(raw);
    var key := Strip(raw);
    if key == "" || |key| > MAX_IDEMPOTENCY_KEY_LEN then None else Some(key)
  }

  /** The key is the text sent, without the white space around it. */
  lemma KeyIsTrimmed(raw: string)
    requires ValidateIdempotencyKey(raw).Some?
    ensures Trims(ValidateIdempotencyKey(raw).value, raw)
  {
    StripTrims(raw);
  }

  // The key a request is handled under, if it sent a usable one.
  function KeyUsed(t: Turn): Option<Key> {
    if t.header.None? then None else ValidateIdempotencyKey(t.header.value)
  }

  // What one request answers: the endpoint's meaning.
  function OutcomeOf(c: Config, table: Table, spent: real, t: Turn): Outcome {
    if t.header.None? then
      RunOutcomeOf(c, spent, t)
    else
      var key := ValidateIdempotencyKey(t.header.value);
      if key.None? then Rejected else KeyedOutcome(c, Live(table, t.seenAt, c.ttl), spent, key.value, t)
  }

  // The table after one request.
  function TableAfter(c: Config, table: Table, spent: real, t: Turn): Table {
    if t.header.None? || ValidateIdempotencyKey(t.header.value).None? then
      table
    else
      var key := ValidateIdempotencyKey(t.header.value).value;
      var rest := Purged(table, key, t.seenAt, c.ttl);
      var stored := ResponseStored(c, Live(table, t.seenAt, c.ttl), spent, key, t);
      if stored.Some? then rest[key := StoredRow(c, t, stored.value)] else rest
  }

  // What a keyed turn means, by whether a stored response may answer it.
  lemma KeyedMeaning(c: Config, table: Table, spent: real, t: Turn)
    ensures KeyUsed(t).None? ==> TableAfter(c, table, spent, t) == table
    ensures KeyUsed(t).Some? ==>
      var key, o, after := KeyUsed(t).value, OutcomeOf(c, table, spent, t), TableAfter(c, table, spent, t);
      if key in table && !Expired(table[key].created, t.seenAt, c.ttl) then
        && after == table
        && o == if table[key].hash == c.hash(t.payload) then Replayed(table[key], t.seenAt)
                else Conflict(table[key], t.seenAt)
      else
        var rest, ran := Purged(table, key, t.seenAt, c.ttl), RunOutcomeOf(c, spent, t);
        && key !in rest
        && o == (if ran.Fresh? && !t.put.Written? then Unstored(ran.response) else ran)
        && after == (if ran.Fresh? && !t.put.NotWritten? then rest[key := StoredRow(c, t, ran.response)] else rest)
  {
  }

  // api/main.py:421-440, ending with the access line's cost and attempts fields.
  method Extract(c: Config, t: Turn, store: SqliteIdempotencyStore, budget: BudgetGuard)
    returns (o: Outcome, calls: nat, lineCost: Option<Usd>, lineAttempts: Option<nat>)
    requires c.maxAttempts >= 1 && budget.cap == c.cap && store.ttl == c.ttl
    modifies store`table, budget`spent
    ensures o == OutcomeOf(c, old(store.table), old(budget.spent), t)
    ensures store.table == TableAfter(c, old(store.table), old(budget.spent), t)
    ensures budget.spent == old(budget.spent) + Added(o)
    ensures lineAttempts ==
              match o {
                case Fresh(response) => Some(response.attempts)
                case Failed(code, _) => if code.Invalid422? then Some(calls) else None
                case Replayed(_, _) => Some(0)
                case _ => None
              }
    ensures lineCost == LineCost(o)
    ensures CallsAccounted(c, t, o, calls)
  {
    var facts := new Facts();
    if t.header.None? {
      ghost var prompts;
      o, calls, prompts := RunExtract(c, t, budget, facts);
    } else {
      var key := ValidateIdempotencyKey(t.header.value);
      if key.None? {
        return Rejected, 0, None, None;
      }
      o, calls := RunExtractIdempotent(c, t, store, key.value, budget, facts);
    }
    match o {
      case Fresh(response) => facts.NoteMeta(response, false);
      case Replayed(row, _) => facts.NoteMeta(row.response, true);
      case _ =>
    }
    lineCost, lineAttempts := facts.costUsd, facts.attempts;
  }
}
