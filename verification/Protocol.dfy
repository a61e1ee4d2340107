/** The service as a concurrent step machine (api/main.py, api/idempotency.py, api/budget.py).

    Any number of requests are in progress at once. Each action below is one atomic effect: one
    statement on the table, one clock reading, one read or write of the budget, one provider call, one
    slot taken or given back, one access line. Requests, sweeps and the clock interleave freely. */
module Protocol {
  import opened Text
  import opened Schemas
  import opened Provider
  import opened Pipeline
  import opened Budget
  import opened Idempotency

  datatype Format = PlainText | PdfBase64

  // What a request asks for; the idempotency hash is taken over all of it.
  datatype Payload = Payload(doc: DocType, schemaVersion: string, content: string, format: Format, provider: string)

  datatype Request = Request(payload: Payload, key: Option<Key>)

  datatype Config = Config(
    ttl: real,
    cap: real,
    slots: nat,
    maxAttempts: nat,
    callBound: Usd,
    validate: (DocType, string) -> Validation,
    pdfText: string -> string,            // the text embedded in a base64 PDF, where there is one
    hash: Payload -> Hash)

  // At least one attempt a run, a strict validator, and a bound on what one call can cost.
  ghost predicate WellConfigured(c: Config) {
    c.maxAttempts >= 1 && Strict(c.validate)
  }

  // Plain text is passed through (api/content.py:29-34).
  function ContentOf(c: Config, p: Payload): (text: string)
    ensures p.format.PlainText? ==> text == p.content
  {
    if p.format.PdfBase64? then c.pdfText(p.content) else p.content
  }

  function JobOf(c: Config, r: Request): Job {
    Job(c.validate, r.payload.doc, ContentOf(c, r.payload), c.maxAttempts)
  }

  // ---------- requests ----------

  // The status a failed run maps to: its last validation failed, the provider timed out, or it failed.
  datatype FailCode = Invalid422 | Timeout504 | Provider502

  function CodeOf(p: Pipe): FailCode {
    if !p.Aborted? then Invalid422 else if p.failure.Timeout? then Timeout504 else Provider502
  }

  // How a request ends, as the client and the access line see it.
  datatype Outcome =
    | Fresh(response: Response)           // 200 from a run of its own
    | Replayed(row: Row, at: real)        // 200 from the store; `at` is the clock of the expiry test
    | Conflict(row: Row, at: real)        // 409
    | Refused                             // 402, the budget check
    | Rejected                            // refused or failed with no run: malformed, unroutable, store read error
    | Failed(code: FailCode, costUsd: Usd) // after a run, reconciled
    | Unstored(response: Response)        // 500: the run was reconciled but storing its response raised

  datatype Phase =
    | Queued                              // waiting for a slot; the body is unread
    | Admitted                            // holds a slot
    | Found(row: Row)                     // SELECT returned a row; its age is not yet tested
    | Expiring(created: real)             // the row was too old; its scoped DELETE has not run
    | Missed                              // no stored response; the budget has not been read
    | Running(pipe: Pipe)                 // past the budget check, before the budget add
    | Won(response: Response)             // a success, reconciled
    | Storing(row: Row)                   // stamped; its INSERT has not run
    | Replying(outcome: Outcome)          // decided; still holds its slot
    | Logging(outcome: Outcome)           // slot given back; the access line is not yet written
    | Done(outcome: Outcome)

  type Id = nat
  datatype Req = Req(request: Request, phase: Phase)

  datatype Event =
    | Called(id: Id, reply: CallOutcome)  // one provider call and what it came back with
    | Succeeded(id: Id, response: Response)
    | Line(id: Id, outcome: Outcome)      // the access line

  datatype State = State(
    now: real,
    table: Table,
    spent: real,
    borrowed: int,                        // slots taken
    reqs: map<Id, Req>,
    cutoffs: seq<real>,                   // sweeps that have read the clock but not yet deleted
    firsts: map<(Key, real), Row>,        // history: the first row inserted under a key and time stamp
    log: seq<Event>)                      // history

  function Initial(start: real): State {
    State(start, map[], 0.0, 0, map[], [], map[], [])
  }

  // ---------- actions ----------

  datatype Action =
    | Tick(to: real)
    | PlanSweep
    | RunSweep(sweep: nat)
    | Arrive(id: Id, request: Request)
    | Leave(id: Id)
    | Admit(id: Id)
    | Look(id: Id)
    | Skip(id: Id)
    | Test(id: Id)
    | Drop(id: Id, committed: bool, raised: bool)
    | Reject(id: Id)
    | Check(id: Id)
    | Call(id: Id, reply: CallOutcome)
    | Add(id: Id)
    | Stamp(id: Id)
    | Reply(id: Id)
    | Store(id: Id, committed: bool, raised: bool)
    | Release(id: Id)
    | Log(id: Id)

  predicate Enabled(c: Config, s: State, a: Action) {
    match a
    case Tick(to) => s.now <= to
    case PlanSweep => true
    case RunSweep(sweep) => sweep < |s.cutoffs|
    case Arrive(id, _) => id !in s.reqs
    case Leave(id) => id in s.reqs && s.reqs[id].phase.Queued?
    case Admit(id) => id in s.reqs && s.reqs[id].phase.Queued? && s.borrowed < c.slots
    case Look(id) => id in s.reqs && s.reqs[id].phase.Admitted? && s.reqs[id].request.key.Some?
    case Skip(id) => id in s.reqs && s.reqs[id].phase.Admitted? && s.reqs[id].request.key.None?
    case Test(id) => id in s.reqs && s.reqs[id].phase.Found?
    case Drop(id, committed, raised) => id in s.reqs && s.reqs[id].phase.Expiring? && (committed || raised)
    case Reject(id) => id in s.reqs && (s.reqs[id].phase.Admitted? || s.reqs[id].phase.Missed?)
    case Check(id) =>
      id in s.reqs && s.reqs[id].phase.Missed? && !Blank(ContentOf(c, s.reqs[id].request.payload))
    case Call(id, reply) =>
      && id in s.reqs && s.reqs[id].phase.Running? && s.reqs[id].phase.pipe.Trying?
      && Possible(reply) && KnownCost(reply) <= c.callBound
    case Add(id) => id in s.reqs && s.reqs[id].phase.Running? && !s.reqs[id].phase.pipe.Trying?
    case Stamp(id) => id in s.reqs && s.reqs[id].phase.Won? && s.reqs[id].request.key.Some?
    case Reply(id) => id in s.reqs && s.reqs[id].phase.Won? && s.reqs[id].request.key.None?
    case Store(id, committed, raised) => id in s.reqs && s.reqs[id].phase.Storing? && (committed || raised)
    case Release(id) => id in s.reqs && s.reqs[id].phase.Replying?
    case Log(id) => id in s.reqs && s.reqs[id].phase.Logging?
  }

  // Keys are present from the lookup on.
  function KeyOf(r: Request): Key {
    if r.key.Some? then r.key.value else ""
  }

  function Move(s: State, id: Id, phase: Phase): State
    requires id in s.reqs
  {
    s.(reqs := s.reqs[id := Req(s.reqs[id].request, phase)])
  }

  function ResponseOf(p: Pipe): Response
    requires p.Accepted?
  {
    Response(p.record, p.attempts, p.total.costUsd, p.total.latencyMs, p.total.model)
  }

  // A response is what the last call of its run came back with, validated, and the sums over the run.
  ghost predicate AnsweredBy(c: Config, doc: DocType, provider: nat -> CallOutcome, calls: nat, response: Response) {
    && calls >= 1
    && var last := provider(calls - 1);
    && last.Completed? && c.validate(doc, last.result.text) == Valid(response.data)
    && response.model == last.result.model
    && response.attempts == calls
    && response.costUsd == CostOfFirst(provider, calls)
    && response.latencyMs == LatencyOfFirst(provider, calls)
  }

  // How the run of a failed request ended.
  ghost predicate FailedBy(c: Config, doc: DocType, provider: nat -> CallOutcome, calls: nat, code: FailCode) {
    && calls >= 1
    && var last := provider(calls - 1);
    match code
    case Invalid422 => calls == c.maxAttempts && last.Completed? && c.validate(doc, last.result.text).Invalid?
    case Timeout504 => last.Raised? && last.failure.Timeout?
    case Provider502 => last.Raised? && !last.failure.Timeout?
  }

  lemma SettledAnswer(c: Config, job: Job, provider: nat -> CallOutcome, calls: nat, p: Pipe)
    requires job.validate == c.validate && job.maxAttempts == c.maxAttempts && Settles(job, provider, calls, p)
    ensures p.Accepted? ==> AnsweredBy(c, job.doc, provider, calls, ResponseOf(p))
    ensures !p.Accepted? ==> FailedBy(c, job.doc, provider, calls, CodeOf(p))
    ensures CostOf(p) == CostOfFirst(provider, calls)
  {
  }

  // api/main.py:202-211, after the expiry test at api/idempotency.py:158.
  function Judge(c: Config, s: State, r: Request, row: Row): Phase {
    if Expired(row.created, s.now, c.ttl) then Expiring(row.created)
    else if row.hash != c.hash(r.payload) then Replying(Conflict(row, s.now))
    else Replying(Replayed(row, s.now))
  }

  function Insert(s: State, key: Key, row: Row): State {
    s.(table := InsertOrIgnore(s.table, key, row),
       firsts := if key in s.table || (key, row.created) in s.firsts then s.firsts
                 else s.firsts[(key, row.created) := row])
  }

  function Do(c: Config, s: State, a: Action): State
    requires Enabled(c, s, a)
  {
    match a
    case Tick(to) => s.(now := to)
    case PlanSweep => s.(cutoffs := s.cutoffs + [s.now - c.ttl])
    case RunSweep(n) =>
      s.(table := DeleteBefore(s.table, s.cutoffs[n]), cutoffs := s.cutoffs[..n] + s.cutoffs[n + 1..])
    case Arrive(id, request) => s.(reqs := s.reqs[id := Req(request, Queued)])
    case Leave(id) => Move(s, id, Logging(Rejected))
    case Admit(id) => Move(s, id, Admitted).(borrowed := s.borrowed + 1)
    case Look(id) =>
      var row := Select(s.table, KeyOf(s.reqs[id].request));
      Move(s, id, if row.Some? then Found(row.value) else Missed)
    case Skip(id) => Move(s, id, Missed)
    case Test(id) => Move(s, id, Judge(c, s, s.reqs[id].request, s.reqs[id].phase.row))
    case Drop(id, committed, raised) =>
      var key := KeyOf(s.reqs[id].request);
      var t := if committed then DeleteScoped(s.table, key, s.reqs[id].phase.created) else s.table;
      Move(s, id, if raised then Replying(Rejected) else Missed).(table := t)
    case Reject(id) => Move(s, id, Replying(Rejected))
    case Check(id) =>
      Move(s, id, if Refuses(c.cap, s.spent) then Replying(Refused) else Running(Start(JobOf(c, s.reqs[id].request))))
    case Call(id, reply) =>
      Move(s, id, Running(Advance(JobOf(c, s.reqs[id].request), s.reqs[id].phase.pipe, reply)))
      .(log := s.log + [Called(id, reply)])
    case Add(id) =>
      var p := s.reqs[id].phase.pipe;
      if p.Accepted? then
        Move(s, id, Won(ResponseOf(p))).(spent := s.spent + CostOf(p), log := s.log + [Succeeded(id, ResponseOf(p))])
      else
        Move(s, id, Replying(Failed(CodeOf(p), CostOf(p)))).(spent := s.spent + CostOf(p))
    case Stamp(id) =>
      var r := s.reqs[id].request;
      Move(s, id, Storing(Row(c.hash(r.payload), s.reqs[id].phase.response, s.now)))
    case Reply(id) => Move(s, id, Replying(Fresh(s.reqs[id].phase.response)))
    case Store(id, committed, raised) =>
      var row := s.reqs[id].phase.row;
      var s' := if committed then Insert(s, KeyOf(s.reqs[id].request), row) else s;
      Move(s', id, Replying(if raised then Unstored(row.response) else Fresh(row.response)))
    case Release(id) => Move(s, id, Logging(s.reqs[id].phase.outcome)).(borrowed := s.borrowed - 1)
    case Log(id) =>
      Move(s, id, Done(s.reqs[id].phase.outcome)).(log := s.log + [Line(id, s.reqs[id].phase.outcome)])
  }

  // ---------- runs ----------

  /** The states a run passes through: it starts with an empty store and an unspent budget, and each
      step is an enabled action. */
  ghost predicate IsRun(c: Config, states: seq<State>, actions: seq<Action>) {
    && |states| == |actions| + 1
    && states[0] == Initial(states[0].now)
    && forall i :: 0 <= i < |actions| ==>
         Enabled(c, states[i], actions[i]) && states[i + 1] == Do(c, states[i], actions[i])
  }
}
