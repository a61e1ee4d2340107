/** The validation-retry loop (llm/pipeline.py): call, strict-validate, ask again with the errors. */
module Pipeline {
  import opened Schemas
  import opened Provider

  // What a call is asked: the document, and from the second attempt on also the failure just before it
  // (llm/pipeline.py:65-73).
  datatype Prompt = Ask(content: string) | AskAgain(content: string, previousText: string, errors: ErrorSummary)

  // One extraction job: the schema asked for, the document text, and the attempt bound (MAX_ATTEMPTS).
  datatype Job = Job(validate: (DocType, string) -> Validation, doc: DocType, content: string, maxAttempts: nat) {
    function Check(text: string): Validation {
      validate(doc, text)
    }

    predicate Rejects(o: CallOutcome) {
      o.Completed? && Check(o.result.text).Invalid?
    }
  }

  // Where a run stands: still trying, or one of the three ways out of the loop.
  datatype Pipe =
    | Trying(prompt: Prompt, trail: seq<ErrorSummary>, tokensIn: nat, tokensOut: nat, costUsd: Usd, latencyMs: real)
    | Accepted(record: Record, total: Completion, attempts: nat)
    | Exhausted(trail: seq<ErrorSummary>, costUsd: Usd)
    | Aborted(failure: Failure, costUsd: Usd)

  // The spend a run carries: its accumulator, or what its result or exception reports.
  function CostOf(p: Pipe): Usd {
    if p.Accepted? then p.total.costUsd else p.costUsd
  }

  function Start(job: Job): Pipe {
    Trying(Ask(job.content), [], 0, 0, 0.0, 0.0)
  }

  // One trip round the loop.
  function Advance(job: Job, p: Pipe, o: CallOutcome): (p': Pipe)
    requires p.Trying?
    ensures CostOf(p') == CostOf(p) + KnownCost(o)
  {
    if o.Raised? then
      Aborted(o.failure, o.costUsd + p.costUsd)
    else
      var tokensIn, tokensOut := p.tokensIn + o.result.tokensIn, p.tokensOut + o.result.tokensOut;
      var costUsd, latencyMs := p.costUsd + o.result.costUsd, p.latencyMs + o.result.latencyMs;
      match job.Check(o.result.text)
      case Valid(record) =>
        var total := o.result.(tokensIn := tokensIn, tokensOut := tokensOut,
                               costUsd := costUsd, latencyMs := latencyMs);
        Accepted(record, total, |p.trail| + 1)
      case Invalid(errors) =>
        var trail := p.trail + [errors];
        if |trail| < job.maxAttempts then
          Trying(AskAgain(job.content, o.result.text, errors), trail, tokensIn, tokensOut, costUsd, latencyMs)
        else
          Exhausted(trail, costUsd)
  }

  // The state after at most k calls, given what each call returns.
  function After(job: Job, provider: nat -> CallOutcome, k: nat): Pipe {
    if k == 0 then
      Start(job)
    else
      var p := After(job, provider, k - 1);
      if p.Trying? then Advance(job, p, provider(k - 1)) else p
  }

  // Sums over the first n calls; a raised call reports no tokens and no latency.
  function CostOfFirst(provider: nat -> CallOutcome, n: nat): Usd {
    if n == 0 then 0.0 else CostOfFirst(provider, n - 1) + KnownCost(provider(n - 1))
  }

  function LatencyOfFirst(provider: nat -> CallOutcome, n: nat): real {
    if n == 0 then 0.0
    else LatencyOfFirst(provider, n - 1) + if provider(n - 1).Completed? then provider(n - 1).result.latencyMs else 0.0
  }

  function TokensInOfFirst(provider: nat -> CallOutcome, n: nat): nat {
    if n == 0 then 0
    else TokensInOfFirst(provider, n - 1) + if provider(n - 1).Completed? then provider(n - 1).result.tokensIn else 0
  }

  function TokensOutOfFirst(provider: nat -> CallOutcome, n: nat): nat {
    if n == 0 then 0
    else TokensOutOfFirst(provider, n - 1) + if provider(n - 1).Completed? then provider(n - 1).result.tokensOut else 0
  }

  /** Each sum starts at nothing and grows by what the next call reports. */
  lemma SumsOfCalls(provider: nat -> CallOutcome, n: nat)
    ensures CostOfFirst(provider, 0) == 0.0 && LatencyOfFirst(provider, 0) == 0.0
    ensures TokensInOfFirst(provider, 0) == 0 && TokensOutOfFirst(provider, 0) == 0
    ensures match provider(n)
            case Completed(r) =>
              && CostOfFirst(provider, n + 1) == CostOfFirst(provider, n) + r.costUsd
              && LatencyOfFirst(provider, n + 1) == LatencyOfFirst(provider, n) + r.latencyMs
              && TokensInOfFirst(provider, n + 1) == TokensInOfFirst(provider, n) + r.tokensIn
              && TokensOutOfFirst(provider, n + 1) == TokensOutOfFirst(provider, n) + r.tokensOut
            case Raised(_, costUsd) =>
              && CostOfFirst(provider, n + 1) == CostOfFirst(provider, n) + costUsd
              && LatencyOfFirst(provider, n + 1) == LatencyOfFirst(provider, n)
              && TokensInOfFirst(provider, n + 1) == TokensInOfFirst(provider, n)
              && TokensOutOfFirst(provider, n + 1) == TokensOutOfFirst(provider, n)
  {
  }

  // The errors of attempt k, where that attempt was rejected.
  function ErrorsOf(job: Job, o: CallOutcome): ErrorSummary {
    if job.Rejects(o) then job.Check(o.result.text).errors else NO_ERRORS
  }

  // The prompt of attempt k: the content first, then the content with the previous attempt's failure.
  function PromptFor(job: Job, provider: nat -> CallOutcome, k: nat): Prompt {
    if k == 0 || !provider(k - 1).Completed? then
      Ask(job.content)
    else
      AskAgain(job.content, provider(k - 1).result.text, ErrorsOf(job, provider(k - 1)))
  }

  /** The number of calls a run makes: up to and including the first call that is not a rejected
      completion, and never more than the bound. */
  ghost predicate IsCallCount(job: Job, provider: nat -> CallOutcome, calls: nat) {
    && 1 <= calls <= job.maxAttempts
    && (forall k :: 0 <= k < calls - 1 ==> job.Rejects(provider(k)))
    && (calls == job.maxAttempts || !job.Rejects(provider(calls - 1)))
  }

  // One entry per attempt: the errors that attempt was rejected with.
  ghost predicate IsTrail(job: Job, provider: nat -> CallOutcome, n: nat, trail: seq<ErrorSummary>) {
    |trail| == n && forall k :: 0 <= k < n ==> trail[k] == ErrorsOf(job, provider(k))
  }

  /** What a finished run must carry out, stated over the calls actually made. */
  ghost predicate Settles(job: Job, provider: nat -> CallOutcome, calls: nat, p: Pipe) {
    && IsCallCount(job, provider, calls)
    && CostOf(p) == CostOfFirst(provider, calls)
    && var last := provider(calls - 1);
    match p
    case Trying(_, _, _, _, _, _) => false
    case Accepted(record, total, attempts) =>
      && last.Completed? && job.Check(last.result.text) == Valid(record)
      && attempts == calls
      && total.tokensIn == TokensInOfFirst(provider, calls)
      && total.tokensOut == TokensOutOfFirst(provider, calls)
      && total.latencyMs == LatencyOfFirst(provider, calls)
      && total.text == last.result.text && total.model == last.result.model
      && total.stopReason == last.result.stopReason
    case Exhausted(trail, _) =>
      && job.Rejects(last) && calls == job.maxAttempts
      && IsTrail(job, provider, calls, trail)
    case Aborted(failure, _) =>
      last.Raised? && failure == last.failure
  }

  // While the run is trying, its accumulators are the sums over the calls made so far.
  ghost predicate Accumulates(job: Job, provider: nat -> CallOutcome, k: nat, p: Pipe) {
    && p.Trying?
    && p.prompt == PromptFor(job, provider, k)
    && IsTrail(job, provider, k, p.trail)
    && p.tokensIn == TokensInOfFirst(provider, k)
    && p.tokensOut == TokensOutOfFirst(provider, k)
    && p.costUsd == CostOfFirst(provider, k)
    && p.latencyMs == LatencyOfFirst(provider, k)
  }

  lemma AdvanceAccumulates(job: Job, provider: nat -> CallOutcome, k: nat, p: Pipe)
    requires Accumulates(job, provider, k, p) && k + 1 < job.maxAttempts && job.Rejects(provider(k))
    ensures Accumulates(job, provider, k + 1, Advance(job, p, provider(k)))
  {
  }

  lemma AdvanceSettles(job: Job, provider: nat -> CallOutcome, k: nat, p: Pipe)
    requires Accumulates(job, provider, k, p) && IsCallCount(job, provider, k + 1)
    ensures Settles(job, provider, k + 1, Advance(job, p, provider(k)))
  {
  }

  // A run still trying after k calls has seen k rejected completions, and knows it.
  lemma {:induction false} TryingAccumulates(job: Job, provider: nat -> CallOutcome, k: nat)
    requires After(job, provider, k).Trying?
    ensures forall j :: 0 <= j < k ==> job.Rejects(provider(j))
    ensures Accumulates(job, provider, k, After(job, provider, k))
    ensures k == 0 || k < job.maxAttempts
  {
    if k > 0 {
      TryingAccumulates(job, provider, k - 1);
      AdvanceAccumulates(job, provider, k - 1, After(job, provider, k - 1));
    }
  }

  lemma {:induction false} RejectedKeepsTrying(job: Job, provider: nat -> CallOutcome, k: nat)
    requires k < job.maxAttempts && forall j :: 0 <= j < k ==> job.Rejects(provider(j))
    ensures After(job, provider, k).Trying?
  {
    if k > 0 {
      RejectedKeepsTrying(job, provider, k - 1);
      TryingAccumulates(job, provider, k - 1);
    }
  }

  lemma {:induction false} FinishedStays(job: Job, provider: nat -> CallOutcome, k: nat, n: nat)
    requires k <= n && !After(job, provider, k).Trying?
    ensures After(job, provider, n) == After(job, provider, k)
  {
    if k < n {
      FinishedStays(job, provider, k, n - 1);
    }
  }

  /** Billing conservation: for every behaviour of the provider and every attempt bound, iterating the
      loop body settles the run at exactly the calls it makes. */
  lemma RunSettles(job: Job, provider: nat -> CallOutcome, calls: nat)
    requires IsCallCount(job, provider, calls)
    ensures Settles(job, provider, calls, After(job, provider, job.maxAttempts))
  {
    RejectedKeepsTrying(job, provider, calls - 1);
    TryingAccumulates(job, provider, calls - 1);
    AdvanceSettles(job, provider, calls - 1, After(job, provider, calls - 1));
    FinishedStays(job, provider, calls, job.maxAttempts);
  }

  // A run settles in one way only.
  lemma SettlesOnce(job: Job, provider: nat -> CallOutcome, calls: nat, p: Pipe)
    requires Settles(job, provider, calls, p)
    ensures p == After(job, provider, job.maxAttempts)
  {
    RunSettles(job, provider, calls);
  }

  /** The trail of a run that gave up: for every attempt, what the validator said of that attempt's text. */
  lemma TrailOfRejections(job: Job, provider: nat -> CallOutcome, calls: nat, p: Pipe)
    requires Settles(job, provider, calls, p) && p.Exhausted?
    ensures |p.trail| == calls == job.maxAttempts
    ensures forall k :: 0 <= k < calls ==>
              provider(k).Completed? && job.validate(job.doc, provider(k).result.text) == Invalid(p.trail[k])
  {
    forall k | 0 <= k < calls
      ensures provider(k).Completed? && job.validate(job.doc, provider(k).result.text) == Invalid(p.trail[k])
    {
      assert job.Rejects(provider(k));
    }
  }

  // The prompts of the first n calls, in order.
  function PromptsOf(job: Job, provider: nat -> CallOutcome, n: nat): (prompts: seq<Prompt>)
    ensures |prompts| == n
  {
    if n == 0 then [] else PromptsOf(job, provider, n - 1) + [PromptFor(job, provider, n - 1)]
  }

  lemma {:induction false} PromptsAt(job: Job, provider: nat -> CallOutcome, n: nat, k: nat)
    requires k < n
    ensures PromptsOf(job, provider, n)[k] == PromptFor(job, provider, k)
  {
    if k < n - 1 {
      PromptsAt(job, provider, n - 1, k);
    }
  }

  // What the loop's local variables hold before call k, the calls so far all rejected.
  ghost predicate LoopHolds(job: Job, provider: nat -> CallOutcome, k: nat, p: Pipe, prompts: seq<Prompt>) {
    && Accumulates(job, provider, k, p)
    && prompts == PromptsOf(job, provider, k)
    && forall j :: 0 <= j < k ==> job.Rejects(provider(j))
  }

  lemma LoopNext(job: Job, provider: nat -> CallOutcome, k: nat, p: Pipe, prompts: seq<Prompt>)
    requires LoopHolds(job, provider, k, p, prompts) && job.Rejects(provider(k))
    ensures var r := provider(k).result;
            var errors := job.Check(r.text).errors;
            LoopHolds(job, provider, k + 1,
                      Trying(AskAgain(job.content, r.text, errors), p.trail + [errors],
                             p.tokensIn + r.tokensIn, p.tokensOut + r.tokensOut,
                             p.costUsd + r.costUsd, p.latencyMs + r.latencyMs),
                      prompts + [p.prompt])
  {
  }

  lemma LoopAborts(job: Job, provider: nat -> CallOutcome, k: nat, p: Pipe, prompts: seq<Prompt>)
    requires LoopHolds(job, provider, k, p, prompts) && k < job.maxAttempts && provider(k).Raised?
    ensures Settles(job, provider, k + 1, Aborted(provider(k).failure, provider(k).costUsd + p.costUsd))
    ensures prompts + [p.prompt] == PromptsOf(job, provider, k + 1)
  {
  }

  lemma LoopAccepts(job: Job, provider: nat -> CallOutcome, k: nat, p: Pipe, prompts: seq<Prompt>)
    requires LoopHolds(job, provider, k, p, prompts) && k < job.maxAttempts
    requires provider(k).Completed? && job.Check(provider(k).result.text).Valid?
    ensures var r := provider(k).result;
            var total := Completion(r.text, r.model, p.tokensIn + r.tokensIn, p.tokensOut + r.tokensOut,
                                    p.costUsd + r.costUsd, p.latencyMs + r.latencyMs, r.stopReason);
            Settles(job, provider, k + 1, Accepted(job.Check(r.text).record, total, k + 1))
    ensures prompts + [p.prompt] == PromptsOf(job, provider, k + 1)
  {
  }

  lemma LoopExhausts(job: Job, provider: nat -> CallOutcome, p: Pipe, prompts: seq<Prompt>)
    requires job.maxAttempts >= 1 && LoopHolds(job, provider, job.maxAttempts, p, prompts)
    ensures Settles(job, provider, job.maxAttempts, Exhausted(p.trail, p.costUsd))
  {
  }

  // llm/pipeline.py:76-146. `prompts` lists the prompt of each call.
  method RunExtraction(job: Job, provider: nat -> CallOutcome)
    returns (p: Pipe, prompts: seq<Prompt>)
    requires job.maxAttempts >= 1
    ensures Settles(job, provider, |prompts|, p)
    ensures prompts == PromptsOf(job, provider, |prompts|)
  {
    prompts := [];
    var prompt := Ask(job.content);
    var trail: seq<ErrorSummary> := [];
    var tokensIn: nat, tokensOut: nat := 0, 0;
    var costUsd: Usd, latencyMs := 0.0, 0.0;
    for attempt := 1 to job.maxAttempts + 1
      invariant LoopHolds(job, provider, attempt - 1,
                          Trying(prompt, trail, tokensIn, tokensOut, costUsd, latencyMs), prompts)
    {
      ghost var before := Trying(prompt, trail, tokensIn, tokensOut, costUsd, latencyMs);
      ghost var asked := prompts;
      prompts := prompts + [prompt];
      var outcome := provider(attempt - 1);
      if outcome.Raised? {
        LoopAborts(job, provider, attempt - 1, before, asked);
        return Aborted(outcome.failure, outcome.costUsd + costUsd), prompts;
      }
      var result := outcome.result;
      tokensIn, tokensOut := tokensIn + result.tokensIn, tokensOut + result.tokensOut;
      costUsd, latencyMs := costUsd + result.costUsd, latencyMs + result.latencyMs;
      var checked := job.Check(result.text);
      if checked.Valid? {
        var total := Completion(result.text, result.model, tokensIn, tokensOut, costUsd, latencyMs, result.stopReason);
        LoopAccepts(job, provider, attempt - 1, before, asked);
        return Accepted(checked.record, total, attempt), prompts;
      }
      trail := trail + [checked.errors];
      prompt := AskAgain(job.content, result.text, checked.errors);
      LoopNext(job, provider, attempt - 1, before, asked);
    }
    LoopExhausts(job, provider, Trying(prompt, trail, tokensIn, tokensOut, costUsd, latencyMs), prompts);
    return Exhausted(trail, costUsd), prompts;
  }
}
