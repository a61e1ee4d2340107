# extract-api: a verified model

The service turns a document into a strict record by calling an LLM provider, validating what comes back,
asking once more with the errors, and charging the spend to a budget. A client may send an
`Idempotency-Key`, and a repeated request is then answered from a store. Around the service stand an
accuracy harness, a load test and a sanitizer for the schemas sent to providers. This project models that
logic in Dafny and proves what the code and its documentation promise.

| module | models |
| --- | --- |
| `Provider` | pricing a call, and the failure ladder of both `complete` methods (`llm/client.py`) |
| `Pipeline` | the validation-retry loop, for any attempt bound (`llm/pipeline.py`) |
| `Budget`, `Idempotency` | the budget guard and the SQLite store as classes (`api/budget.py`, `api/idempotency.py`) |
| `Endpoint` | the handlers of one request, as methods on the store, the budget and the facts bag (`api/main.py`, `api/observability.py`) |
| `Sequential` | requests and sweeps one after another: a map from key to response with expiry |
| `Protocol` | the service as a step machine: every SELECT, expiry test, scoped DELETE, budget read, provider call, budget add, INSERT, slot and access line is a step of its own, of any number of requests, interleaved with sweeps and the clock |
| `Spending`, `Replay`, `Attribution` | invariants over every run of that machine: money, the store, and which calls an answer rests on |
| `Overshoot` | the least bound on spend past the cap, and when the documented one holds |
| `Progress` | from every state, every request can still end |
| `Refinement` | the methods of `Endpoint` are runs of the machine |
| `Exclusion` | when a success is produced once for each key and TTL |
| `BodyLimit` | the body cap, its decimal comparison and the admission gate |
| `Schemas` | the cross-field checks of both record schemas |
| `Sanitizer` | the schema sanitizer |
| `SchemaMeaning` | an evaluator for JSON Schema 2020-12, and what sanitizing does to the meaning of a schema |
| `SchemaKeywords` | that evaluator against the standard: what a schema with one keyword accepts, for each keyword, and that keywords side by side are a conjunction |
| `SchemaLimits` | literals, negation and exclusive choice: where sanitizing is not safe, and exactly when it is |
| `Scoring`, `RunAccuracy`, `ReportOutput` | per-field scoring, the accuracy run, and the atomic publication of its report |
| `Percentile` | both percentile definitions |
| `Sums`, `Text` | finite sums; white space |

Main results, hardest first.

- *Fresh rows survive.* In every interleaving, no step removes or alters a stored row whose age is within the
  TTL, an expiry delete that runs late included, even when time stamps collide (`Replay.FreshRowSurvives`,
  `Replay.FreshRowsPersist`). Answers from the store are faithful, agree, and are valid records.
- *Own answers.* In every interleaving each success is the last reply called for that very request, validated,
  with the number, cost and latency of all its calls (`Attribution.SuccessIsOwnAnswer`); so is every access line.
- *Money.* Committed spend stays under the cap plus slots times attempts times the cost of a call, and no
  smaller excess is safe. The cost of all calls is the committed spend plus what runs in progress carry; the
  access lines never exceed it, and equal it at rest exactly when no lost store write had a cost.
- *Sequential meaning.* One request after another, the endpoint is a map with expiry, and every such history is
  a run of the concurrent machine. Successes under one key are kept a TTL apart in every run exactly when
  there is at most one slot: with two, concurrent misses can both run, as the code says.
- *Sanitizing.* Whatever the dropped keywords mean, the sanitized schema accepts exactly what the original
  accepts with those keywords read as annotations. So it only weakens wherever giving them up loses no instance,
  which is proved where nothing is dropped under a negation or an exclusive choice, and decided by an exact
  condition, with an input that fails, for `const`, `enum`, `not` and `oneOf`.
- *The accuracy report* counts each fixture and each reported dollar once, does not depend on the order of
  outcomes, costs and latencies, and reaches disk whole or not at all.

Money, time and latency are reals, and the clock does not go back. The attempt bound is any number from one up.
Any quantity the environment supplies (provider replies, faults, content decoding, parsing, predictors) is an
arbitrary input or an arbitrary function.

## Model

| member | source | states |
|---|---|---|
| `Replay.FreshRowSurvives` | api/idempotency.py:143-208 | No step of any interleaving (late scoped DELETE, sweep, insert) removes or alters a row whose age is within the TTL, given that pending deletes aim at rows already too old; no assumption on stamps being distinct. |
| `Replay.SoundAlways` | api/idempotency.py:143-208 | The store and provenance invariants, pending deletes aiming only at expired rows among them, hold in every state of every run. |
| `Replay.FreshRowsPersist` | api/idempotency.py:166-170 | First writer wins: a row young enough at a later state is still there, unaltered, in every state between. |
| `Replay.LookupFinds` | api/main.py:201-211 | A lookup made while a stored row is young finds that very row, whatever ran in between. |
| `Replay.StoreAnswersFaithful` | api/main.py:201-211 | A replay or conflict rests on a row that a step of the run tested for this request and found of age at most the TTL, produced by a run that had already succeeded under the same key and the row's hash; replay if and only if the hashes agree; no provider call is made for it. |
| `Replay.StoreAnswersAgree` | api/idempotency.py:166-170 | All answers given under one key from the row of one stamp carry the same row. |
| `Replay.BodiesValid` | api/main.py:135-222 | Every 200 body of every run, fresh or replayed, satisfies its schema's relations, and is of the schema asked for unless two payloads of the run's requests collide. |
| `Attribution.SuccessIsOwnAnswer` | api/main.py:94-147 | In every interleaving, each success is its own request's: all calls made for it but the last were rejected, the last completed with a text that the validator of the type asked for turns into exactly the data given, and attempts, cost and latency are those of all these calls. |
| `Attribution.LineIsOwnOutcome` | api/main.py:94-222 | So is every access line: a success or a failure rests on all the calls made for the request, with their cost and with the code of how the last ended; any other outcome made no call. |
| `Attribution.AsksForOwnContent` | llm/pipeline.py:65-146 | Whenever a run is about to call, it asks for its own request's content, with the text and the errors of its own last reply if there is one. |
| `Spending.SpendBounded` | api/budget.py:8-13 | With a cap set, committed spend is below the cap plus, for each slot, the most one run can cost, in every reachable state. |
| `Spending.BoundIsProduct` | api/budget.py:8-13 | That overshoot is slots times attempts times the cost bound of one call. |
| `Overshoot.OvershootIff` | api/budget.py:8-13 | With a cap, a slot and a price, an excess is never reached in any run if and only if it is at least slots times the calls a run can make (the attempt bound if some text can be rejected, else one) times the cost of a call. |
| `Overshoot.ExcessReached` | api/main.py:94-136 | Every smaller excess is reached by a run: spend close under the cap, every slot past the check, every run as dear as it can be. |
| `Overshoot.CallsInFlightIff` | api/budget.py:11-12 | The documented bound, one call for each slot, holds in every run if and only if a run makes at most one call, or there is no slot, or calls cost nothing, or the validator rejects nothing. |
| `Spending.RefusalIsFinal` | api/budget.py:39-55 | Once one budget check refuses, every later check refuses. |
| `Spending.CheckDecides` | api/budget.py:39-50 | In every run a budget check refuses if and only if a cap is set and the committed spend has reached it; with no cap every check lets its request run, whatever has been spent. |
| `Spending.ChargesAre` | api/main.py:212-222 | Every run is charged to the budget, one whose response could not be stored too; the line of a 200 of its own or of a failed run reports the charge, a replay's zero, any other nothing. |
| `Spending.BillingConserved` | api/main.py:94-136 | The known cost of all calls ever made is the committed spend plus what unfinished runs carry, hence equal to it when none is in progress: every billed attempt is reconciled exactly once. |
| `Spending.LedgerAgrees` | api/observability.py:315-342 | The access lines' costs never sum to more than the committed spend; at rest they fall short by exactly the responses whose store write raised. |
| `Spending.LedgerEqualIff` | api/main.py:212-222 | At rest ledger and budget are equal if and only if every response whose store write raised had cost nothing. |
| `Spending.AccountsAlways` | api/main.py:313-336 | In every state the slots taken are the requests between admission and release, never more than the limit, every run has cost at most the bound for its calls, and the spend is reconciled. |
| `Progress.EveryRequestCanFinish` | api/main.py:313-336 | From every state of every run, given a slot, some continuation finishes every request that has arrived and gives every slot back. |
| `Refinement.TurnIsRun` | api/main.py:421-440 | One request handled alone is a run of the machine with the same answer, table and spend as the endpoint method. |
| `Refinement.HistoryIsRun` | api/main.py:186-222 | Every sequential history of requests and sweeps is a run of the concurrent machine with the same store, spend and answers. |
| `Exclusion.OneSlotOnce` | api/main.py:186-222 | With one slot and no lost store write, in every run: once a success is stamped under a key, no provider call is made and no success stamped under it until more than the TTL later. |
| `Exclusion.ConcurrentMissesBothRun` | api/main.py:197-199 | With two slots, two concurrent requests under one key can both miss, both run and both be billed. |
| `Exclusion.OncePerTtlIff` | api/main.py:197-199 | Given a reply that can be accepted, successes under one key are more than the TTL apart in every run if and only if there is at most one slot. |
| `Sequential.StoresIff` | api/main.py:186-222 | A response is stored if and only if no young row answers the key, the checks pass, the run's last call completes with a valid record and the write is committed. |
| `Sequential.StoredIsAnswer` | api/main.py:212-221 | The row stored has the request's hash and stamp, and carries the record the validator gave for the run's last call, with the sums over its calls. |
| `Sequential.AnsweredFromSuccess` | api/main.py:186-211 | Within the TTL of a stored success every request under its key replays it, or conflicts when its payload hash differs. |
| `Sequential.FromStoreIffRecentSuccess` | api/main.py:186-222 | A keyed request is answered from the store if and only if an earlier success under its key was stored at most the TTL before. |
| `Sequential.SuccessesApart` | api/idempotency.py:166-197 | Two successes stored under one key are more than the TTL apart. |
| `Sequential.FailureChangesNoAnswer` | api/main.py:194-195 | A visit that stores nothing leaves every answer the store can give as it was, so the key stays retryable. |
| `Sequential.SuccessChangesItsKey` | api/main.py:212-221 | A stored success changes the answer of its own key and of no other. |
| `Endpoint.RunExtract` | api/main.py:72-147 | Refused, rejected or run by the source's order of checks: content, budget, client. A response carries the record the validator gave for the last call's text, that call's model, and the number, cost and latency of exactly the calls made; a failure has the code of how the last call ended. The budget rises by exactly their cost; a failed run notes its cost, a terminal validation failure also its attempts, anything else neither. Each call is asked for the content, and a retry with the previous text and its errors. |
| `Endpoint.RunExtractIdempotent` | api/main.py:186-222 | A row within the TTL answers, replayed or in conflict by its hash, and no call is made; else the run answers as above. The new table is the old one without the stale row, plus the new row, with that very response and stamp, exactly when a success was written, whether or not the write then raised. |
| `Endpoint.Extract` | api/main.py:421-440 | One request end to end: outcome, table, budget and the access line's cost and attempts; a response is the last call's, validated, and a run's charge is the cost of exactly the calls made. |
| `Endpoint.ValidateIdempotencyKey` | api/main.py:167-183 | A key is accepted if and only if it is not blank and at most 255 characters once stripped, and it is the stripped text. |
| `Endpoint.KeyIsTrimmed` | api/main.py:175-175 | The key is a slice of the text sent, with only white space around it and none at its ends. |
| `Text.Spaces` | api/main.py:86-86 | Space, tab and line breaks count as white space, printing ASCII does not. |
| `Idempotency.SqliteIdempotencyStore.Get` | api/idempotency.py:143-164 | Answers with the key's row if and only if its age is at most the TTL, and then leaves the table alone; else the key is gone, and every live row as it was. |
| `Idempotency.SqliteIdempotencyStore.Put` | api/idempotency.py:166-184 | A stored row is never overwritten; a new key gets exactly its row. |
| `Idempotency.SqliteIdempotencyStore.Sweep` | api/idempotency.py:186-197 | Keeps exactly the rows of age at most the TTL, those a lookup at that moment could answer with, and returns how many went. |
| `Budget.BudgetGuard.Check` | api/budget.py:39-50 | With no cap it passes whatever has been spent; with one, if and only if the committed spend is below it. |
| `Pipeline.RunExtraction` | llm/pipeline.py:76-146 | For every provider and attempt bound: the calls made are those up to the first that is not a rejected completion; cost, tokens and latency are sums over exactly those calls on every way out; the trail has one entry per attempt; each retry's prompt carries the previous text and its errors. |
| `Pipeline.RunSettles` | llm/pipeline.py:93-146 | The same conservation for the pure iteration the machine steps through. |
| `Pipeline.SettlesOnce` | llm/pipeline.py:100-146 | What a run carries out is determined by those sums: the loop and the iteration agree. |
| `Pipeline.SumsOfCalls` | llm/pipeline.py:92-114 | Each sum starts at nothing and grows by what the next call reports: a completion its cost, latency and tokens, a failed call its cost alone. |
| `Pipeline.TrailOfRejections` | llm/pipeline.py:116-146 | A run that gave up has made every attempt, and entry k of its trail is what the validator said of the text of attempt k. |
| `Pipeline.PromptsAt` | llm/pipeline.py:65-73 | Call k is asked for the content, and from the second on with the text and the errors of the call before it. |
| `Provider.TokenCostMonotone` | llm/client.py:135-153 | A bound on a call's tokens is a bound on its cost. |
| `Provider.PriceAdds` | llm/client.py:135-153 | A million tokens in cost the input price, a million out the output price, and the price of two calls together is the sum of their prices. |
| `Provider.OpenAIComplete` | llm/client.py:211-302 | Every answered call with readable usage carries its price, completed or failed: the tokens read at the input price and the tokens written at the output price, per million; which failure it is, exactly; otherwise the text, counts and defaults of a completion. |
| `Provider.AnthropicComplete` | llm/client.py:343-437 | The same for the Anthropic ladder. |
| `Provider.AnthropicText` | llm/client.py:169-180 | The text blocks in order, and nothing else. |
| `Provider.TextOfParts` | llm/client.py:169-180 | The text of two lists of blocks is the text of the one and then of the other; a text block's is its text, another block's nothing. |
| `Schemas.CheckTotals` | schemas/invoice_v1.py:48-73 | The loop computes the validator's verdict, the first failing test first. |
| `Schemas.InvoiceErrors` | schemas/invoice_v1.py:48-73 | No complaint if and only if total = subtotal + tax when tax is stated and the items, when present, are non-empty and sum to the subtotal. |
| `Schemas.JobErrors` | schemas/job_posting_v1.py:83-111 | No complaint if and only if names are non-blank, salary bounds non-negative and ordered, and a bound has a currency. |
| `Schemas.InvoiceErrorsExact` | schemas/invoice_v1.py:48-73 | Each complaint if and only if its own relation fails and none before it did. |
| `Schemas.SumAmountsAdds` | schemas/invoice_v1.py:67-67 | The amounts of two lists of items add up; one item's sum is its amount. |
| `Schemas.JobErrorsExact` | schemas/job_posting_v1.py:83-111 | Every failing field is named and no other; currency and order are complained of only when every field passes, the currency first. |
| `Schemas.Validate` | llm/pipeline.py:115-119 | Accepts exactly the well-shaped records of the schema asked for that satisfy its relations, and returns them as parsed. |
| `Schemas.ValidateIsStrict` | llm/pipeline.py:117-119 | Parsing followed by the schema's checks accepts only valid records of the schema asked for, whatever the parser does. |
| `BodyLimit.OverIffExceeds` | api/main.py:293-300 | For digit strings of any length, leading zeros included, the length-first test is true if and only if the decimal value exceeds the limit, and int() is only given short strings. |
| `BodyLimit.ValueIs` | api/main.py:293-300 | One digit more is ten times the number plus the digit. |
| `BodyLimit.BodyCap.Stream` | api/main.py:277-291 | What reaches the application is the chunks before the first whose running total passes the limit; cut off if and only if the whole body exceeds it. |
| `BodyLimit.MemoryBounded` | api/main.py:313-336 | In every interleaving the body bytes handed to requests in flight total at most the body limit for each slot. |
| `BodyLimit.CutAtFirstExcess` | api/main.py:269-291 | In every run the record of what the application was handed is empty for a queued or refused request, and for a cut one is exactly the chunks before the first excess. |
| `BodyLimit.TurnedAwayIffDeclaredOver` | api/main.py:269-276 | A request is turned away unread if and only if some declared length exceeds the limit. |
| `Sanitizer.StripObject` | llm/schema_utils.py:56-66 | The loop over a dict computes the recursive transformation, in any order of keys. |
| `Sanitizer.StripMembers` | llm/schema_utils.py:15-66 | Of a schema object's members exactly the twelve keywords go; the five name maps keep their names with each schema sanitized; every other value is sanitized as a schema. |
| `Sanitizer.StripCleans` | llm/schema_utils.py:44-69 | No unsupported keyword is left at a schema position at any depth. |
| `Sanitizer.FixedIffClean` | llm/schema_utils.py:44-69 | A schema is returned unchanged if and only if it has none of those keywords at a schema position; sanitizing is idempotent. |
| `Sanitizer.StripKeepsNames` | llm/schema_utils.py:35-41 | Every property and definition name is kept, one spelled like a keyword included, and the shape around it. |
| `SchemaMeaning.SanitizingKeeps` | llm/schema_utils.py:15-20 | Exactly the dropped keywords are given up: whatever they mean, the sanitized schema accepts an instance if and only if the original does with those keywords read as annotations, at every depth and through $ref into $defs, when literals hold no keyword-like key. |
| `SchemaMeaning.SafeIff` | llm/schema_utils.py:44-69 | So for every such schema, sanitizing only weakens if and only if reading those keywords as annotations loses no instance. |
| `SchemaMeaning.SanitizingWeakens` | llm/schema_utils.py:44-69 | It loses none where nothing is dropped under `not` and `oneOf`, or in the definitions that references there lead to: every instance accepted by the original is accepted by the sanitized schema. |
| `SchemaMeaning.CleanIsSafe` | llm/schema_utils.py:44-69 | A document with nothing to drop meets those conditions, with references anywhere. |
| `SchemaMeaning.CleanIgnores` | llm/schema_utils.py:44-69 | A schema with nothing to drop, there or in the definitions it leads to, does not depend on the dropped keywords, whatever else its document holds. |
| `SchemaMeaning.Local` | llm/schema_utils.py:35-41 | A schema means the same in any two documents that agree on the definitions it leads to. |
| `SchemaLimits.ConstWeakensIff` | llm/schema_utils.py:55-69 | A const is safe to sanitize if and only if its value holds no unsupported key at a schema position. |
| `SchemaLimits.EnumWeakensIff` | llm/schema_utils.py:55-69 | An enum is safe to sanitize if and only if none of its values holds an unsupported key at a schema position. |
| `SchemaLimits.EnumCounterexample` | llm/schema_utils.py:55-69 | An enum object with a key spelled like a keyword stops being accepted. |
| `SchemaLimits.NotNeverWidens` | llm/schema_utils.py:55-69 | Under `not` sanitizing never accepts more, where the negated schema is itself weakened. |
| `SchemaLimits.FlatAccepts` | llm/schema_utils.py:58-66 | A schema whose dropped keywords stand at its top accepts what its sanitized form and those keywords accept together. |
| `SchemaLimits.NotSafeIff` | llm/schema_utils.py:55-69 | Negating a schema, keywords dropped at whatever depth, is safe to sanitize if and only if what it accepts without them it accepts with them; so always when nothing is dropped. |
| `SchemaLimits.NotFlatIff` | llm/schema_utils.py:55-69 | Where they stand at the top: if and only if the dropped keywords allow all that the kept ones allow. |
| `SchemaLimits.NotDroppedIff` | llm/schema_utils.py:55-69 | Negating one dropped keyword is safe if and only if the keyword constrains nothing. |
| `SchemaLimits.NotCounterexample` | llm/schema_utils.py:55-69 | Any instance a dropped minimum refuses is accepted under `not` before sanitizing and refused after. |
| `SchemaLimits.OneOfSafeIff` | llm/schema_utils.py:55-69 | With any branches and keywords dropped at any depth in any of them, `oneOf` is safe to sanitize if and only if an instance that one branch alone accepts is still accepted by exactly one without them. |
| `SchemaLimits.OneOfCounterexample` | llm/schema_utils.py:55-69 | A second branch that begins to accept makes `oneOf` refuse what it accepted. |
| `SchemaLimits.ConstCounterexample` | llm/schema_utils.py:55-69 | A const object with a key spelled like a keyword stops accepting its own literal. |
| `Scoring.ScoreRecord` | harness/scoring.py:54-71 | Each expected field gets the one outcome its predicted and expected values deserve. |
| `Scoring.ScoreFailed` | harness/scoring.py:74-86 | Present values are missed, expected nulls are failed nulls. |
| `Scoring.Aggregate` | harness/scoring.py:169-213 | The nested loops compute, for each field that occurs and no other, the count of every outcome; costs are sums; p50 and p95 are the least samples with at least 50 and 95 percent of the samples at or below them, p50 at most p95. |
| `Scoring.PartitionOfTally` | harness/scoring.py:188-204 | total = matches + mismatches + missed + hallucinated + failed null, and null matches are among the matches. |
| `Scoring.TallyGrows` | harness/scoring.py:188-204 | One more record moves exactly the fields it has, each in the total and in the count of its own outcome; a null match counts as a match too. |
| `Scoring.RatesMean` | harness/scoring.py:109-158 | Exact matches over all outcomes, and filled or correct nulls over the nulls that could be observed, each summed over the fields; zero where there is nothing to divide by. |
| `Scoring.OrderFree` | harness/scoring.py:169-213 | The whole report, per-field table, costs, counts and percentiles, is the same whatever the order of the outcomes, costs, latencies and failed costs it is folded from. |
| `Scoring.NullRatesSumToOne` | harness/scoring.py:141-158 | The hallucination and correct-null rates sum to one whenever a null could be observed. |
| `Scoring.FailedRecordNullRates` | harness/scoring.py:74-86 | A failed extraction changes neither null rate. |
| `Scoring.FailedRecordExactMatch` | harness/scoring.py:74-86 | A failed extraction never raises the exact-match rate. |
| `RunAccuracy.Preflight` | harness/run_accuracy.py:106-166 | Succeeds if and only if every fixture is well formed; else names the first malformed one and the first of its faults in the order of the checks. |
| `RunAccuracy.WellFormedIff` | harness/run_accuracy.py:118-164 | Well formed is: the selected doc type, non-blank; a known, non-empty version; non-blank content; and an object as label that the version's schema accepts. |
| `RunAccuracy.FaultOrder` | harness/run_accuracy.py:118-164 | The faults in the order in which they are looked for. |
| `RunAccuracy.Collect` | harness/run_accuracy.py:252-296 | One prediction per fixture in order, whatever the predictor does, each against the fixture's own label, and the lists and counters stand for what happened. |
| `RunAccuracy.RunAccuracy` | harness/run_accuracy.py:237-307 | No call when any fixture is malformed; else every fixture is a success, a failure or a skip, scored = successes + failures, unknown failed costs = failures with no cost, total cost = all reported costs, the provider is the last one the server named. |
| `RunAccuracy.ReportGrows` | harness/run_accuracy.py:252-307 | One more trial moves the report by what the attempt was: a prediction of cost x raises the total by x, with the successes if its record is valid and else with the failures; a failed prediction of known cost x raises the failed cost and the total by x, one of unknown cost only that count, both the failures; a rejected or unsent request raises the skips and leaves all else, statistics and times included, as it was. |
| `RunAccuracy.EmptyReport` | harness/scoring.py:169-213 | With no trial there is nothing to report: every figure is zero and no field occurs. |
| `RunAccuracy.FatesPartition` | harness/run_accuracy.py:252-296 | The four fates partition the fixtures; every fixture sent is scored and every success timed. |
| `RunAccuracy.SpendPartition` | harness/run_accuracy.py:279-295 | Every reported dollar is booked once, with the successes or with the failures of known cost. |
| `RunAccuracy.SkipsNeverCount` | harness/run_accuracy.py:255-264 | Skipped fixtures leave no trace in what is scored, timed or billed. |
| `Percentile.NearestRankIsPercentile` | harness/scoring.py:161-166 | The least sample with at least pct percent of the samples at or below it. |
| `Percentile.NearestRankMonotone` | harness/scoring.py:210-212 | A higher percent never gives a lower value, so p50 is at most p95. |
| `Percentile.InterpolatedMonotone` | scripts/load_test.py:61-69 | The interpolated percentile never falls as the percent rises. |
| `Percentile.InterpolatedLinear` | scripts/load_test.py:65-69 | On percents whose positions (n - 1) * percent / 100 lie between one whole number and the next it is a straight line in the percent. |
| `Percentile.InterpolatedAtSample` | scripts/load_test.py:65-69 | At the percent whose position is k it is the k-th sample in order. |
| `Percentile.InterpolatedRefuses` | scripts/load_test.py:63-64 | It is refused if and only if there is no sample or the percent is outside 0 to 100. |
| `Percentile.InterpolatedExample` | scripts/load_test.py:61-69 | Half-way between 0 and 10 it is 5. |
| `Percentile.InterpolatedEnds` | scripts/load_test.py:61-69 | At 0 and 100 it is the least and the greatest sample. |
| `Percentile.InterpolatedWithin` | scripts/load_test.py:61-69 | It always lies between them. |
| `Percentile.InterpolatedPermuted` | scripts/load_test.py:65-65 | It does not depend on the order of the samples. |
| `ReportOutput.Publish` | harness/report_output.py:22-52 | At every moment, so also when killed, the path holds its previous entry or the complete new report with the mode of the one it replaces, and once new it stays new; the report lands exactly when the sink was reserved and the file steps succeeded, whatever stdout does; the temporary stays only if it could not be unlinked; no paid work starts before the sink is reserved. |
| `ReportOutput.RunAndWrite` | harness/run_accuracy.py:448-473 | The run and its two sinks: success if and only if both were served, a held stdout failure is raised after the file is in place, and a raised fault really occurred. |
| `ReportOutput.Disk.WriteText` | harness/run_accuracy.py:465-465 | A write touches the temporary only and leaves a prefix of the text, all of it on success. |

Where the code and its documentation differ, the model follows the code.

- The budget's overshoot is described as bounded by the number of in-flight calls. What is in flight past a
  check is a run, and a run may make as many calls as the attempt bound. The bound proved is slots times
  attempts times the cost of a call (`Spending.SpendBounded`), no smaller one holds (`Overshoot.OvershootIff`),
  and `Overshoot.CallsInFlightIff` says exactly when the documented one does.
- The sanitizer is described as aware of keyword positions. It is for property and definition names, but not
  inside `const` and `enum` literals (`SchemaLimits.ConstWeakensIff` and `EnumWeakensIff`, each with an input
  that fails).

## Left out

- Exactly-once under concurrency is not stated: the code disclaims it (api/main.py:197-199).
- A clock that goes back, rounding, overflow and NaN: time and money are reals, and prices and caps are finite and non-negative as the environment checks require.
- Exceptions other than the provider's and the terminal validation failure: they escape the reconciliation in the code too, and no run of the model raises them.
- A restart of the process, which empties the budget guard but not the store.
- A client that leaves while its request is being worked on: the worker finishes, and only the status of its access line is lost. A client that leaves while queued is modelled.
- sha256 and the canonical serialization are an arbitrary hash function; `Replay.BodiesValid` says which payloads must not collide.
- The stored JSON of a response is the response itself, and its status column, always 200, is dropped.
- Pydantic's parsing, ISO 4217 codes, dates and enumerations, PDF and base64 decoding: arbitrary functions of their input. Plain text is passed through.
- The scan for a refusal part in an OpenAI response: its result is an input of the ladder.
- Without a report path the run writes no file; only the path with one is modelled.
- `Endpoint.RunExtract`: the trail in the body of a 422 is the run's (`Pipeline.TrailOfRejections`); a failed outcome carries its code and cost.
- The wording of the retry prompt, the note of the retry kinds and log messages.
- A store read or expiry delete that raises is a step of the machine (a rejection) but not of the sequential methods.
- `SchemaMeaning.SanitizingKeeps`: $ref is unfolded to every finite depth and accepted when it stays valid from some depth on; if, then, else, contains, prefixItems and the unevaluated keywords count as annotations.
- JSON strings are read one-to-one into words: a text that is a keyword, or a reference into $defs, is never also an `Other` text.
- `_validated_cost` and the HTTP side of the live predictor: a predictor is any function of the requests made to it.
- `FieldStats` is a value replaced in a map, not an object updated in place; the counts are the same.
- Another process writing to the report path during a run, and failures of parent-directory creation beyond success or error.
- An interrupt raised inside the report block: it behaves as a failing run, the temporary still being removed.
- Caller authentication, log redaction, health probes, the load-test driver, markdown rendering, deployment and the Postgres design of ADR 0004.
