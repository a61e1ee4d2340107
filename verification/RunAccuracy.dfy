/** The accuracy run: fixtures checked up front, then one prediction each (harness/run_accuracy.py). */
module RunAccuracy {
  import opened Schemas
  import opened Provider
  import opened Sums
  import opened Text
  import opened Scoring

  // ---------- fixtures ----------

  datatype JsonObject = JsonObject(text: string)

  // A decoded member of a fixture, by the type tests applied to it.
  datatype Member = Str(text: string) | Obj(object_: JsonObject) | OtherJson

  datatype Fixture = Fixture(
    docType: Option<Member>,
    schemaVersion: Option<Member>,
    content: Option<Member>,
    expected: Option<Member>)

  // The schemas registered for the selected doc type: which versions exist, and what strict
  // validation makes of an object (None: it fails, else the canonical record).
  datatype Registry = Registry(knows: string -> bool, canonical: (string, JsonObject) -> Option<FlatRecord>)

  datatype Fault =
    | MissingDocType | BadDocType | WrongDocType
    | MissingSchemaVersion | BadSchemaVersion | UnknownSchemaVersion
    | MissingContent | BadContent
    | MissingExpected | ExpectedNotObject | InvalidExpected

  // Each fault on its own terms, without regard to the order of the checks.
  ghost predicate Has(fx: Fixture, docType: string, schemas: Registry, fault: Fault) {
    match fault
    case MissingDocType => fx.docType.None?
    case BadDocType => fx.docType.Some? && (fx.docType.value.Str? ==> Blank(fx.docType.value.text))
    case WrongDocType => fx.docType.Some? && fx.docType.value != Str(docType)
    case MissingSchemaVersion => fx.schemaVersion.None?
    case BadSchemaVersion =>
      fx.schemaVersion.Some? && (fx.schemaVersion.value.Str? ==> fx.schemaVersion.value.text == "")
    case UnknownSchemaVersion =>
      fx.schemaVersion.Some? && fx.schemaVersion.value.Str? && !schemas.knows(fx.schemaVersion.value.text)
    case MissingContent => fx.content.None?
    case BadContent => fx.content.Some? && (fx.content.value.Str? ==> Blank(fx.content.value.text))
    case MissingExpected => fx.expected.None?
    case ExpectedNotObject => fx.expected.Some? && !fx.expected.value.Obj?
    case InvalidExpected =>
      && fx.schemaVersion.Some? && fx.schemaVersion.value.Str?
      && fx.expected.Some? && fx.expected.value.Obj?
      && schemas.canonical(fx.schemaVersion.value.text, fx.expected.value.object_).None?
  }

  function Order(fault: Fault): nat {
    match fault
    case MissingDocType => 0
    case BadDocType => 1
    case WrongDocType => 2
    case MissingSchemaVersion => 3
    case BadSchemaVersion => 4
    case UnknownSchemaVersion => 5
    case MissingContent => 6
    case BadContent => 7
    case MissingExpected => 8
    case ExpectedNotObject => 9
    case InvalidExpected => 10
  }

  ghost predicate WellFormed(fx: Fixture, docType: string, schemas: Registry) {
    forall fault :: !Has(fx, docType, schemas, fault)
  }

  ghost predicate FirstFault(fx: Fixture, docType: string, schemas: Registry, fault: Fault) {
    && Has(fx, docType, schemas, fault)
    && forall earlier :: Order(earlier) < Order(fault) ==> !Has(fx, docType, schemas, earlier)
  }

  // A fixture that passed, with its schema version and its label in canonical form.
  datatype Prepared = Prepared(fixture: Fixture, version: string, expected: FlatRecord)

  // The fixture declares this version, and this is its label in canonical form.
  ghost predicate Labelled(fx: Fixture, schemas: Registry, version: string, expected: FlatRecord) {
    && fx.schemaVersion == Some(Str(version))
    && fx.expected.Some? && fx.expected.value.Obj?
    && schemas.canonical(version, fx.expected.value.object_) == Some(expected)
  }

  /** What a well-formed fixture is, member by member. */
  lemma WellFormedIff(fx: Fixture, docType: string, schemas: Registry)
    ensures WellFormed(fx, docType, schemas) <==>
            && fx.docType == Some(Str(docType)) && !Blank(docType)
            && (exists content :: fx.content == Some(Str(content)) && !Blank(content))
            && exists version, expected ::
                 version != "" && schemas.knows(version) && Labelled(fx, schemas, version, expected)
  {
    if WellFormed(fx, docType, schemas) {
      assert !Has(fx, docType, schemas, MissingDocType) && !Has(fx, docType, schemas, BadDocType);
      assert !Has(fx, docType, schemas, WrongDocType) && !Has(fx, docType, schemas, MissingSchemaVersion);
      assert !Has(fx, docType, schemas, BadSchemaVersion) && !Has(fx, docType, schemas, UnknownSchemaVersion);
      assert !Has(fx, docType, schemas, MissingContent) && !Has(fx, docType, schemas, BadContent);
      assert !Has(fx, docType, schemas, MissingExpected) && !Has(fx, docType, schemas, ExpectedNotObject);
      assert !Has(fx, docType, schemas, InvalidExpected);
      var version := fx.schemaVersion.value.text;
      assert Labelled(fx, schemas, version, schemas.canonical(version, fx.expected.value.object_).value);
    }
  }

  /** Faults are looked for in the order in which a reader meets the members. */
  lemma FaultOrder()
    ensures Order(MissingDocType) < Order(BadDocType) < Order(WrongDocType) < Order(MissingSchemaVersion)
    ensures Order(MissingSchemaVersion) < Order(BadSchemaVersion) < Order(UnknownSchemaVersion) < Order(MissingContent)
    ensures Order(MissingContent) < Order(BadContent) < Order(MissingExpected) < Order(ExpectedNotObject)
    ensures Order(ExpectedNotObject) < Order(InvalidExpected)
  {
  }

  // One pass of the loop body (harness/run_accuracy.py:118-164).
  method CheckFixture(fx: Fixture, docType: string, schemas: Registry)
    returns (fault: Option<Fault>, p: Prepared)
    ensures fault.Some? ==> FirstFault(fx, docType, schemas, fault.value)
    ensures fault.None? ==> WellFormed(fx, docType, schemas)
    ensures fault.None? ==> p.fixture == fx && Labelled(fx, schemas, p.version, p.expected)
  {
    p := Prepared(fx, "", map[]);
    if fx.docType.None? { return Some(MissingDocType), p; }
    if !fx.docType.value.Str? || Blank(fx.docType.value.text) { return Some(BadDocType), p; }
    if fx.docType.value.text != docType { return Some(WrongDocType), p; }
    if fx.schemaVersion.None? { return Some(MissingSchemaVersion), p; }
    if !fx.schemaVersion.value.Str? || fx.schemaVersion.value.text == "" { return Some(BadSchemaVersion), p; }
    var version := fx.schemaVersion.value.text;
    if !schemas.knows(version) { return Some(UnknownSchemaVersion), p; }
    if fx.content.None? { return Some(MissingContent), p; }
    if !fx.content.value.Str? || Blank(fx.content.value.text) { return Some(BadContent), p; }
    if fx.expected.None? { return Some(MissingExpected), p; }
    if !fx.expected.value.Obj? { return Some(ExpectedNotObject), p; }
    var canonical := schemas.canonical(version, fx.expected.value.object_);
    if canonical.None? { return Some(InvalidExpected), p; }
    return None, Prepared(fx, version, canonical.value);
  }

  datatype SetupError = SetupError(index: nat, fault: Fault)

  ghost predicate PreparedFrom(prepared: seq<Prepared>, fixtures: seq<Fixture>, schemas: Registry) {
    && |prepared| == |fixtures|
    && forall i :: 0 <= i < |fixtures| ==>
         prepared[i].fixture == fixtures[i] && Labelled(fixtures[i], schemas, prepared[i].version, prepared[i].expected)
  }

  datatype Preflighted = Ready(prepared: seq<Prepared>) | Malformed(error: SetupError)

  /** Every fixture is checked; the first malformed one is reported with its first fault. */
  method Preflight(docType: string, fixtures: seq<Fixture>, schemas: Registry) returns (r: Preflighted)
    ensures r.Ready? <==> forall fx :: fx in fixtures ==> WellFormed(fx, docType, schemas)
    ensures r.Ready? ==> PreparedFrom(r.prepared, fixtures, schemas)
    ensures r.Malformed? ==>
              && r.error.index < |fixtures|
              && FirstFault(fixtures[r.error.index], docType, schemas, r.error.fault)
              && forall i :: 0 <= i < r.error.index ==> WellFormed(fixtures[i], docType, schemas)
  {
    var prepared := [];
    for i := 0 to |fixtures|
      invariant PreparedFrom(prepared, fixtures[..i], schemas)
      invariant forall j :: 0 <= j < i ==> WellFormed(fixtures[j], docType, schemas)
    {
      var fault, p := CheckFixture(fixtures[i], docType, schemas);
      if fault.Some? {
        assert fixtures[i] in fixtures;
        return Malformed(SetupError(i, fault.value));
      }
      prepared := prepared + [p];
    }
    return Ready(prepared);
  }

  // ---------- the predictor ----------

  // What one call does: return a Prediction, or raise.
  datatype Attempt =
    | Predicted(record: JsonObject, costUsd: Usd, latencyMs: real, provider: string)
    | PredictionFailed(knownCost: Option<Usd>)
    | ControlPlaneRejection
    | RequestNotSent

  // Any predictor: each answer may depend on everything it has been asked so far.
  class Predictor {
    const behave: seq<Fixture> -> Attempt
    var calls: seq<Fixture>

    constructor (behave: seq<Fixture> -> Attempt)
      ensures this.behave == behave && calls == []
    {
      this.behave := behave;
      calls := [];
    }

    method Predict(fx: Fixture) returns (a: Attempt)
      modifies this
      ensures calls == old(calls) + [fx]
      ensures a == behave(calls)
    {
      calls := calls + [fx];
      a := behave(calls);
    }
  }

  // ---------- what a run amounts to ----------

  // One fixture and what came of it; the record is canonical when it satisfied its schema.
  datatype Trial = Trial(expected: FlatRecord, attempt: Attempt, record: Option<FlatRecord>)

  datatype Fate = Succeeded | FailedKnown | FailedUnknown | Skipped

  function FateOf(t: Trial): Fate {
    match t.attempt
    case Predicted(_, _, _, _) => if t.record.Some? then Succeeded else FailedKnown
    case PredictionFailed(cost) => if cost.Some? then FailedKnown else FailedUnknown
    case ControlPlaneRejection => Skipped
    case RequestNotSent => Skipped
  }

  function Having(trials: seq<Trial>, fate: Fate): nat {
    if trials == [] then 0
    else Having(trials[..|trials| - 1], fate) + if FateOf(trials[|trials| - 1]) == fate then 1 else 0
  }

  // The spend the endpoint reported, whatever the outcome.
  function Reported(a: Attempt): Usd {
    match a
    case Predicted(_, cost, _, _) => cost
    case PredictionFailed(Some(cost)) => cost
    case _ => 0.0
  }

  function TotalReported(trials: seq<Trial>): Usd {
    if trials == [] then 0.0 else TotalReported(trials[..|trials| - 1]) + Reported(trials[|trials| - 1].attempt)
  }

  // The part of it that came with one fate.
  function Spent(trials: seq<Trial>, fate: Fate): Usd {
    if trials == [] then 0.0
    else
      var t := trials[|trials| - 1];
      Spent(trials[..|trials| - 1], fate) + if FateOf(t) == fate then Reported(t.attempt) else 0.0
  }

  // The trials that reached the model, in order.
  function Sent(trials: seq<Trial>): seq<Trial> {
    if trials == [] then []
    else
      var t := trials[|trials| - 1];
      Sent(trials[..|trials| - 1]) + if FateOf(t).Skipped? then [] else [t]
  }

  function SuccessLatencies(trials: seq<Trial>): seq<real> {
    if trials == [] then []
    else
      var t := trials[|trials| - 1];
      SuccessLatencies(trials[..|trials| - 1]) + if FateOf(t).Succeeded? then [t.attempt.latencyMs] else []
  }

  // The provider the server last named, if any prediction came back at all.
  function LastProvider(trials: seq<Trial>, fallback: string): string {
    if trials == [] then fallback
    else
      var t := trials[|trials| - 1];
      if t.attempt.Predicted? then t.attempt.provider else LastProvider(trials[..|trials| - 1], fallback)
  }

  // A scored trial: its record field by field, or no record at all.
  ghost predicate ScoredAs(t: Trial, outcomes: Scored) {
    && outcomes.Keys == t.expected.Keys
    && forall key :: key in t.expected ==>
         if FateOf(t).Succeeded?
         then Deserves(outcomes[key], t.record.value, t.expected, key)
         else outcomes[key] == if t.expected[key].None? then FailedNull else Missed
  }

  ghost predicate AllScored(scored: seq<Scored>, sent: seq<Trial>) {
    |scored| == |sent| && forall i :: 0 <= i < |sent| ==> ScoredAs(sent[i], scored[i])
  }

  // Trial i is fixture i, answered by the predictor after fixtures 0..i were put to it.
  ghost predicate TrialsOf(trials: seq<Trial>, fixtures: seq<Fixture>, schemas: Registry,
                           behave: seq<Fixture> -> Attempt, before: seq<Fixture>) {
    && |trials| <= |fixtures|
    && forall i :: 0 <= i < |trials| ==>
         IsTrial(trials[i], fixtures[i], behave(before + fixtures[..i + 1]), schemas)
  }

  ghost predicate IsTrial(t: Trial, fx: Fixture, a: Attempt, schemas: Registry) {
    && fx.schemaVersion.Some? && fx.schemaVersion.value.Str?
    && var version := fx.schemaVersion.value.text;
    && Labelled(fx, schemas, version, t.expected)
    && t.attempt == a
    && (a.Predicted? ==> t.record == schemas.canonical(version, a.record))
  }

  // The counters and lists the loop keeps, and what they stand for.
  datatype Books = Books(scored: seq<Scored>, costs: seq<Usd>, latencies: seq<real>,
                         failures: nat, skipped: nat, failedCosts: seq<Usd>)

  ghost predicate Summarizes(books: Books, trials: seq<Trial>) {
    && AllScored(books.scored, Sent(trials))
    && books.latencies == SuccessLatencies(trials)
    && Numbers(books, trials)
    && Money(books, trials)
  }

  ghost predicate Numbers(books: Books, trials: seq<Trial>) {
    && |books.costs| == Having(trials, Succeeded)
    && |books.failedCosts| == Having(trials, FailedKnown)
    && books.failures == Having(trials, FailedKnown) + Having(trials, FailedUnknown)
    && books.skipped == Having(trials, Skipped)
  }

  ghost predicate Money(books: Books, trials: seq<Trial>) {
    && SumSeq(books.costs) == Spent(trials, Succeeded)
    && SumSeq(books.failedCosts) == Spent(trials, FailedKnown)
  }

  // Which of them one trial moves.
  ghost predicate Entered(before: Books, after: Books, t: Trial, outcomes: Scored) {
    match FateOf(t)
    case Skipped => after == before.(skipped := before.skipped + 1)
    case Succeeded =>
      after == before.(scored := before.scored + [outcomes], costs := before.costs + [t.attempt.costUsd],
                       latencies := before.latencies + [t.attempt.latencyMs])
    case FailedKnown =>
      after == before.(scored := before.scored + [outcomes], failures := before.failures + 1,
                       failedCosts := before.failedCosts + [Reported(t.attempt)])
    case FailedUnknown =>
      after == before.(scored := before.scored + [outcomes], failures := before.failures + 1)
  }

  lemma HavingSnoc(trials: seq<Trial>, t: Trial)
    ensures forall f :: Having(trials + [t], f) == Having(trials, f) + if FateOf(t) == f then 1 else 0
  {
  }

  lemma SpentSnoc(trials: seq<Trial>, t: Trial)
    ensures forall f :: Spent(trials + [t], f) == Spent(trials, f) + if FateOf(t) == f then Reported(t.attempt) else 0.0
    ensures TotalReported(trials + [t]) == TotalReported(trials) + Reported(t.attempt)
  {
  }

  lemma SentSnoc(trials: seq<Trial>, t: Trial)
    ensures Sent(trials + [t]) ==
            Sent(trials) + if t.attempt.ControlPlaneRejection? || t.attempt.RequestNotSent? then [] else [t]
  {
    assert (trials + [t])[..|trials|] == trials;
  }

  lemma TimesSnoc(trials: seq<Trial>, t: Trial)
    ensures SuccessLatencies(trials + [t]) ==
            SuccessLatencies(trials) + if t.attempt.Predicted? && t.record.Some? then [t.attempt.latencyMs] else []
  {
    assert (trials + [t])[..|trials|] == trials;
  }

  lemma ProviderSnoc(trials: seq<Trial>, t: Trial, fallback: string)
    ensures LastProvider(trials + [t], fallback) ==
              if t.attempt.Predicted? then t.attempt.provider else LastProvider(trials, fallback)
  {
    assert (trials + [t])[..|trials|] == trials;
  }

  lemma ScoredSnoc(scored: seq<Scored>, sent: seq<Trial>, t: Trial, outcomes: Scored)
    requires AllScored(scored, sent) && ScoredAs(t, outcomes)
    ensures AllScored(scored + [outcomes], sent + [t])
  {
  }

  lemma TrialsExtend(trials: seq<Trial>, t: Trial, fixtures: seq<Fixture>, schemas: Registry,
                     behave: seq<Fixture> -> Attempt, before: seq<Fixture>)
    requires TrialsOf(trials, fixtures, schemas, behave, before) && |trials| < |fixtures|
    requires IsTrial(t, fixtures[|trials|], behave(before + fixtures[..|trials|] + [fixtures[|trials|]]), schemas)
    ensures TrialsOf(trials + [t], fixtures, schemas, behave, before)
  {
    var i := |trials|;
    assert before + fixtures[..i + 1] == before + fixtures[..i] + [fixtures[i]];
  }

  lemma ScoresKept(before: Books, after: Books, trials: seq<Trial>, t: Trial, outcomes: Scored)
    requires AllScored(before.scored, Sent(trials)) && Entered(before, after, t, outcomes)
    requires !FateOf(t).Skipped? ==> ScoredAs(t, outcomes)
    ensures AllScored(after.scored, Sent(trials + [t]))
  {
    SentSnoc(trials, t);
    if FateOf(t).Skipped? {
      assert Sent(trials + [t]) == Sent(trials);
    } else {
      ScoredSnoc(before.scored, Sent(trials), t, outcomes);
    }
  }

  lemma NumbersKept(before: Books, after: Books, trials: seq<Trial>, t: Trial, outcomes: Scored)
    requires Numbers(before, trials) && Entered(before, after, t, outcomes)
    ensures Numbers(after, trials + [t])
  {
  }

  lemma MoneyKept(before: Books, after: Books, trials: seq<Trial>, t: Trial, outcomes: Scored)
    requires Money(before, trials) && Entered(before, after, t, outcomes)
    ensures Money(after, trials + [t])
  {
  }

  lemma BooksKept(before: Books, after: Books, trials: seq<Trial>, t: Trial, outcomes: Scored)
    requires Summarizes(before, trials) && Entered(before, after, t, outcomes)
    requires !FateOf(t).Skipped? ==> ScoredAs(t, outcomes)
    ensures Summarizes(after, trials + [t])
  {
    ScoresKept(before, after, trials, t, outcomes);
    NumbersKept(before, after, trials, t, outcomes);
    MoneyKept(before, after, trials, t, outcomes);
    assert after.latencies == SuccessLatencies(trials + [t]) by {
      TimesSnoc(trials, t);
    }
  }

  /** The four fates partition the fixtures; every one that was sent is scored, every success timed. */
  lemma {:induction false} FatesPartition(trials: seq<Trial>)
    ensures |trials| == Having(trials, Succeeded) + Having(trials, FailedKnown)
                        + Having(trials, FailedUnknown) + Having(trials, Skipped)
    ensures |Sent(trials)| == |trials| - Having(trials, Skipped)
    ensures |SuccessLatencies(trials)| == Having(trials, Succeeded)
  {
    if trials != [] {
      FatesPartition(trials[..|trials| - 1]);
    }
  }

  /** Every reported dollar is booked once: with the successes or with the failures of known cost. */
  lemma {:induction false} SpendPartition(trials: seq<Trial>)
    ensures TotalReported(trials) == Spent(trials, Succeeded) + Spent(trials, FailedKnown)
  {
    if trials != [] {
      SpendPartition(trials[..|trials| - 1]);
    }
  }

  /** Skipped fixtures leave no trace in what is scored, timed or billed. */
  lemma {:induction false} SkipsNeverCount(trials: seq<Trial>)
    ensures Sent(Sent(trials)) == Sent(trials)
    ensures SuccessLatencies(Sent(trials)) == SuccessLatencies(trials)
    ensures TotalReported(Sent(trials)) == TotalReported(trials)
    ensures forall f :: Having(Sent(trials), f) == if f.Skipped? then 0 else Having(trials, f)
  {
    if trials != [] {
      var front, t := trials[..|trials| - 1], trials[|trials| - 1];
      SkipsNeverCount(front);
      if FateOf(t).Skipped? {
        assert Sent(trials) == Sent(front);
        assert SuccessLatencies(trials) == SuccessLatencies(front);
      } else {
        HavingSnoc(Sent(front), t);
        SpentSnoc(Sent(front), t);
        SentSnoc(Sent(front), t);
        TimesSnoc(Sent(front), t);
      }
    }
  }

  datatype Run = Refused(error: SetupError) | Ran(provider: string, report: Report)

  // The figures of a report, in terms of what happened to each fixture.
  ghost predicate Figures(report: Report, trials: seq<Trial>) {
    && report.nFixtures + report.nSkipped == |trials|
    && report.nFixtures == Having(trials, Succeeded) + report.nFailures
    && report.nFailures == Having(trials, FailedKnown) + Having(trials, FailedUnknown)
    && report.nFailedCostUnknown == Having(trials, FailedUnknown)
    && report.costSuccessful == Spent(trials, Succeeded)
    && report.costFailed == Spent(trials, FailedKnown)
    && report.costTotal == TotalReported(trials)
  }

  // The whole report: the figures, the statistics of the scored trials, the times of the successes.
  ghost predicate Reports(report: Report, trials: seq<Trial>) {
    && Figures(report, trials)
    && (exists scored :: AllScored(scored, Sent(trials)) && Tallies(report.perField, scored))
    && Timed(report, SuccessLatencies(trials))
  }

  lemma ScoredOnce(t: Trial, a: Scored, b: Scored)
    requires ScoredAs(t, a) && ScoredAs(t, b)
    ensures a == b
  {
  }

  lemma AllScoredOnce(a: seq<Scored>, b: seq<Scored>, sent: seq<Trial>)
    requires AllScored(a, sent) && AllScored(b, sent)
    ensures a == b
  {
    forall i | 0 <= i < |sent| ensures a[i] == b[i] {
      ScoredOnce(sent[i], a[i], b[i]);
    }
  }

  lemma SameStatistics(a: Report, b: Report, sent: seq<Trial>, samples: seq<real>)
    requires exists scored :: AllScored(scored, sent) && Tallies(a.perField, scored)
    requires exists scored :: AllScored(scored, sent) && Tallies(b.perField, scored)
    requires Timed(a, samples) && Timed(b, samples)
    ensures a.perField == b.perField && a.latencyP50 == b.latencyP50 && a.latencyP95 == b.latencyP95
  {
    var scored :| AllScored(scored, sent) && Tallies(a.perField, scored);
    var scored' :| AllScored(scored', sent) && Tallies(b.perField, scored');
    AllScoredOnce(scored, scored', sent);
    TalliesUnique(a.perField, b.perField, scored);
    TimedOrderFree(a, b, samples, samples);
  }

  /** Of no trials there is nothing to report. */
  lemma EmptyReport(report: Report, trials: seq<Trial>)
    requires Reports(report, trials) && trials == []
    ensures report == Report(0, map[], 0.0, 0.0, 0.0, 0, 0.0, 0.0, 0, 0)
  {
    assert report.perField == map[] by {
      var scored :| AllScored(scored, Sent(trials)) && Tallies(report.perField, scored);
      assert forall key :: Seen(scored, key) == 0;
    }
  }

  // What one more trial does to the figures: a rejected or unsent request is skipped, every other is a fixture.
  ghost predicate FiguresGrow(report: Report, after: Report, t: Trial) {
    var skips := t.attempt.ControlPlaneRejection? || t.attempt.RequestNotSent?;
    var succeeds := t.attempt.Predicted? && t.record.Some?;
    && after.nSkipped == report.nSkipped + (if skips then 1 else 0)
    && after.nFixtures == report.nFixtures + (if skips then 0 else 1)
    && after.nFailures == report.nFailures + (if skips || succeeds then 0 else 1)
    && after.nFailedCostUnknown ==
       report.nFailedCostUnknown + (if t.attempt == PredictionFailed(None) then 1 else 0)
  }

  // And to the money: what the endpoint reports goes to the successes or to the failures, and to the total.
  ghost predicate MoneyGrows(report: Report, after: Report, t: Trial) {
    match t.attempt
    case Predicted(_, cost, _, _) =>
      && after.costSuccessful == report.costSuccessful + (if t.record.Some? then cost else 0.0)
      && after.costFailed == report.costFailed + (if t.record.Some? then 0.0 else cost)
      && after.costTotal == report.costTotal + cost
    case PredictionFailed(Some(cost)) =>
      && after.costSuccessful == report.costSuccessful
      && after.costFailed == report.costFailed + cost
      && after.costTotal == report.costTotal + cost
    case _ =>
      && after.costSuccessful == report.costSuccessful
      && after.costFailed == report.costFailed
      && after.costTotal == report.costTotal
  }

  lemma CountsAfter(report: Report, after: Report, trials: seq<Trial>, t: Trial)
    requires Figures(report, trials) && Figures(after, trials + [t])
    ensures FiguresGrow(report, after, t)
  {
    HavingSnoc(trials, t);
    FatesPartition(trials);
  }

  lemma MoneyAfter(report: Report, after: Report, trials: seq<Trial>, t: Trial)
    requires Figures(report, trials) && Figures(after, trials + [t])
    ensures MoneyGrows(report, after, t)
  {
    SpentSnoc(trials, t);
  }

  /** One more trial moves the figures of the report by what the attempt was, and a request that was rejected or
      never sent leaves everything else in the report as it is. */
  lemma ReportGrows(report: Report, after: Report, trials: seq<Trial>, t: Trial)
    requires Reports(report, trials) && Reports(after, trials + [t])
    ensures FiguresGrow(report, after, t) && MoneyGrows(report, after, t)
    ensures t.attempt.ControlPlaneRejection? || t.attempt.RequestNotSent? ==>
              after == report.(nSkipped := report.nSkipped + 1)
  {
    CountsAfter(report, after, trials, t);
    MoneyAfter(report, after, trials, t);
    if t.attempt.ControlPlaneRejection? || t.attempt.RequestNotSent? {
      SentSnoc(trials, t);
      TimesSnoc(trials, t);
      assert Sent(trials + [t]) == Sent(trials) && SuccessLatencies(trials + [t]) == SuccessLatencies(trials);
      SameStatistics(report, after, Sent(trials), SuccessLatencies(trials));
    }
  }

  // Scoring one attempt (harness/run_accuracy.py:269-296).
  method Score(p: Prepared, a: Attempt, schemas: Registry) returns (t: Trial, outcomes: Scored)
    ensures t.expected == p.expected && t.attempt == a
    ensures a.Predicted? ==> t.record == schemas.canonical(p.version, a.record)
    ensures !FateOf(t).Skipped? ==> ScoredAs(t, outcomes)
  {
    outcomes := map[];
    t := Trial(p.expected, a, None);
    match a
    case Predicted(record, _, _, _) =>
      var canonical := schemas.canonical(p.version, record);
      t := Trial(p.expected, a, canonical);
      if canonical.Some? {
        outcomes := ScoreRecord(canonical.value, p.expected);
      } else {
        outcomes := ScoreFailed(p.expected);
      }
    case PredictionFailed(_) =>
      outcomes := ScoreFailed(p.expected);
    case ControlPlaneRejection =>
    case RequestNotSent =>
  }

  // The loop over the fixtures (harness/run_accuracy.py:252-296).
  method Collect(provider: string, predictor: Predictor, prepared: seq<Prepared>, schemas: Registry,
                 ghost fixtures: seq<Fixture>)
    returns (resolved: string, books: Books, ghost trials: seq<Trial>)
    requires PreparedFrom(prepared, fixtures, schemas)
    modifies predictor
    ensures predictor.calls == old(predictor.calls) + fixtures
    ensures |trials| == |fixtures| && TrialsOf(trials, fixtures, schemas, predictor.behave, old(predictor.calls))
    ensures Summarizes(books, trials)
    ensures resolved == LastProvider(trials, provider)
  {
    trials := [];
    var scored: seq<Scored>, costs: seq<Usd>, failedCosts: seq<Usd>, latencies: seq<real> := [], [], [], [];
    var failures, skipped := 0, 0;
    resolved := provider;
    for i := 0 to |prepared|
      invariant |trials| == i
      invariant predictor.calls == old(predictor.calls) + fixtures[..i]
      invariant TrialsOf(trials, fixtures, schemas, predictor.behave, old(predictor.calls))
      invariant Summarizes(Books(scored, costs, latencies, failures, skipped, failedCosts), trials)
      invariant resolved == LastProvider(trials, provider)
    {
      ghost var before := Books(scored, costs, latencies, failures, skipped, failedCosts);
      var a := predictor.Predict(prepared[i].fixture);
      assert old(predictor.calls) + fixtures[..i + 1] == old(predictor.calls) + fixtures[..i] + [fixtures[i]];
      var t, outcomes := Score(prepared[i], a, schemas);
      if a.Predicted? {
        resolved := a.provider;
      }
      match FateOf(t) {
        case Skipped =>
          skipped := skipped + 1;
        case Succeeded =>
          scored, costs, latencies := scored + [outcomes], costs + [a.costUsd], latencies + [a.latencyMs];
        case FailedKnown =>
          scored, failures, failedCosts := scored + [outcomes], failures + 1, failedCosts + [Reported(a)];
        case FailedUnknown =>
          scored, failures := scored + [outcomes], failures + 1;
      }
      books := Books(scored, costs, latencies, failures, skipped, failedCosts);
      BooksKept(before, books, trials, t, outcomes);
      assert LastProvider(trials + [t], provider) == resolved by { ProviderSnoc(trials, t, provider); }
      TrialsExtend(trials, t, fixtures, schemas, predictor.behave, old(predictor.calls));
      trials := trials + [t];
    }
    books := Books(scored, costs, latencies, failures, skipped, failedCosts);
    assert fixtures[..|prepared|] == fixtures;
  }

  /**
    * No call at all when any fixture is malformed, else one call per fixture in order; the
    * report then accounts for every fixture and every reported dollar.
    */
  method RunAccuracy(docType: string, provider: string, predictor: Predictor, fixtures: seq<Fixture>, schemas: Registry)
    returns (run: Run, ghost trials: seq<Trial>)
    modifies predictor
    ensures run.Ran? <==> forall fx :: fx in fixtures ==> WellFormed(fx, docType, schemas)
    ensures run.Refused? ==>
              && predictor.calls == old(predictor.calls)
              && run.error.index < |fixtures|
              && FirstFault(fixtures[run.error.index], docType, schemas, run.error.fault)
    ensures run.Ran? ==>
              && predictor.calls == old(predictor.calls) + fixtures
              && |trials| == |fixtures| && TrialsOf(trials, fixtures, schemas, predictor.behave, old(predictor.calls))
              && Reports(run.report, trials)
              && run.provider == LastProvider(trials, provider)
  {
    trials := [];
    var setup := Preflight(docType, fixtures, schemas);
    if setup.Malformed? {
      return Refused(setup.error), trials;
    }
    var resolved, books;
    resolved, books, trials := Collect(provider, predictor, setup.prepared, schemas, fixtures);
    FatesPartition(trials);
    SpendPartition(trials);
    var report := Aggregate(books.scored, books.costs, books.latencies,
                            books.failures, books.skipped, books.failedCosts);
    return Ran(resolved, report), trials;
  }
}
