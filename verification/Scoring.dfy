/** Per-field accuracy scoring and its aggregation (harness/scoring.py). */
module Scoring {
  import opened Schemas
  import opened Sums
  import opened Percentile

  type Field = string

  // Canonical records, field by field; None is null. Values are compared as parsed: 2 and 2.0 are one number.
  datatype FieldValue =
    | Number(n: real)
    | Text(text: string)
    | Flag(flag: bool)
    | Nothing
    | List(items: seq<FieldValue>)
    | Mapping(members: map<string, FieldValue>)
  type FlatRecord = map<Field, Option<FieldValue>>

  datatype FieldOutcome = Match | NullMatch | Mismatch | Missed | Hallucinated | FailedNull

  type Scored = map<Field, FieldOutcome>

  // Which outcome a field deserves, said outcome by outcome.
  ghost predicate Deserves(o: FieldOutcome, pred: FlatRecord, exp: FlatRecord, key: Field)
    requires key in exp
  {
    match o
    case Match => exp[key].Some? && key in pred && pred[key] == exp[key]
    case NullMatch => exp[key].None? && (key in pred ==> pred[key].None?)
    case Mismatch => exp[key].Some? && key in pred && pred[key].Some? && pred[key] != exp[key]
    case Missed => exp[key].Some? && (key in pred ==> pred[key].None?)
    case Hallucinated => exp[key].None? && key in pred && pred[key].Some?
    case FailedNull => false
  }

  // harness/scoring.py:54-71, after both records are canonical.
  method ScoreRecord(pred: FlatRecord, exp: FlatRecord) returns (outcomes: Scored)
    ensures outcomes.Keys == exp.Keys
    ensures forall key, o :: key in exp ==> (outcomes[key] == o <==> Deserves(o, pred, exp, key))
  {
    outcomes := map[];
    var todo := exp.Keys;
    while todo != {}
      invariant todo <= exp.Keys && outcomes.Keys == exp.Keys - todo
      invariant forall key, o :: key in outcomes ==> (outcomes[key] == o <==> Deserves(o, pred, exp, key))
      decreases todo
    {
      var key :| key in todo;
      todo := todo - {key};
      var got, want := if key in pred then pred[key] else None, exp[key];
      if got == want {
        outcomes := outcomes[key := if want.None? then NullMatch else Match];
      } else if want.None? {
        outcomes := outcomes[key := Hallucinated];
      } else if got.None? {
        outcomes := outcomes[key := Missed];
      } else {
        outcomes := outcomes[key := Mismatch];
      }
    }
  }

  // harness/scoring.py:74-86: no record was produced.
  function ScoreFailed(exp: FlatRecord): (outcomes: Scored)
    ensures outcomes.Keys == exp.Keys
    ensures forall key :: key in exp ==> (outcomes[key] == FailedNull <==> exp[key].None?)
    ensures forall key :: key in exp ==> (outcomes[key] == Missed <==> exp[key].Some?)
  {
    map key | key in exp :: if exp[key].None? then FailedNull else Missed
  }

  // ---------- per-field statistics ----------

  datatype FieldStats = FieldStats(
    total: nat, matches: nat, nullMatches: nat, mismatches: nat, missed: nat, hallucinated: nat, failedNull: nat)

  const NO_STATS := FieldStats(0, 0, 0, 0, 0, 0, 0)

  // How many records give this field this outcome.
  function Count(scored: seq<Scored>, key: Field, o: FieldOutcome): nat {
    if scored == [] then 0
    else
      var last := scored[|scored| - 1];
      Count(scored[..|scored| - 1], key, o) + if key in last && last[key] == o then 1 else 0
  }

  // How many records have this field.
  function Seen(scored: seq<Scored>, key: Field): nat {
    if scored == [] then 0
    else Seen(scored[..|scored| - 1], key) + if key in scored[|scored| - 1] then 1 else 0
  }

  ghost predicate Counts(stats: FieldStats, scored: seq<Scored>, key: Field) {
    && stats.total == Seen(scored, key)
    && stats.matches == Count(scored, key, Match) + Count(scored, key, NullMatch)
    && stats.nullMatches == Count(scored, key, NullMatch)
    && stats.mismatches == Count(scored, key, Mismatch)
    && stats.missed == Count(scored, key, Missed)
    && stats.hallucinated == Count(scored, key, Hallucinated)
    && stats.failedNull == Count(scored, key, FailedNull)
  }

  function Bump(stats: FieldStats, o: FieldOutcome): FieldStats {
    var s := stats.(total := stats.total + 1);
    match o
    case Match => s.(matches := s.matches + 1)
    case NullMatch => s.(matches := s.matches + 1, nullMatches := s.nullMatches + 1)
    case Mismatch => s.(mismatches := s.mismatches + 1)
    case Missed => s.(missed := s.missed + 1)
    case Hallucinated => s.(hallucinated := s.hallucinated + 1)
    case FailedNull => s.(failedNull := s.failedNull + 1)
  }

  type Stats = map<Field, FieldStats>

  // The statistics of every field that occurs, and of no other.
  ghost predicate Tallies(perField: Stats, scored: seq<Scored>) {
    forall key ::
      if key in perField then Seen(scored, key) > 0 && Counts(perField[key], scored, key)
      else Seen(scored, key) == 0
  }

  lemma CountSnoc(scored: seq<Scored>, r: Scored, key: Field)
    ensures Seen(scored + [r], key) == Seen(scored, key) + if key in r then 1 else 0
    ensures forall o :: Count(scored + [r], key, o) == Count(scored, key, o) + if key in r && r[key] == o then 1 else 0
  {
  }

  lemma {:induction false} UnseenUncounted(scored: seq<Scored>, key: Field)
    requires Seen(scored, key) == 0
    ensures forall o :: Count(scored, key, o) == 0
  {
    if scored != [] {
      UnseenUncounted(scored[..|scored| - 1], key);
    }
  }

  lemma BumpCounts(stats: FieldStats, scored: seq<Scored>, r: Scored, key: Field)
    requires key in r && Counts(stats, scored, key)
    ensures Counts(Bump(stats, r[key]), scored + [r], key)
  {
  }

  // One record's outcomes, folded in field by field (harness/scoring.py:189-204).
  method AddRecord(before: Stats, r: Scored, ghost scored: seq<Scored>) returns (perField: Stats)
    requires Tallies(before, scored)
    ensures Tallies(perField, scored + [r])
  {
    perField := before;
    var todo := r.Keys;
    while todo != {}
      invariant todo <= r.Keys
      invariant forall key :: key !in r || key in todo ==>
                  (key in perField <==> key in before) && (key in perField ==> perField[key] == before[key])
      invariant forall key :: key in r && key !in todo ==>
                  key in perField && Counts(perField[key], scored + [r], key)
      decreases todo
    {
      var key :| key in todo;
      todo := todo - {key};
      var stats := if key in perField then perField[key] else NO_STATS;
      UnseenUncountedIfNew(before, scored, key);
      BumpCounts(stats, scored, r, key);
      perField := perField[key := Bump(stats, r[key])];
    }
    forall key
      ensures if key in perField then Seen(scored + [r], key) > 0 && Counts(perField[key], scored + [r], key)
              else Seen(scored + [r], key) == 0
    {
      CountSnoc(scored, r, key);
    }
  }

  lemma UnseenUncountedIfNew(before: Stats, scored: seq<Scored>, key: Field)
    requires Tallies(before, scored)
    ensures Counts(if key in before then before[key] else NO_STATS, scored, key)
  {
    if key !in before {
      UnseenUncounted(scored, key);
    }
  }

  /** One more record moves exactly the fields it has, each by its outcome alone. */
  lemma TallyGrows(before: Stats, after: Stats, scored: seq<Scored>, r: Scored, key: Field)
    requires Tallies(before, scored) && Tallies(after, scored + [r])
    ensures key in after <==> key in before || key in r
    ensures key in before && key !in r ==> after[key] == before[key]
    ensures key in r ==>
              var s := if key in before then before[key] else FieldStats(0, 0, 0, 0, 0, 0, 0);
              var s' := after[key];
              match r[key]
              case Match => s' == s.(total := s.total + 1, matches := s.matches + 1)
              case NullMatch =>
                s' == s.(total := s.total + 1, matches := s.matches + 1, nullMatches := s.nullMatches + 1)
              case Mismatch => s' == s.(total := s.total + 1, mismatches := s.mismatches + 1)
              case Missed => s' == s.(total := s.total + 1, missed := s.missed + 1)
              case Hallucinated => s' == s.(total := s.total + 1, hallucinated := s.hallucinated + 1)
              case FailedNull => s' == s.(total := s.total + 1, failedNull := s.failedNull + 1)
  {
    CountSnoc(scored, r, key);
    UnseenUncountedIfNew(before, scored, key);
  }

  datatype Report = Report(
    nFixtures: nat,
    perField: Stats,
    costSuccessful: real,
    costFailed: real,
    costTotal: real,
    nFailedCostUnknown: int,
    latencyP50: real,
    latencyP95: real,
    nFailures: nat,
    nSkipped: nat)

  // The middle and high percentile of the samples, zero when there are none.
  ghost predicate Timed(report: Report, samples: seq<real>) {
    if samples == [] then report.latencyP50 == report.latencyP95 == 0.0
    else
      && LeastCovering(Sort(samples), 50.0, report.latencyP50)
      && LeastCovering(Sort(samples), 95.0, report.latencyP95)
  }

  // What a report says of its inputs.
  ghost predicate Aggregates(report: Report, scored: seq<Scored>, costs: seq<real>, latencies: seq<real>,
                             nFailures: nat, nSkipped: nat, failedCosts: seq<real>) {
    && Tallies(report.perField, scored)
    && report.nFixtures == |scored| && report.nFailures == nFailures && report.nSkipped == nSkipped
    && report.costSuccessful == SumSeq(costs) && report.costFailed == SumSeq(failedCosts)
    && report.costTotal == report.costSuccessful + report.costFailed
    && report.nFailedCostUnknown == nFailures - |failedCosts|
    && Timed(report, latencies)
  }

  // harness/scoring.py:169-213.
  method Aggregate(scored: seq<Scored>, costs: seq<real>, latencies: seq<real>,
                   nFailures: nat, nSkipped: nat, failedCosts: seq<real>)
    returns (report: Report)
    ensures Aggregates(report, scored, costs, latencies, nFailures, nSkipped, failedCosts)
    ensures latencies != [] ==>
              && LeastCovering(Sort(latencies), 50.0, report.latencyP50)
              && LeastCovering(Sort(latencies), 95.0, report.latencyP95)
    ensures report.latencyP50 <= report.latencyP95
  {
    var perField: Stats := map[];
    for i := 0 to |scored|
      invariant Tallies(perField, scored[..i])
    {
      perField := AddRecord(perField, scored[i], scored[..i]);
      assert scored[..i] + [scored[i]] == scored[..i + 1];
    }
    assert scored[..|scored|] == scored;
    var ordered := Sort(latencies);
    var p50, p95 := NearestRank(ordered, 50.0), NearestRank(ordered, 95.0);
    if latencies != [] {
      NearestRankIsPercentile(ordered, 50.0);
      NearestRankIsPercentile(ordered, 95.0);
    }
    NearestRankMonotone(ordered, 50.0, 95.0);
    var ok, failed := SumSeq(costs), SumSeq(failedCosts);
    report := Report(|scored|, perField, ok, failed, ok + failed, nFailures - |failedCosts|,
                     p50, p95, nFailures, nSkipped);
  }

  // ---------- theorems about the statistics ----------

  /** A field's outcomes partition its total, and correct nulls are among the matches. */
  lemma {:induction false} StatsPartition(scored: seq<Scored>, key: Field)
    ensures Seen(scored, key) ==
            Count(scored, key, Match) + Count(scored, key, NullMatch) + Count(scored, key, Mismatch)
            + Count(scored, key, Missed) + Count(scored, key, Hallucinated) + Count(scored, key, FailedNull)
  {
    if scored != [] {
      StatsPartition(scored[..|scored| - 1], key);
    }
  }

  lemma PartitionOfTally(perField: Stats, scored: seq<Scored>, key: Field)
    requires Tallies(perField, scored) && key in perField
    ensures var s := perField[key];
            s.total == s.matches + s.mismatches + s.missed + s.hallucinated + s.failedNull && s.nullMatches <= s.matches
  {
    StatsPartition(scored, key);
  }

  lemma {:induction false} CountRemoved(scored: seq<Scored>, i: nat, key: Field)
    requires i < |scored|
    ensures Seen(scored, key) == Seen(scored[..i] + scored[i + 1..], key) + if key in scored[i] then 1 else 0
    ensures forall o :: Count(scored, key, o) ==
              Count(scored[..i] + scored[i + 1..], key, o) + if key in scored[i] && scored[i][key] == o then 1 else 0
    decreases |scored|
  {
    var n := |scored| - 1;
    if i == n {
      assert scored[..i] + scored[i + 1..] == scored[..n];
    } else {
      CountRemoved(scored[..n], i, key);
      var rest := scored[..n][..i] + scored[..n][i + 1..];
      assert scored[..i] + scored[i + 1..] == rest + [scored[n]];
      CountSnoc(rest, scored[n], key);
    }
  }

  // The order of the records does not matter to a count.
  lemma {:induction false} CountsPermuted(a: seq<Scored>, b: seq<Scored>, key: Field)
    requires multiset(a) == multiset(b)
    ensures Seen(a, key) == Seen(b, key)
    ensures forall o :: Count(a, key, o) == Count(b, key, o)
    decreases |a|
  {
    if a == [] {
      assert b == [] by { assert |multiset(b)| == 0; }
    } else {
      var n := |a| - 1;
      assert a[n] in multiset(a);
      var i := Somewhere(b, a[n]);
      RemovalMultiset(a, n);
      RemovalMultiset(b, i);
      CountsPermuted(a[..n] + a[n + 1..], b[..i] + b[i + 1..], key);
      CountRemoved(a, n, key);
      CountRemoved(b, i, key);
    }
  }

  lemma TalliesPermuted(perField: Stats, a: seq<Scored>, b: seq<Scored>)
    requires Tallies(perField, a) && multiset(a) == multiset(b)
    ensures Tallies(perField, b)
  {
    forall key
      ensures if key in perField then Seen(b, key) > 0 && Counts(perField[key], b, key) else Seen(b, key) == 0
    {
      CountsPermuted(a, b, key);
    }
  }

  // A tally is determined by what it tallies.
  lemma TalliesUnique(a: Stats, b: Stats, scored: seq<Scored>)
    requires Tallies(a, scored) && Tallies(b, scored)
    ensures a == b
  {
  }

  lemma TimedOrderFree(a: Report, b: Report, samples: seq<real>, shuffled: seq<real>)
    requires Timed(a, samples) && Timed(b, shuffled) && multiset(samples) == multiset(shuffled)
    ensures a.latencyP50 == b.latencyP50 && a.latencyP95 == b.latencyP95
  {
    assert |samples| == |multiset(samples)| == |multiset(shuffled)| == |shuffled|;
    if samples != [] {
      SortPermuted(samples, shuffled);
      LeastCoveringUnique(Sort(samples), 50.0, a.latencyP50, b.latencyP50);
      LeastCoveringUnique(Sort(samples), 95.0, a.latencyP95, b.latencyP95);
    }
  }

  /** A report does not depend on the order of anything it is folded from: outcomes, costs, latencies and
      failed costs may each come in any order. */
  lemma OrderFree(a: Report, b: Report, scored: seq<Scored>, scored': seq<Scored>, costs: seq<real>, costs': seq<real>,
                  latencies: seq<real>, latencies': seq<real>, nFailures: nat, nSkipped: nat,
                  failedCosts: seq<real>, failedCosts': seq<real>)
    requires Aggregates(a, scored, costs, latencies, nFailures, nSkipped, failedCosts)
    requires Aggregates(b, scored', costs', latencies', nFailures, nSkipped, failedCosts')
    requires multiset(scored) == multiset(scored') && multiset(costs) == multiset(costs')
    requires multiset(latencies) == multiset(latencies') && multiset(failedCosts) == multiset(failedCosts')
    ensures a == b
  {
    TalliesPermuted(a.perField, scored, scored');
    TalliesUnique(a.perField, b.perField, scored');
    SumPermuted(costs, costs');
    SumPermuted(failedCosts, failedCosts');
    TimedOrderFree(a, b, latencies, latencies');
    assert |multiset(scored)| == |scored| && |multiset(scored')| == |scored'|;
    assert |multiset(failedCosts)| == |failedCosts| && |multiset(failedCosts')| == |failedCosts'|;
  }

  // ---------- the headline rates ----------

  datatype Column = Totals | Matches | NullMatches | Hallucinations

  function Cell(col: Column, s: FieldStats): nat {
    match col
    case Totals => s.total
    case Matches => s.matches
    case NullMatches => s.nullMatches
    case Hallucinations => s.hallucinated
  }

  // A column summed over the fields (the total_* properties).
  ghost function ColumnSum(col: Column, perField: Stats): real {
    Total(map key | key in perField :: Cell(col, perField[key]) as real)
  }

  ghost function Rate(part: real, whole: real): real {
    if whole == 0.0 then 0.0 else part / whole
  }

  ghost function ExactMatchRate(perField: Stats): real {
    Rate(ColumnSum(Matches, perField), ColumnSum(Totals, perField))
  }

  ghost function NullOpportunities(perField: Stats): real {
    ColumnSum(NullMatches, perField) + ColumnSum(Hallucinations, perField)
  }

  ghost function HallucinatedRate(perField: Stats): real {
    Rate(ColumnSum(Hallucinations, perField), NullOpportunities(perField))
  }

  ghost function NullCorrectRate(perField: Stats): real {
    Rate(ColumnSum(NullMatches, perField), NullOpportunities(perField))
  }

  lemma ColumnsMean(perField: Stats)
    ensures ColumnSum(Totals, perField) == Total(map key | key in perField :: perField[key].total as real)
    ensures ColumnSum(Matches, perField) == Total(map key | key in perField :: perField[key].matches as real)
    ensures ColumnSum(NullMatches, perField) == Total(map key | key in perField :: perField[key].nullMatches as real)
    ensures ColumnSum(Hallucinations, perField) ==
            Total(map key | key in perField :: perField[key].hallucinated as real)
  {
    assert (map key | key in perField :: Cell(Totals, perField[key]) as real)
        == map key | key in perField :: perField[key].total as real;
    assert (map key | key in perField :: Cell(Matches, perField[key]) as real)
        == map key | key in perField :: perField[key].matches as real;
    assert (map key | key in perField :: Cell(NullMatches, perField[key]) as real)
        == map key | key in perField :: perField[key].nullMatches as real;
    assert (map key | key in perField :: Cell(Hallucinations, perField[key]) as real)
        == map key | key in perField :: perField[key].hallucinated as real;
  }

  /** The rates in terms of the table: matches over all outcomes; and among the nulls that could be observed
      in a record, those that were filled in and those that were left null. */
  lemma RatesMean(perField: Stats)
    ensures var total := Total(map key | key in perField :: perField[key].total as real);
            var matches := Total(map key | key in perField :: perField[key].matches as real);
            ExactMatchRate(perField) == if total == 0.0 then 0.0 else matches / total
    ensures var nulls := Total(map key | key in perField :: perField[key].nullMatches as real);
            var hallucinated := Total(map key | key in perField :: perField[key].hallucinated as real);
            && (nulls + hallucinated == 0.0 ==> HallucinatedRate(perField) == NullCorrectRate(perField) == 0.0)
            && (nulls + hallucinated != 0.0 ==>
                 && HallucinatedRate(perField) == hallucinated / (nulls + hallucinated)
                 && NullCorrectRate(perField) == nulls / (nulls + hallucinated))
  {
    ColumnsMean(perField);
  }

  /** The two null rates share a denominator: they sum to one whenever a null could be observed. */
  lemma NullRatesSumToOne(perField: Stats)
    requires NullOpportunities(perField) != 0.0
    ensures HallucinatedRate(perField) + NullCorrectRate(perField) == 1.0
  {
    var h, n := ColumnSum(Hallucinations, perField), ColumnSum(NullMatches, perField);
    FractionsSum(h, n, NullOpportunities(perField));
  }

  lemma FractionsSum(a: real, b: real, whole: real)
    requires whole == a + b && whole != 0.0
    ensures a / whole + b / whole == 1.0
  {
    assert a / whole + b / whole == (a + b) / whole;
  }

  lemma ColumnSplit(col: Column, perField: Stats, key: Field)
    requires key in perField
    ensures ColumnSum(col, perField) == Cell(col, perField[key]) as real + ColumnSum(col, perField - {key})
  {
    var cells := map k | k in perField :: Cell(col, perField[k]) as real;
    TotalSplit(cells, key);
    assert cells - {key} == map k | k in perField - {key} :: Cell(col, (perField - {key})[k]) as real;
  }

  lemma {:induction false} ColumnsOrdered(small: Column, before: Stats, large: Column, after: Stats)
    requires before.Keys <= after.Keys
    requires forall key :: key in before ==> Cell(small, before[key]) <= Cell(large, after[key])
    ensures ColumnSum(small, before) <= ColumnSum(large, after)
    decreases |after|
  {
    if key :| key in after {
      ColumnSplit(large, after, key);
      if key in before {
        ColumnSplit(small, before, key);
      } else {
        assert before - {key} == before;
      }
      ColumnsOrdered(small, before - {key}, large, after - {key});
    } else {
      assert before == map[] && after == map[];
    }
  }

  // A field absent before, or unchanged in this column, adds nothing.
  lemma {:induction false} ColumnKept(col: Column, before: Stats, after: Stats)
    requires before.Keys <= after.Keys
    requires forall key :: key in after ==> Cell(col, after[key]) == if key in before then Cell(col, before[key]) else 0
    ensures ColumnSum(col, after) == ColumnSum(col, before)
    decreases |after|
  {
    if key :| key in after {
      ColumnSplit(col, after, key);
      if key in before {
        ColumnSplit(col, before, key);
      } else {
        assert before - {key} == before;
      }
      ColumnKept(col, before - {key}, after - {key});
    } else {
      assert before == map[] && after == map[];
    }
  }

  lemma FailedRecordCells(before: Stats, after: Stats, scored: seq<Scored>, exp: FlatRecord, key: Field)
    requires Tallies(before, scored) && Tallies(after, scored + [ScoreFailed(exp)])
    ensures key in before ==> key in after
    ensures key in after ==> forall col: Column ::
              var old_ := if key in before then Cell(col, before[key]) else 0;
              if col.Totals? then old_ <= Cell(col, after[key]) else Cell(col, after[key]) == old_
  {
    CountSnoc(scored, ScoreFailed(exp), key);
    UnseenUncountedIfNew(before, scored, key);
  }

  lemma FailedRecordColumns(before: Stats, after: Stats, scored: seq<Scored>, exp: FlatRecord)
    requires Tallies(before, scored) && Tallies(after, scored + [ScoreFailed(exp)])
    ensures forall col: Column :: !col.Totals? ==> ColumnSum(col, after) == ColumnSum(col, before)
    ensures ColumnSum(Totals, before) <= ColumnSum(Totals, after)
  {
    forall key
      ensures key in before ==> key in after && Cell(Totals, before[key]) <= Cell(Totals, after[key])
    {
      FailedRecordCells(before, after, scored, exp, key);
    }
    ColumnsOrdered(Totals, before, Totals, after);
    forall col: Column | !col.Totals? ensures ColumnSum(col, after) == ColumnSum(col, before) {
      forall key | key in after
        ensures Cell(col, after[key]) == if key in before then Cell(col, before[key]) else 0
      {
        FailedRecordCells(before, after, scored, exp, key);
      }
      ColumnKept(col, before, after);
    }
  }

  /** A failed extraction changes neither null rate. */
  lemma FailedRecordNullRates(before: Stats, after: Stats, scored: seq<Scored>, exp: FlatRecord)
    requires Tallies(before, scored) && Tallies(after, scored + [ScoreFailed(exp)])
    ensures HallucinatedRate(after) == HallucinatedRate(before)
    ensures NullCorrectRate(after) == NullCorrectRate(before)
  {
    var n, h := ColumnSum(NullMatches, before), ColumnSum(Hallucinations, before);
    assert ColumnSum(NullMatches, after) == n && ColumnSum(Hallucinations, after) == h by {
      FailedRecordColumns(before, after, scored, exp);
    }
    assert HallucinatedRate(after) == Rate(h, n + h) && NullCorrectRate(after) == Rate(n, n + h);
  }

  /** A failed extraction never raises the exact-match rate. */
  lemma FailedRecordExactMatch(before: Stats, after: Stats, scored: seq<Scored>, exp: FlatRecord)
    requires Tallies(before, scored) && Tallies(after, scored + [ScoreFailed(exp)])
    ensures ExactMatchRate(after) <= ExactMatchRate(before)
  {
    FailedRecordColumns(before, after, scored, exp);
    assert !Matches.Totals?;
    var part, small, large := ColumnSum(Matches, before), ColumnSum(Totals, before), ColumnSum(Totals, after);
    assert 0.0 <= part <= small by {
      ColumnNonnegative(Matches, before);
      MatchesWithinTotals(before, scored);
    }
    RateShrinks(part, small, large);
  }

  lemma ColumnNonnegative(col: Column, perField: Stats)
    ensures 0.0 <= ColumnSum(col, perField)
  {
    TotalNonnegative(map key | key in perField :: Cell(col, perField[key]) as real);
  }

  lemma MatchesWithinTotals(perField: Stats, scored: seq<Scored>)
    requires Tallies(perField, scored)
    ensures ColumnSum(Matches, perField) <= ColumnSum(Totals, perField)
  {
    forall key | key in perField ensures perField[key].matches <= perField[key].total {
      PartitionOfTally(perField, scored, key);
    }
    ColumnsOrdered(Matches, perField, Totals, perField);
  }

  lemma RateShrinks(part: real, small: real, large: real)
    requires 0.0 <= part && 0.0 <= small <= large
    requires small == 0.0 ==> part == 0.0
    ensures Rate(part, large) <= Rate(part, small)
  {
    if small > 0.0 {
      var q := part / large;
      assert q * large == part;
      assert 0.0 <= q;
      assert q * small <= q * large;
      assert q <= part / small;
    }
  }
}
