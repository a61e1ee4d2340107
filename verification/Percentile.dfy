/** The two percentile definitions: nearest rank (harness/scoring.py) and interpolated (scripts/load_test.py). */
module Percentile {

  // ---------- sorted() ----------

  predicate Sorted(s: seq<real>) {
    forall i, j :: 0 <= i < j < |s| ==> s[i] <= s[j]
  }

  lemma SortedCons(h: real, t: seq<real>)
    requires Sorted(t) && (t == [] || h <= t[0])
    ensures Sorted([h] + t)
  {
  }

  function Insert(x: real, s: seq<real>): (r: seq<real>)
    requires Sorted(s)
    ensures Sorted(r) && |r| == |s| + 1
    ensures r[0] == if s == [] || x <= s[0] then x else s[0]
  {
    if s == [] || x <= s[0] then
      SortedCons(x, s);
      [x] + s
    else
      var rest := Insert(x, s[1..]);
      SortedCons(s[0], rest);
      [s[0]] + rest
  }

  lemma {:induction false} InsertElements(x: real, s: seq<real>)
    requires Sorted(s)
    ensures multiset(Insert(x, s)) == multiset(s) + multiset{x}
  {
    if s != [] && x > s[0] {
      InsertElements(x, s[1..]);
      assert s == [s[0]] + s[1..];
    }
  }

  function Sort(s: seq<real>): (r: seq<real>)
    ensures Sorted(r) && |r| == |s|
  {
    if s == [] then [] else Insert(s[0], Sort(s[1..]))
  }

  lemma TailElements(s: seq<real>)
    requires s != []
    ensures multiset(s[1..]) == multiset(s) - multiset{s[0]}
  {
    assert s == [s[0]] + s[1..];
  }

  lemma {:induction false} SortElements(s: seq<real>)
    ensures multiset(Sort(s)) == multiset(s)
  {
    if s != [] {
      var rest := Sort(s[1..]);
      SortElements(s[1..]);
      InsertElements(s[0], rest);
      TailElements(s);
      assert s[0] in multiset(s);
      assert Sort(s) == Insert(s[0], rest);
    }
  }

  lemma LeastFirst(a: seq<real>, b: seq<real>)
    requires Sorted(a) && Sorted(b) && multiset(a) == multiset(b) && a != [] && b != []
    ensures a[0] == b[0]
  {
    assert a[0] in multiset(b) && b[0] in multiset(a);
  }

  // A sorted sequence is determined by its elements.
  lemma {:induction false} SortedUnique(a: seq<real>, b: seq<real>)
    requires Sorted(a) && Sorted(b) && multiset(a) == multiset(b)
    ensures a == b
  {
    assert |a| == |multiset(a)| == |multiset(b)| == |b|;
    if a != [] {
      LeastFirst(a, b);
      TailElements(a);
      TailElements(b);
      SortedUnique(a[1..], b[1..]);
      assert a == [a[0]] + a[1..] && b == [b[0]] + b[1..];
    }
  }

  lemma SortPermuted(a: seq<real>, b: seq<real>)
    requires multiset(a) == multiset(b)
    ensures Sort(a) == Sort(b)
  {
    SortElements(a);
    SortElements(b);
    SortedUnique(Sort(a), Sort(b));
  }

  function Ceil(x: real): int {
    -((-x).Floor)
  }

  // ---------- nearest rank ----------

  // The share of n samples that pct percent asks for.
  function Share(n: nat, pct: real): real {
    pct / 100.0 * n as real
  }

  function RankFor(share: real): int {
    if Ceil(share) < 1 then 1 else Ceil(share)
  }

  lemma ScaleMonotone(p: real, q: real, n: real)
    requires p <= q && 0.0 <= n
    ensures p * n <= q * n && n * p <= n * q
  {
    assert 0.0 <= (q - p) * n;
  }

  lemma ShareMonotone(n: nat, p: real, q: real)
    requires p <= q
    ensures Share(n, p) <= Share(n, q)
  {
    ScaleMonotone(p / 100.0, q / 100.0, n as real);
  }

  lemma ShareBounds(n: nat, pct: real)
    requires pct <= 100.0
    ensures Share(n, pct) <= n as real
    ensures pct > 0.0 && n > 0 ==> 0.0 < Share(n, pct)
  {
    ShareMonotone(n, pct, 100.0);
  }

  // harness/scoring.py:161-166.
  function NearestRank(sorted: seq<real>, pct: real): real
    requires pct <= 100.0
  {
    if sorted == [] then
      0.0
    else
      ShareBounds(|sorted|, pct);
      sorted[RankFor(Share(|sorted|, pct)) - 1]
  }

  // How many samples are at or below v.
  function CountAtOrBelow(s: seq<real>, v: real): nat {
    if s == [] then 0 else CountAtOrBelow(s[..|s| - 1], v) + if s[|s| - 1] <= v then 1 else 0
  }

  lemma {:induction false} CountInSorted(s: seq<real>, k: nat, v: real)
    requires Sorted(s) && k < |s|
    ensures s[k] <= v ==> CountAtOrBelow(s, v) >= k + 1
    ensures s[k] > v ==> CountAtOrBelow(s, v) <= k
    ensures CountAtOrBelow(s, v) <= |s|
    decreases |s|
  {
    var init := s[..|s| - 1];
    if k < |init| {
      CountInSorted(init, k, v);
    } else if init != [] {
      CountInSorted(init, k - 1, v);
    }
  }

  // v is the least sample with at least `share` samples at or below it.
  ghost predicate LeastWithShare(s: seq<real>, share: real, v: real) {
    && v in s
    && CountAtOrBelow(s, v) as real >= share
    && forall w :: w in s && w < v ==> (CountAtOrBelow(s, w) as real) < share
  }

  // v is the least sample with at least pct percent of the samples at or below it.
  ghost predicate LeastCovering(s: seq<real>, pct: real, v: real) {
    && v in s
    && 100.0 * CountAtOrBelow(s, v) as real >= pct * |s| as real
    && forall w :: w in s && w < v ==> 100.0 * CountAtOrBelow(s, w) as real < pct * |s| as real
  }

  lemma ShareIs(n: nat, pct: real)
    ensures 100.0 * Share(n, pct) == pct * n as real
  {
    var q := pct / 100.0;
    assert 100.0 * q == pct;
    assert 100.0 * (q * n as real) == (100.0 * q) * n as real;
  }

  lemma LeastCoveringUnique(s: seq<real>, pct: real, v: real, w: real)
    requires LeastCovering(s, pct, v) && LeastCovering(s, pct, w)
    ensures v == w
  {
  }

  lemma RankForCovers(sorted: seq<real>, share: real)
    requires Sorted(sorted) && 0.0 < share <= |sorted| as real
    ensures LeastWithShare(sorted, share, sorted[RankFor(share) - 1])
  {
    var k := RankFor(share) - 1;
    CountInSorted(sorted, k, sorted[k]);
    forall w | w in sorted && w < sorted[k]
      ensures (CountAtOrBelow(sorted, w) as real) < share
    {
      CountInSorted(sorted, k, w);
    }
  }

  /** Nearest rank is the percentile it is named for: the least sample with at least pct percent of the
      samples at or below it. */
  lemma NearestRankIsPercentile(sorted: seq<real>, pct: real)
    requires Sorted(sorted) && sorted != [] && 0.0 < pct <= 100.0
    ensures LeastCovering(sorted, pct, NearestRank(sorted, pct))
  {
    ShareIs(|sorted|, pct);
    ShareBounds(|sorted|, pct);
    RankForCovers(sorted, Share(|sorted|, pct));
  }

  lemma RankForMonotone(a: real, b: real)
    requires a <= b
    ensures RankFor(a) <= RankFor(b)
  {
  }

  /** So the median of a report is never above its 95th percentile. */
  lemma NearestRankMonotone(sorted: seq<real>, p: real, q: real)
    requires Sorted(sorted) && p <= q <= 100.0
    ensures NearestRank(sorted, p) <= NearestRank(sorted, q)
  {
    if sorted != [] {
      ShareMonotone(|sorted|, p, q);
      ShareBounds(|sorted|, p);
      ShareBounds(|sorted|, q);
      RankForMonotone(Share(|sorted|, p), Share(|sorted|, q));
    }
  }

  // ---------- linear interpolation ----------

  // The value at a fractional position.
  function At(s: seq<real>, t: real): real
    requires s != [] && 0.0 <= t <= (|s| - 1) as real
  {
    var lower, upper := t.Floor, Ceil(t);
    s[lower] + (s[upper] - s[lower]) * (t - lower as real)
  }

  function Position(n: nat, percent: real): real {
    (n - 1) as real * percent / 100.0
  }

  lemma PositionInRange(n: nat, percent: real)
    requires n > 0 && 0.0 <= percent <= 100.0
    ensures 0.0 <= Position(n, percent) <= (n - 1) as real
  {
    ScaleMonotone(0.0, percent, (n - 1) as real);
    ScaleMonotone(percent, 100.0, (n - 1) as real);
  }

  lemma PositionMonotone(n: nat, p: real, q: real)
    requires n > 0 && p <= q
    ensures Position(n, p) <= Position(n, q)
  {
    ScaleMonotone(p, q, (n - 1) as real);
  }

  datatype Result = Percentile(value: real) | ValueError

  // scripts/load_test.py:61-69.
  function Interpolated(values: seq<real>, percent: real): Result {
    if values == [] || !(0.0 <= percent <= 100.0) then
      ValueError
    else
      PositionInRange(|values|, percent);
      Percentile(At(Sort(values), Position(|values|, percent)))
  }

  lemma Between(a: real, b: real, f: real)
    requires a <= b && 0.0 <= f <= 1.0
    ensures a <= a + (b - a) * f <= b
  {
    ScaleMonotone(0.0, f, b - a);
    ScaleMonotone(f, 1.0, b - a);
  }

  lemma AtBetween(s: seq<real>, t: real)
    requires Sorted(s) && s != [] && 0.0 <= t <= (|s| - 1) as real
    ensures s[t.Floor] <= At(s, t) <= s[Ceil(t)]
  {
    Between(s[t.Floor], s[Ceil(t)], t - t.Floor as real);
  }

  lemma TimesUnits(x: real)
    ensures x * 0.0 == 0.0 && x * 1.0 == x
  {
  }

  // The step from sample k to the next.
  function Step(s: seq<real>, k: nat): real
    requires k < |s|
  {
    if k + 1 < |s| then s[k + 1] - s[k] else 0.0
  }

  // Between two neighbouring samples the value runs along the straight line that joins them.
  lemma AtOnLine(s: seq<real>, t: real, k: nat, base: real, d: real)
    requires s != [] && 0.0 <= t <= (|s| - 1) as real && k < |s| && k as real <= t <= k as real + 1.0
    requires base == s[k] && d == Step(s, k)
    ensures At(s, t) == base + d * (t - k as real)
  {
    TimesUnits(d);
    if t == k as real + 1.0 {
      assert t.Floor == Ceil(t) == k + 1;
      TimesUnits(s[k + 1] - s[k + 1]);
    } else if t == k as real {
      assert t.Floor == Ceil(t) == k;
      TimesUnits(s[k] - s[k]);
    } else {
      assert t.Floor == k && Ceil(t) == k + 1;
    }
  }

  lemma AtMonotone(s: seq<real>, t: real, u: real)
    requires Sorted(s) && s != [] && 0.0 <= t <= u <= (|s| - 1) as real
    ensures At(s, t) <= At(s, u)
  {
    if t.Floor == u.Floor {
      var k := t.Floor;
      var base, d := s[k], Step(s, k);
      AtOnLine(s, t, k, base, d);
      AtOnLine(s, u, k, base, d);
      ScaleMonotone(t - k as real, u - k as real, d);
    } else {
      AtBetween(s, t);
      AtBetween(s, u);
      assert Ceil(t) <= u.Floor;
    }
  }

  /** The interpolated percentile rises with the percent, stays within the samples, attains their least and
      greatest at 0 and 100, and does not depend on their order. */
  lemma InterpolatedMonotone(values: seq<real>, p: real, q: real)
    requires values != [] && 0.0 <= p <= q <= 100.0
    ensures Interpolated(values, p).Percentile? && Interpolated(values, q).Percentile?
    ensures Interpolated(values, p).value <= Interpolated(values, q).value
  {
    PositionInRange(|values|, p);
    PositionInRange(|values|, q);
    PositionMonotone(|values|, p, q);
    AtMonotone(Sort(values), Position(|values|, p), Position(|values|, q));
  }

  lemma InterpolatedEnds(values: seq<real>)
    requires values != []
    ensures Interpolated(values, 0.0).Percentile? && Interpolated(values, 100.0).Percentile?
    ensures Interpolated(values, 0.0).value in values && Interpolated(values, 100.0).value in values
    ensures forall v :: v in values ==> Interpolated(values, 0.0).value <= v <= Interpolated(values, 100.0).value
  {
    var s := Sort(values);
    SortElements(values);
    assert Position(|values|, 0.0) == 0.0 && Position(|values|, 100.0) == (|values| - 1) as real;
    AtWhole(s, 0);
    AtWhole(s, |s| - 1);
    assert s[0] in multiset(values) && s[|s| - 1] in multiset(values);
    forall v | v in values ensures s[0] <= v <= s[|s| - 1] {
      assert v in multiset(s);
    }
  }

  lemma AtWhole(s: seq<real>, k: nat)
    requires k < |s|
    ensures At(s, k as real) == s[k]
  {
  }

  lemma InterpolatedWithin(values: seq<real>, p: real)
    requires values != [] && 0.0 <= p <= 100.0
    ensures Interpolated(values, 0.0).value <= Interpolated(values, p).value <= Interpolated(values, 100.0).value
  {
    InterpolatedMonotone(values, 0.0, p);
    InterpolatedMonotone(values, p, 100.0);
  }

  lemma Chord(a: real, b: real, p: real, q: real, r: real, vp: real, vq: real, vr: real)
    requires vp == a + b * p && vq == a + b * q && vr == a + b * r
    ensures (r - p) * vq == (r - q) * vp + (q - p) * vr
  {
  }

  lemma FromOrigin(base: real, d: real, k: real, at: real)
    ensures base + d * (at - k) == (base - d * k) + d * at
  {
  }

  lemma AtFromOrigin(s: seq<real>, at: real, k: nat, a: real, d: real)
    requires s != [] && 0.0 <= at <= (|s| - 1) as real && k < |s| && k as real <= at <= k as real + 1.0
    requires d == Step(s, k) && a == s[k] - d * k as real
    ensures At(s, at) == a + d * at
  {
    AtOnLine(s, at, k, s[k], d);
    FromOrigin(s[k], d, k as real, at);
  }

  lemma OnLine(values: seq<real>, t: real, at: real, k: nat, a: real, d: real) returns (v: real)
    requires k < |values| && 0.0 <= t <= 100.0 && at == Position(|values|, t)
    requires k as real <= at <= k as real + 1.0
    requires d == Step(Sort(values), k) && a == Sort(values)[k] - d * k as real
    ensures Interpolated(values, t) == Percentile(v) && v == a + d * at
  {
    PositionInRange(|values|, t);
    AtFromOrigin(Sort(values), at, k, a, d);
    v := Interpolated(values, t).value;
  }

  lemma PositionIs(n: nat, t: real, slope: real)
    requires slope == (n - 1) as real / 100.0
    ensures Position(n, t) == slope * t
  {
  }

  lemma Regroup(a: real, d: real, slope: real, b: real, t: real, at: real, v: real)
    requires v == a + d * at && at == slope * t && b == d * slope
    ensures v == a + b * t
  {
    assert d * (slope * t) == (d * slope) * t;
  }

  // As a function of the percent, too, the value runs along one line in each gap.
  lemma InPercent(values: seq<real>, t: real, at: real, k: nat, a: real, d: real, slope: real, b: real)
    returns (v: real)
    requires k < |values| && 0.0 <= t <= 100.0 && at == Position(|values|, t) && at == slope * t
    requires k as real <= at <= k as real + 1.0
    requires d == Step(Sort(values), k) && a == Sort(values)[k] - d * k as real && b == d * slope
    ensures Interpolated(values, t) == Percentile(v) && v == a + b * t
  {
    v := OnLine(values, t, at, k, a, d);
    Regroup(a, d, slope, b, t, at, v);
  }

  lemma LinearByPosition(values: seq<real>, p: real, q: real, r: real, k: nat)
    returns (vp: real, vq: real, vr: real)
    requires k < |values| && 0.0 <= p <= q <= r <= 100.0
    requires k as real <= Position(|values|, p) && Position(|values|, r) <= k as real + 1.0
    ensures Interpolated(values, p) == Percentile(vp) && Interpolated(values, q) == Percentile(vq)
    ensures Interpolated(values, r) == Percentile(vr)
    ensures (r - p) * vq == (r - q) * vp + (q - p) * vr
  {
    var d, slope := Step(Sort(values), k), (|values| - 1) as real / 100.0;
    var a, b := Sort(values)[k] - d * k as real, d * slope;
    PositionMonotone(|values|, p, q);
    PositionMonotone(|values|, q, r);
    PositionIs(|values|, p, slope);
    PositionIs(|values|, q, slope);
    PositionIs(|values|, r, slope);
    vp := InPercent(values, p, slope * p, k, a, d, slope, b);
    vq := InPercent(values, q, slope * q, k, a, d, slope, b);
    vr := InPercent(values, r, slope * r, k, a, d, slope, b);
    Chord(a, b, p, q, r, vp, vq, vr);
  }

  /** Between neighbouring samples the percentile interpolates: on percents whose positions lie in one gap it
      is a straight line. */
  lemma InterpolatedLinear(values: seq<real>, p: real, q: real, r: real, k: nat)
    requires values != [] && 0.0 <= p <= q <= r <= 100.0
    requires k as real <= (|values| - 1) as real * p / 100.0 && (|values| - 1) as real * r / 100.0 <= k as real + 1.0
    ensures exists vp, vq, vr ::
              && Interpolated(values, p) == Percentile(vp) && Interpolated(values, q) == Percentile(vq)
              && Interpolated(values, r) == Percentile(vr) && (r - p) * vq == (r - q) * vp + (q - p) * vr
  {
    PositionInRange(|values|, p);
    assert k < |values|;
    var vp, vq, vr := LinearByPosition(values, p, q, r, k);
  }

  /** And at the percent whose position is k it is the k-th sample in order. */
  lemma InterpolatedAtSample(values: seq<real>, p: real, k: nat)
    requires k < |values| && 0.0 <= p <= 100.0 && (|values| - 1) as real * p / 100.0 == k as real
    ensures Interpolated(values, p) == Percentile(Sort(values)[k])
  {
    PositionInRange(|values|, p);
    AtWhole(Sort(values), k);
  }

  /** Anything but a percent of some samples is refused. */
  lemma InterpolatedRefuses(values: seq<real>, p: real)
    ensures Interpolated(values, p) == ValueError <==> values == [] || p < 0.0 || p > 100.0
  {
  }

  // Half-way between two samples.
  lemma InterpolatedExample()
    ensures Interpolated([0.0, 10.0], 50.0) == Percentile(5.0)
  {
    SortElements([0.0, 10.0]);
    SortedUnique(Sort([0.0, 10.0]), [0.0, 10.0]);
    var v := OnLine([0.0, 10.0], 50.0, 0.5, 0, 0.0, 10.0);
  }

  lemma InterpolatedPermuted(a: seq<real>, b: seq<real>, p: real)
    requires multiset(a) == multiset(b)
    ensures Interpolated(a, p) == Interpolated(b, p)
  {
    assert |a| == |multiset(a)| == |multiset(b)| == |b|;
    SortPermuted(a, b);
  }
}
