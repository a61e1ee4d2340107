/** Finite sums of reals: over the values of a map, over a sequence, and over a prefix of a stream. */
module Sums {

  // The sum of the values of a finite map.
  ghost function Total<K>(m: map<K, real>): real
    decreases |m|
  {
    if m == map[] then
      0.0
    else
      var k :| k in m;
      m[k] + Total(m - {k})
  }

  // The sum does not depend on which key is taken out first.
  lemma {:induction false} TotalSplit<K>(m: map<K, real>, k: K)
    requires k in m
    ensures Total(m) == m[k] + Total(m - {k})
    decreases |m|
  {
    var p :| p in m && Total(m) == m[p] + Total(m - {p});
    if p != k {
      TotalSplit(m - {p}, k);
      TotalSplit(m - {k}, p);
      assert m - {p} - {k} == m - {k} - {p};
    }
  }

  // Writing one key changes the sum by the difference at that key.
  lemma TotalUpdate<K>(m: map<K, real>, k: K, v: real)
    ensures Total(m[k := v]) == Total(m) - (if k in m then m[k] else 0.0) + v
  {
    var m' := m[k := v];
    TotalSplit(m', k);
    if k in m {
      TotalSplit(m, k);
      assert m' - {k} == m - {k};
    } else {
      assert m' - {k} == m;
    }
  }

  lemma {:induction false} TotalNonnegative<K>(m: map<K, real>)
    requires forall k :: k in m ==> 0.0 <= m[k]
    ensures 0.0 <= Total(m)
    decreases |m|
  {
    if m != map[] {
      var k :| k in m;
      TotalSplit(m, k);
      TotalNonnegative(m - {k});
    }
  }

  lemma {:induction false} TotalZero<K>(m: map<K, real>)
    requires forall k :: k in m ==> m[k] == 0.0
    ensures Total(m) == 0.0
    decreases |m|
  {
    if m != map[] {
      var k :| k in m;
      TotalSplit(m, k);
      TotalZero(m - {k});
    }
  }

  // The sum of a sequence.
  function SumSeq(s: seq<real>): real {
    if s == [] then 0.0 else SumSeq(s[..|s| - 1]) + s[|s| - 1]
  }

  lemma {:induction false} SumRemoved(s: seq<real>, i: nat)
    requires i < |s|
    ensures SumSeq(s) == SumSeq(s[..i] + s[i + 1..]) + s[i]
  {
    var n := |s| - 1;
    if i == n {
      assert s[..i] + s[i + 1..] == s[..n];
    } else {
      SumRemoved(s[..n], i);
      var rest := s[..n][..i] + s[..n][i + 1..];
      assert s[..i] + s[i + 1..] == rest + [s[n]];
      assert (rest + [s[n]])[..|rest|] == rest;
    }
  }

  lemma {:induction false} SumPermuted(a: seq<real>, b: seq<real>)
    requires multiset(a) == multiset(b)
    ensures SumSeq(a) == SumSeq(b)
    decreases |a|
  {
    if a == [] {
      assert b == [] by { assert |multiset(b)| == 0; }
    } else {
      var n := |a| - 1;
      assert a[n] in multiset(a);
      var i := Somewhere(b, a[n]);
      RemovalMultiset(a, n);
      RemovalMultiset(b, i);
      SumPermuted(a[..n] + a[n + 1..], b[..i] + b[i + 1..]);
      SumRemoved(a, n);
      SumRemoved(b, i);
    }
  }

  lemma RemovalMultiset<T>(s: seq<T>, i: nat)
    requires i < |s|
    ensures multiset(s[..i] + s[i + 1..]) == multiset(s) - multiset{s[i]}
  {
    assert s == s[..i] + [s[i]] + s[i + 1..];
  }

  lemma {:induction false} Somewhere<T>(s: seq<T>, x: T) returns (i: nat)
    requires x in multiset(s)
    ensures i < |s| && s[i] == x
  {
    i :| 0 <= i < |s| && s[i] == x;
  }

  // n copies of x added up.
  function Repeat(x: real, n: nat): real {
    if n == 0 then 0.0 else Repeat(x, n - 1) + x
  }

  lemma {:induction false} RepeatIsProduct(x: real, n: nat)
    ensures Repeat(x, n) == n as real * x
  {
    if n > 0 {
      RepeatIsProduct(x, n - 1);
      assert n as real * x == (n - 1) as real * x + x;
    }
  }

  lemma {:induction false} RepeatMonotone(x: real, m: nat, n: nat)
    requires 0.0 <= x && m <= n
    ensures 0.0 <= Repeat(x, m) <= Repeat(x, n)
  {
    if m < n {
      RepeatMonotone(x, m, n - 1);
    } else if 0 < n {
      RepeatMonotone(x, m - 1, n - 1);
    }
  }

  lemma SubsetSize<T>(a: set<T>, b: set<T>)
    requires a <= b
    ensures |a| <= |b|
  {
    assert b == a + (b - a);
  }

  lemma SizeWithout<T>(s: set<T>, x: T)
    ensures |s| == |s - {x}| + if x in s then 1 else 0
  {
    if x in s {
      assert s == s - {x} + {x};
    } else {
      assert s == s - {x};
    }
  }

  // Two sets that differ at most in x.
  lemma SizeUpdate<T>(before: set<T>, after: set<T>, x: T)
    requires before - {x} == after - {x}
    ensures |after| == |before| - (if x in before then 1 else 0) + (if x in after then 1 else 0)
  {
    SizeWithout(before, x);
    SizeWithout(after, x);
  }
}
