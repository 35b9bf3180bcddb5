/**
 * The score records the vision pipeline passes between its stages, and
 * `normalizeScores`, which rescales their counts in place to percentages.
 * Counts are reals: floating-point rounding is not modelled.
 */
module Scores {
  import opened Optional
  import opened Sorting

  /**
   * One candidate: `{ taxon_id, count }` as the classifier's scores carry it,
   * with the `vision_score` and `frequency_score` fields later stages may add
   * (None while a stage has not set the field).
   */
  datatype ScoredTaxon = ScoredTaxon(taxonId: int, count: real, visionScore: Option<real>, frequencyScore: Option<real>)

  /** The `"count"` sort key. */
  function CountKey(s: ScoredTaxon): real {
    s.count
  }

  /** `_.sum(_.map(scores, "count"))`. */
  function SumCounts(s: seq<ScoredTaxon>): real
    decreases |s|
  {
    if s == [] then 0.0 else SumCounts(s[..|s| - 1]) + s[|s| - 1].count
  }

  ghost predicate AllPositive(s: seq<ScoredTaxon>) {
    forall i :: 0 <= i < |s| ==> s[i].count > 0.0
  }

  /** Positive counts have a positive sum, so normalising them never divides by zero. */
  lemma {:induction false} PositiveSum(s: seq<ScoredTaxon>)
    requires AllPositive(s) && s != []
    ensures SumCounts(s) > 0.0
    decreases |s|
  {
    if |s| > 1 {
      PositiveSum(s[..|s| - 1]);
    }
  }

  /** `c` times `f`, kept behind a name so that equal arguments give equal products without arithmetic. */
  function Scaled(c: real, f: real): real {
    c * f
  }

  /** The factor `100 / total` that turns counts summing to `total` into percentages. */
  function Percent(total: real): real
    requires total != 0.0
  {
    100.0 / total
  }

  /** The entry `e` with its count multiplied by `factor`. */
  function ScaledEntry(e: ScoredTaxon, factor: real): ScoredTaxon {
    e.(count := Scaled(e.count, factor))
  }

  /** Every count multiplied by the one factor `factor`. */
  function Rescale(s: seq<ScoredTaxon>, factor: real): (r: seq<ScoredTaxon>)
    ensures |r| == |s|
    ensures forall i :: 0 <= i < |s| ==> r[i] == ScaledEntry(s[i], factor)
  {
    seq(|s|, i requires 0 <= i < |s| => ScaledEntry(s[i], factor))
  }

  lemma Distribute(a: real, b: real, f: real)
    ensures Scaled(a + b, f) == Scaled(a, f) + Scaled(b, f)
  {
  }

  lemma {:induction false} SumRescale(s: seq<ScoredTaxon>, factor: real)
    ensures SumCounts(Rescale(s, factor)) == Scaled(SumCounts(s), factor)
    decreases |s|
  {
    if s == [] {
      assert Scaled(0.0, factor) == 0.0;
    } else {
      var init := s[..|s| - 1];
      var r := Rescale(s, factor);
      assert r[..|s| - 1] == Rescale(init, factor);
      assert SumCounts(r) == SumCounts(Rescale(init, factor)) + r[|s| - 1].count;
      assert r[|s| - 1].count == Scaled(s[|s| - 1].count, factor);
      SumRescale(init, factor);
      assert SumCounts(s) == SumCounts(init) + s[|s| - 1].count;
      Distribute(SumCounts(init), s[|s| - 1].count, factor);
    }
  }

  lemma PercentOfTotal(total: real)
    requires total != 0.0
    ensures Scaled(total, Percent(total)) == 100.0
  {
  }

  /**
   * `normalizeScores(scores)`: every count scaled by the same factor 100 / sum,
   * so that the counts sum to 100. The source has no zero-sum guard, so a
   * non-empty list must not sum to zero.
   */
  function Normalized(s: seq<ScoredTaxon>): (r: seq<ScoredTaxon>)
    requires s == [] || SumCounts(s) != 0.0
    ensures |r| == |s|
    ensures forall i :: 0 <= i < |s| ==> r[i] == s[i].(count := r[i].count)
  {
    if s == [] then [] else Rescale(s, Percent(SumCounts(s)))
  }

  /** The normalised counts sum to 100. */
  lemma NormalizedSum(s: seq<ScoredTaxon>)
    requires s != [] && SumCounts(s) != 0.0
    ensures SumCounts(Normalized(s)) == 100.0
  {
    SumRescale(s, Percent(SumCounts(s)));
    PercentOfTotal(SumCounts(s));
  }

  /** `(c * 100) / total`, the source's expression, is `c` times the one factor `100 / total`. */
  lemma PercentFactor(c: real, total: real)
    requires total != 0.0
    ensures (c * 100.0) / total == Scaled(c, Percent(total))
  {
  }

  lemma PercentPositive(total: real)
    requires total > 0.0
    ensures Percent(total) > 0.0
  {
  }

  lemma ScaleMonotone(a: real, b: real, f: real)
    requires f > 0.0
    ensures a <= b <==> Scaled(a, f) <= Scaled(b, f)
    ensures a > 0.0 ==> Scaled(a, f) > 0.0
  {
  }

  lemma ScaleRatio(a: real, b: real, f: real)
    ensures Scaled(a, f) * b == Scaled(b, f) * a
  {
  }

  /** The count of entry `i` after normalising a list with a non-zero sum. */
  lemma NormalizedEntry(s: seq<ScoredTaxon>, i: nat)
    requires i < |s| && SumCounts(s) != 0.0
    ensures Normalized(s)[i] == ScaledEntry(s[i], Percent(SumCounts(s)))
  {
    assert Normalized(s) == Rescale(s, Percent(SumCounts(s)));
  }

  /** A positive factor keeps the order of any two counts and their ratio. */
  lemma RescaleKeepsOrder(s: seq<ScoredTaxon>, f: real, i: nat, j: nat)
    requires i < |s| && j < |s| && f > 0.0
    ensures s[i].count <= s[j].count <==> Rescale(s, f)[i].count <= Rescale(s, f)[j].count
    ensures Rescale(s, f)[i].count * s[j].count == Rescale(s, f)[j].count * s[i].count
  {
    ScaleMonotone(s[i].count, s[j].count, f);
    ScaleRatio(s[i].count, s[j].count, f);
  }

  /** With a positive sum, normalising keeps the order of any two counts and their ratio. */
  lemma NormalizedKeepsOrder(s: seq<ScoredTaxon>, i: nat, j: nat)
    requires i < |s| && j < |s| && SumCounts(s) > 0.0
    ensures s[i].count <= s[j].count <==> Normalized(s)[i].count <= Normalized(s)[j].count
    ensures Normalized(s)[i].count * s[j].count == Normalized(s)[j].count * s[i].count
  {
    var f := Percent(SumCounts(s));
    assert Normalized(s) == Rescale(s, f);
    PercentPositive(SumCounts(s));
    RescaleKeepsOrder(s, f, i, j);
  }

  /** Normalising a list sorted by count keeps it sorted. */
  lemma NormalizedSorted(s: seq<ScoredTaxon>)
    requires SumCounts(s) > 0.0 && SortedDesc(s, CountKey)
    ensures SortedDesc(Normalized(s), CountKey)
  {
    forall i, j | 0 <= i < j < |s| ensures Normalized(s)[i].count >= Normalized(s)[j].count {
      NormalizedKeepsOrder(s, j, i);
    }
  }

  /** Normalising positive counts leaves them positive. */
  lemma NormalizedPositive(s: seq<ScoredTaxon>)
    requires AllPositive(s)
    ensures s == [] || SumCounts(s) != 0.0
    ensures AllPositive(Normalized(s))
  {
    if s != [] {
      PositiveSum(s);
      PercentPositive(SumCounts(s));
      forall i | 0 <= i < |s| ensures Normalized(s)[i].count > 0.0 {
        NormalizedEntry(s, i);
        ScaleMonotone(s[i].count, s[i].count, Percent(SumCounts(s)));
      }
    }
  }

  /** Normalising an already normalised list changes nothing. */
  lemma NormalizedIdempotent(s: seq<ScoredTaxon>)
    requires s != [] && SumCounts(s) != 0.0
    ensures SumCounts(Normalized(s)) == 100.0
    ensures Normalized(Normalized(s)) == Normalized(s)
  {
    var r := Normalized(s);
    NormalizedSum(s);
    assert Percent(100.0) == 1.0;
    forall i | 0 <= i < |s| ensures Normalized(r)[i] == r[i] {
      NormalizedEntry(r, i);
      assert Scaled(r[i].count, 1.0) == r[i].count;
    }
  }

  lemma {:induction false} SumCountsAppend(a: seq<ScoredTaxon>, b: seq<ScoredTaxon>)
    ensures SumCounts(a + b) == SumCounts(a) + SumCounts(b)
    decreases |b|
  {
    if b == [] {
      assert a + b == a;
    } else {
      assert (a + b)[..|a + b| - 1] == a + b[..|b| - 1];
      SumCountsAppend(a, b[..|b| - 1]);
    }
  }

  lemma {:induction false} SumCountsSnoc(s: seq<ScoredTaxon>, x: ScoredTaxon)
    ensures SumCounts(s + [x]) == SumCounts(s) + x.count
  {
    assert (s + [x])[..|s|] == s;
  }

  /** The summed count with entry `k` taken out. */
  lemma {:induction false} SumCountsRemove(b: seq<ScoredTaxon>, k: nat)
    requires k < |b|
    ensures SumCounts(b) == SumCounts(b[..k] + b[k + 1..]) + b[k].count
  {
    var pre, post := b[..k], b[k + 1..];
    var mid := pre + [b[k]];
    calc {
      SumCounts(b);
      { assert b == mid + post; }
      SumCounts(mid + post);
      { SumCountsAppend(mid, post); }
      SumCounts(mid) + SumCounts(post);
      { SumCountsSnoc(pre, b[k]); }
      SumCounts(pre) + b[k].count + SumCounts(post);
      { SumCountsAppend(pre, post); }
      SumCounts(pre + post) + b[k].count;
    }
  }

  lemma MultisetRemove(b: seq<ScoredTaxon>, k: nat)
    requires k < |b|
    ensures multiset(b) == multiset(b[..k] + b[k + 1..]) + multiset{b[k]}
  {
    assert b == b[..k] + [b[k]] + b[k + 1..];
  }

  lemma MultisetCancel(x: multiset<ScoredTaxon>, y: multiset<ScoredTaxon>, e: ScoredTaxon)
    requires x + multiset{e} == y + multiset{e}
    ensures x == y
  {
    assert x == (x + multiset{e}) - multiset{e};
    assert y == (y + multiset{e}) - multiset{e};
  }

  /** Reordering a list does not change its summed count. */
  lemma {:induction false} SumCountsPermutation(a: seq<ScoredTaxon>, b: seq<ScoredTaxon>)
    requires multiset(a) == multiset(b)
    ensures SumCounts(a) == SumCounts(b)
    decreases |a|
  {
    if a == [] {
      assert |b| == |multiset(b)| == 0;
    } else {
      var init := a[..|a| - 1];
      var x := a[|a| - 1];
      assert a == init + [x];
      assert x in multiset(b);
      var k :| 0 <= k < |b| && b[k] == x;
      var rest := b[..k] + b[k + 1..];
      MultisetRemove(b, k);
      MultisetCancel(multiset(init), multiset(rest), x);
      SumCountsPermutation(init, rest);
      SumCountsRemove(b, k);
    }
  }

  /** Normalising is rescaling by the one factor 100 / sum. */
  lemma {:induction false} NormalizedIsRescale(s: seq<ScoredTaxon>)
    requires SumCounts(s) != 0.0
    ensures Normalized(s) == Rescale(s, Percent(SumCounts(s)))
  {
    forall i | 0 <= i < |s| ensures Normalized(s)[i] == Rescale(s, Percent(SumCounts(s)))[i] {
      NormalizedEntry(s, i);
    }
  }

  lemma {:induction false} RescaleAppend(a: seq<ScoredTaxon>, b: seq<ScoredTaxon>, f: real)
    ensures Rescale(a + b, f) == Rescale(a, f) + Rescale(b, f)
  {
    var l, r := Rescale(a + b, f), Rescale(a, f) + Rescale(b, f);
    forall i | 0 <= i < |l| ensures l[i] == r[i] {
      if i < |a| {
        assert (a + b)[i] == a[i];
      } else {
        assert (a + b)[i] == b[i - |a|];
      }
    }
  }

  /** Rescaling with entry `k` taken out takes out its rescaled entry. */
  lemma {:induction false} RescaleRemove(b: seq<ScoredTaxon>, k: nat, f: real)
    requires k < |b|
    ensures multiset(Rescale(b, f)) == multiset(Rescale(b[..k] + b[k + 1..], f)) + multiset{ScaledEntry(b[k], f)}
  {
    var pre, post := b[..k], b[k + 1..];
    assert b == pre + ([b[k]] + post);
    RescaleAppend(pre, [b[k]] + post, f);
    RescaleAppend([b[k]], post, f);
    RescaleAppend(pre, post, f);
    assert Rescale([b[k]], f) == [ScaledEntry(b[k], f)];
  }

  /** Rescaling two reorderings of one list gives two reorderings of one rescaled list. */
  lemma {:induction false} RescalePermutation(a: seq<ScoredTaxon>, b: seq<ScoredTaxon>, f: real)
    requires multiset(a) == multiset(b)
    ensures multiset(Rescale(a, f)) == multiset(Rescale(b, f))
    decreases |a|
  {
    if a == [] {
      assert |b| == |multiset(b)| == 0;
    } else {
      var init := a[..|a| - 1];
      var x := a[|a| - 1];
      assert a == init + [x];
      assert x in multiset(b);
      var k :| 0 <= k < |b| && b[k] == x;
      MultisetRemove(b, k);
      MultisetCancel(multiset(init), multiset(b[..k] + b[k + 1..]), x);
      RescalePermutation(init, b[..k] + b[k + 1..], f);
      RescaleRemove(a, |a| - 1, f);
      assert a[..|a| - 1] + a[|a|..] == init;
      RescaleRemove(b, k, f);
    }
  }

  /** Lists with the same counts position by position have the same summed count. */
  lemma {:induction false} SumCountsPointwise(a: seq<ScoredTaxon>, b: seq<ScoredTaxon>)
    requires |a| == |b| && forall i :: 0 <= i < |a| ==> a[i].count == b[i].count
    ensures SumCounts(a) == SumCounts(b)
    decreases |a|
  {
    if a != [] {
      SumCountsPointwise(a[..|a| - 1], b[..|b| - 1]);
    }
  }

  /**
   * `normalizeScores` applied to the first `n` entries of `a`, in place. The
   * whole list is the case n == a.Length; a shorter `n` is a `slice(0, n)` of
   * the list, whose entries are the same objects as the list's first `n`.
   */
  method NormalizeScores(a: array<ScoredTaxon>, n: nat)
    requires n <= a.Length
    requires n == 0 || SumCounts(a[..n]) != 0.0
    modifies a
    ensures a[..n] == Normalized(old(a[..n]))
    ensures a[n..] == old(a[n..])
  {
    var sumScores := 0.0;
    var i := 0;
    while i < n
      invariant 0 <= i <= n
      invariant sumScores == SumCounts(a[..i])
    {
      assert a[..i + 1][..i] == a[..i];
      sumScores := sumScores + a[i].count;
      i := i + 1;
    }
    assert a[..i] == a[..n];
    assert n > 0 ==> sumScores != 0.0;
    i := 0;
    while i < n
      invariant 0 <= i <= n
      invariant forall k :: 0 <= k < i ==> a[k] == ScaledEntry(old(a[k]), Percent(sumScores))
      invariant forall k :: i <= k < a.Length ==> a[k] == old(a[k])
    {
      PercentFactor(a[i].count, sumScores);
      a[i] := a[i].(count := (a[i].count * 100.0) / sumScores);
      i := i + 1;
    }
    assert n > 0 ==> a[..n] == Rescale(old(a[..n]), Percent(sumScores));
  }
}
