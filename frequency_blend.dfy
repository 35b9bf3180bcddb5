/**
 * `scoreImageAfterFrequencies` (lines 238-291): blends the vision scores with
 * the frequencies of taxa observed nearby. Nearby results under the common
 * ancestor share a frequency of 1 between them; every other nearby taxon is
 * "unrelated" and only marked. Without nearby results the vision scores are
 * passed through.
 */
module FrequencyBlend {
  import opened Optional
  import opened SeqUtil
  import opened Sorting
  import opened Scores

  /** The taxon of a nearby species count, with its `ancestor_ids`. */
  datatype NearbyTaxon = NearbyTaxon(id: int, ancestorIds: seq<int>)

  /** One entry of `nearbyTaxa.results`: a taxon and how many nearby observations it has. */
  datatype NearbyResult = NearbyResult(taxon: NearbyTaxon, count: int)

  /** The frequency score that lets a taxon outside the common ancestor be marked as seen nearby. */
  const UnrelatedFrequency: real := 0.000000001

  /** Line 243: the nearby taxon lies under the common ancestor. */
  function AncestorTest(commonAncestor: Option<int>): NearbyResult -> bool {
    (r: NearbyResult) => commonAncestor.Some? && commonAncestor.value in r.taxon.ancestorIds
  }

  /** `ancestorNearbyTaxaResults`. */
  function InAncestor(results: seq<NearbyResult>, commonAncestor: Option<int>): seq<NearbyResult> {
    Filter(results, AncestorTest(commonAncestor))
  }

  /** The keys of `unrelatedNearbyTaxa`. */
  function Unrelated(results: seq<NearbyResult>, commonAncestor: Option<int>): set<int>
    decreases |results|
  {
    if results == [] then {}
    else
      var r := results[|results| - 1];
      Unrelated(results[..|results| - 1], commonAncestor) + (if AncestorTest(commonAncestor)(r) then {} else {r.taxon.id})
  }

  /** Line 250: the summed nearby count. */
  function SumNearby(rs: seq<NearbyResult>): int
    decreases |rs|
  {
    if rs == [] then 0 else SumNearby(rs[..|rs| - 1]) + rs[|rs| - 1].count
  }

  /** Lines 254-258: each taxon's share `count / sumScores`, a later result for the same taxon overwriting. */
  function Shares(rs: seq<NearbyResult>, total: real): map<int, real>
    requires rs == [] || total != 0.0
    decreases |rs|
  {
    if rs == [] then map[]
    else
      var r := rs[|rs| - 1];
      Shares(rs[..|rs| - 1], total)[r.taxon.id := (r.count as real) / total]
  }

  /** `visionScores`: each vision taxon's count as a fraction. */
  function VisionMap(scores: seq<ScoredTaxon>): map<int, real>
    decreases |scores|
  {
    if scores == [] then map[]
    else
      var s := scores[|scores| - 1];
      VisionMap(scores[..|scores| - 1])[s.taxonId := s.count / 100.0]
  }

  /** `1 / ((ancestorNearbyTaxaResults.length || 1) * 100)`: the prior of a vision taxon nobody saw nearby. */
  function Prior(n: nat): real {
    1.0 / ((if n == 0 then 1 else n) as real * 100.0)
  }

  /**
   * Lines 259-265: each vision taxon's combined score. A truthy share is
   * multiplied by the vision fraction; otherwise the fraction is scaled by the prior.
   */
  function Combine(shares: map<int, real>, scores: seq<ScoredTaxon>, n: nat): map<int, real>
    decreases |scores|
  {
    if scores == [] then shares
    else
      var m := Combine(shares, scores[..|scores| - 1], n);
      var s := scores[|scores| - 1];
      var fraction := s.count / 100.0;
      m[s.taxonId := if s.taxonId in m && m[s.taxonId] != 0.0 then Scaled(m[s.taxonId], fraction) else Scaled(fraction, Prior(n))]
  }

  function ValueOr(m: map<int, real>, k: int): real {
    if k in m then m[k] else 0.0
  }

  /** `v * (1 / scores.length)`. */
  function PerScore(v: real, nScores: nat): real
    requires nScores > 0
  {
    v * (1.0 / (nScores as real))
  }

  /** Lines 266-273: the entry for taxon `k`; a taxon without a truthy vision score is divided by `scores.length`. */
  function Entry(k: int, taxonScores: map<int, real>, vision: map<int, real>, frequency: map<int, real>, nScores: nat): ScoredTaxon
    requires k in taxonScores
    requires nScores > 0 || (k in vision && vision[k] != 0.0)
  {
    var v := taxonScores[k];
    ScoredTaxon(
      k,
      if k in vision && vision[k] != 0.0 then v else PerScore(v, nScores),
      Some(ValueOr(vision, k) * 100.0),
      Some(ValueOr(frequency, k) * 100.0))
  }

  /** `_.map(taxonScores, ...)`: one entry per key, in ascending key order. */
  function TopEntries(keys: seq<int>, taxonScores: map<int, real>, vision: map<int, real>, frequency: map<int, real>, nScores: nat)
    : (r: seq<ScoredTaxon>)
    requires forall i :: 0 <= i < |keys| ==> keys[i] in taxonScores
    requires nScores > 0 || keys == []
    ensures |r| == |keys|
    ensures forall i :: 0 <= i < |keys| ==> r[i] == Entry(keys[i], taxonScores, vision, frequency, nScores)
    decreases |keys|
  {
    if keys == [] then []
    else
      TopEntries(keys[..|keys| - 1], taxonScores, vision, frequency, nScores)
        + [Entry(keys[|keys| - 1], taxonScores, vision, frequency, nScores)]
  }

  /** Lines 276-282: taxa outside the common ancestor get the tiny frequency score. */
  function Marked(top: seq<ScoredTaxon>, unrelated: set<int>): (r: seq<ScoredTaxon>)
    ensures |r| == |top|
  {
    seq(|top|, i requires 0 <= i < |top| =>
      if top[i].taxonId in unrelated then top[i].(frequencyScore := Some(UnrelatedFrequency)) else top[i])
  }

  /** `s.slice(0, n)`. */
  function Take<T>(s: seq<T>, n: nat): (r: seq<T>)
    ensures |r| == if n < |s| then n else |s|
    ensures forall i :: 0 <= i < |r| ==> r[i] == s[i]
  {
    if n < |s| then s[..n] else s
  }

  /** Lines 287-288: the vision scores with `vision_score` set to the count. */
  function VisionOnly(scores: seq<ScoredTaxon>): (r: seq<ScoredTaxon>)
    ensures |r| == |scores|
  {
    seq(|scores|, i requires 0 <= i < |scores| => scores[i].(visionScore := Some(scores[i].count)))
  }

  /** What the source needs of its inputs: positive counts, and `scores` non-empty when a share exists. */
  ghost predicate BlendInputs(scores: seq<ScoredTaxon>, results: seq<NearbyResult>, commonAncestor: Option<int>) {
    && AllPositive(scores)
    && (forall i :: 0 <= i < |results| ==> results[i].count > 0)
    && (scores == [] ==> InAncestor(results, commonAncestor) == [])
  }

  /** `frequencyScores` (lines 250-258): the shares of the results under the common ancestor. */
  function FrequencyScores(results: seq<NearbyResult>, commonAncestor: Option<int>): map<int, real>
    requires forall i :: 0 <= i < |results| ==> results[i].count > 0
  {
    var anc := InAncestor(results, commonAncestor);
    NearbyPositive(anc);
    Shares(anc, SumNearby(anc) as real)
  }

  /** Lines 266-273: `topScores`, one entry per key of `taxonScores`, in ascending key order. */
  function TopScores(taxonScores: map<int, real>, vision: map<int, real>, frequency: map<int, real>, nScores: nat)
    : seq<ScoredTaxon>
    requires nScores > 0 || taxonScores == map[]
  {
    TopEntries(SortedKeys(taxonScores.Keys), taxonScores, vision, frequency, nScores)
  }

  /** `topScores` for the inputs, before the sort (lines 250-273). */
  function Unsorted(scores: seq<ScoredTaxon>, results: seq<NearbyResult>, commonAncestor: Option<int>): seq<ScoredTaxon>
    requires BlendInputs(scores, results, commonAncestor)
  {
    var anc := InAncestor(results, commonAncestor);
    NearbyPositive(anc);
    var frequency := FrequencyScores(results, commonAncestor);
    CombineKeys(frequency, scores, |anc|);
    SharesKeys(anc, SumNearby(anc) as real);
    TopScores(Combine(frequency, scores, |anc|), VisionMap(scores), frequency, |scores|)
  }

  /** Lines 274-275: sorted by count, highest first, then normalised. */
  function Ranked(top: seq<ScoredTaxon>): seq<ScoredTaxon>
    requires AllPositive(top)
  {
    var sorted := SortByDesc(top, CountKey);
    PermutationPositive(top, sorted);
    NormalizedPositive(sorted);
    Normalized(sorted)
  }

  /** The response list of `scoreImageAfterFrequencies`. */
  function Blend(scores: seq<ScoredTaxon>, nearby: Option<seq<NearbyResult>>, commonAncestor: Option<int>, perPage: nat)
    : seq<ScoredTaxon>
    requires nearby.Some? ==> BlendInputs(scores, nearby.value, commonAncestor)
  {
    if nearby.Some? && nearby.value != [] then
      UnsortedPositive(scores, nearby.value, commonAncestor);
      Take(Marked(Ranked(Unsorted(scores, nearby.value, commonAncestor)), Unrelated(nearby.value, commonAncestor)), perPage)
    else Take(VisionOnly(scores), perPage)
  }

  // ---- Well-definedness of the blend ----

  lemma {:induction false} NearbyPositive(rs: seq<NearbyResult>)
    requires forall i :: 0 <= i < |rs| ==> rs[i].count > 0
    ensures rs != [] ==> SumNearby(rs) > 0
    decreases |rs|
  {
    if rs != [] {
      NearbyPositive(rs[..|rs| - 1]);
    }
  }

  /** The taxon ids of a list of nearby results. */
  function NearbyIds(rs: seq<NearbyResult>): set<int>
    decreases |rs|
  {
    if rs == [] then {} else NearbyIds(rs[..|rs| - 1]) + {rs[|rs| - 1].taxon.id}
  }

  lemma {:induction false} SharesKeys(rs: seq<NearbyResult>, total: real)
    requires rs == [] || total != 0.0
    ensures Shares(rs, total).Keys == NearbyIds(rs)
    decreases |rs|
  {
    if rs != [] {
      SharesKeys(rs[..|rs| - 1], total);
    }
  }

  lemma {:induction false} SharesPositive(rs: seq<NearbyResult>, total: real)
    requires total > 0.0 && forall i :: 0 <= i < |rs| ==> rs[i].count > 0
    ensures forall k :: k in Shares(rs, total) ==> Shares(rs, total)[k] > 0.0
    decreases |rs|
  {
    if rs != [] {
      var init := rs[..|rs| - 1];
      SharesPositive(init, total);
    }
  }

  lemma {:induction false} CombineKeys(shares: map<int, real>, scores: seq<ScoredTaxon>, n: nat)
    ensures Combine(shares, scores, n).Keys == shares.Keys + VisionMap(scores).Keys
    decreases |scores|
  {
    if scores != [] {
      CombineKeys(shares, scores[..|scores| - 1], n);
    }
  }

  lemma PriorPositive(n: nat)
    ensures Prior(n) > 0.0
  {
  }

  lemma {:induction false} CombinePositive(shares: map<int, real>, scores: seq<ScoredTaxon>, n: nat)
    requires forall k :: k in shares ==> shares[k] > 0.0
    requires AllPositive(scores)
    ensures forall k :: k in Combine(shares, scores, n) ==> Combine(shares, scores, n)[k] > 0.0
    decreases |scores|
  {
    if scores != [] {
      var init := scores[..|scores| - 1];
      CombinePositive(shares, init, n);
      PriorPositive(n);
      var m := Combine(shares, init, n);
      var s := scores[|scores| - 1];
      var fraction := s.count / 100.0;
      assert fraction > 0.0;
      if s.taxonId in m && m[s.taxonId] != 0.0 {
        ScaleMonotone(m[s.taxonId], m[s.taxonId], fraction);
      } else {
        ScaleMonotone(fraction, fraction, Prior(n));
      }
    }
  }

  lemma TopEntriesPositive(keys: seq<int>, taxonScores: map<int, real>, vision: map<int, real>, frequency: map<int, real>, nScores: nat)
    requires forall i :: 0 <= i < |keys| ==> keys[i] in taxonScores
    requires nScores > 0 || keys == []
    requires forall k :: k in taxonScores ==> taxonScores[k] > 0.0
    ensures AllPositive(TopEntries(keys, taxonScores, vision, frequency, nScores))
  {
    var top := TopEntries(keys, taxonScores, vision, frequency, nScores);
    forall i | 0 <= i < |top| ensures top[i].count > 0.0 {
      var k := keys[i];
      assert taxonScores[k] > 0.0;
      if !(k in vision && vision[k] != 0.0) {
        ScalePositive(taxonScores[k], nScores);
      }
    }
  }

  lemma ScalePositive(v: real, n: nat)
    requires v > 0.0 && n > 0
    ensures PerScore(v, n) > 0.0
  {
  }

  /** Positive shares and positive vision counts give positive `topScores` counts. */
  lemma TopScoresPositive(frequency: map<int, real>, scores: seq<ScoredTaxon>, n: nat)
    requires forall k :: k in frequency ==> frequency[k] > 0.0
    requires AllPositive(scores)
    requires |scores| > 0 || Combine(frequency, scores, n) == map[]
    ensures AllPositive(TopScores(Combine(frequency, scores, n), VisionMap(scores), frequency, |scores|))
  {
    var taxonScores := Combine(frequency, scores, n);
    CombinePositive(frequency, scores, n);
    TopEntriesPositive(SortedKeys(taxonScores.Keys), taxonScores, VisionMap(scores), frequency, |scores|);
  }

  lemma UnsortedPositive(scores: seq<ScoredTaxon>, results: seq<NearbyResult>, commonAncestor: Option<int>)
    requires BlendInputs(scores, results, commonAncestor)
    ensures AllPositive(Unsorted(scores, results, commonAncestor))
  {
    var anc := InAncestor(results, commonAncestor);
    NearbyPositive(anc);
    var frequency := FrequencyScores(results, commonAncestor);
    if anc != [] {
      SharesPositive(anc, SumNearby(anc) as real);
    }
    CombineKeys(frequency, scores, |anc|);
    SharesKeys(anc, SumNearby(anc) as real);
    TopScoresPositive(frequency, scores, |anc|);
  }

  lemma PermutationPositive(a: seq<ScoredTaxon>, b: seq<ScoredTaxon>)
    requires AllPositive(a) && multiset(a) == multiset(b)
    ensures AllPositive(b)
  {
    forall i | 0 <= i < |b| ensures b[i].count > 0.0 {
      assert b[i] in multiset(a);
      var j :| 0 <= j < |a| && a[j] == b[i];
    }
  }

  // ---- What the blend computes ----

  /** Some entry of `s` is for taxon `k`. */
  ghost predicate Lists(s: seq<ScoredTaxon>, k: int) {
    exists i :: 0 <= i < |s| && s[i].taxonId == k
  }

  /** Nearby results name each taxon once, as a species count does. */
  ghost predicate DistinctNearby(rs: seq<NearbyResult>) {
    forall i, j :: 0 <= i < j < |rs| ==> rs[i].taxon.id != rs[j].taxon.id
  }

  /** The vision scores name each taxon once, as the classifier's map of scores does. */
  ghost predicate DistinctScores(scores: seq<ScoredTaxon>) {
    forall i, j :: 0 <= i < j < |scores| ==> scores[i].taxonId != scores[j].taxonId
  }

  /** A nearby result is kept exactly when the common ancestor is among its ancestors. */
  lemma InAncestorMembers(results: seq<NearbyResult>, commonAncestor: Option<int>)
    ensures forall r :: r in InAncestor(results, commonAncestor) <==>
      r in results && commonAncestor.Some? && commonAncestor.value in r.taxon.ancestorIds
  {
    FilterMembers(results, AncestorTest(commonAncestor));
  }

  /** A taxon is unrelated exactly when some nearby result for it lies outside the common ancestor. */
  lemma {:induction false} UnrelatedMembers(results: seq<NearbyResult>, commonAncestor: Option<int>)
    ensures forall k :: k in Unrelated(results, commonAncestor) <==>
      exists i :: 0 <= i < |results| && results[i].taxon.id == k
        && !(commonAncestor.Some? && commonAncestor.value in results[i].taxon.ancestorIds)
    decreases |results|
  {
    if results != [] {
      var init := results[..|results| - 1];
      UnrelatedMembers(init, commonAncestor);
      forall k ensures k in Unrelated(results, commonAncestor) <==>
        exists i :: 0 <= i < |results| && results[i].taxon.id == k
          && !(commonAncestor.Some? && commonAncestor.value in results[i].taxon.ancestorIds)
      {
        if k in Unrelated(results, commonAncestor) && k in Unrelated(init, commonAncestor) {
          var i :| 0 <= i < |init| && init[i].taxon.id == k
            && !(commonAncestor.Some? && commonAncestor.value in init[i].taxon.ancestorIds);
          assert results[i] == init[i];
        }
        if (exists i :: 0 <= i < |results| && results[i].taxon.id == k
              && !(commonAncestor.Some? && commonAncestor.value in results[i].taxon.ancestorIds))
        {
          var i :| 0 <= i < |results| && results[i].taxon.id == k
            && !(commonAncestor.Some? && commonAncestor.value in results[i].taxon.ancestorIds);
          if i < |init| {
            assert init[i] == results[i];
          }
        }
      }
    }
  }

  lemma {:induction false} NearbyIdsMembers(rs: seq<NearbyResult>)
    ensures forall k :: k in NearbyIds(rs) <==> exists i :: 0 <= i < |rs| && rs[i].taxon.id == k
    decreases |rs|
  {
    if rs != [] {
      var init := rs[..|rs| - 1];
      NearbyIdsMembers(init);
      forall k ensures k in NearbyIds(rs) <==> exists i :: 0 <= i < |rs| && rs[i].taxon.id == k {
        if k in NearbyIds(init) {
          var i :| 0 <= i < |init| && init[i].taxon.id == k;
          assert rs[i] == init[i];
        }
        if exists i :: 0 <= i < |rs| && rs[i].taxon.id == k {
          var i :| 0 <= i < |rs| && rs[i].taxon.id == k;
          if i < |init| {
            assert init[i] == rs[i];
          }
        }
      }
    }
  }

  /** Each kept result's frequency score is its count over the summed count. */
  lemma {:induction false} SharesEntry(rs: seq<NearbyResult>, total: real, i: nat)
    requires total != 0.0 && DistinctNearby(rs) && i < |rs|
    ensures rs[i].taxon.id in Shares(rs, total)
    ensures Shares(rs, total)[rs[i].taxon.id] == (rs[i].count as real) / total
    decreases |rs|
  {
    var init := rs[..|rs| - 1];
    if i < |init| {
      assert init[i] == rs[i];
      SharesEntry(init, total, i);
    }
  }

  /** The shares read off in the order of `rs`. */
  function SumShares(rs: seq<NearbyResult>, shares: map<int, real>): real
    decreases |rs|
  {
    if rs == [] then 0.0 else SumShares(rs[..|rs| - 1], shares) + ValueOr(shares, rs[|rs| - 1].taxon.id)
  }

  lemma {:induction false} SumSharesFrame(rs: seq<NearbyResult>, shares: map<int, real>, k: int, v: real)
    requires k !in NearbyIds(rs)
    ensures SumShares(rs, shares[k := v]) == SumShares(rs, shares)
    decreases |rs|
  {
    if rs != [] {
      SumSharesFrame(rs[..|rs| - 1], shares, k, v);
    }
  }

  lemma DivAdd(a: real, b: real, t: real)
    requires t != 0.0
    ensures a / t + b / t == (a + b) / t
  {
  }

  lemma {:induction false} SumSharesSum(rs: seq<NearbyResult>, total: real)
    requires total != 0.0 && DistinctNearby(rs)
    ensures SumShares(rs, Shares(rs, total)) == (SumNearby(rs) as real) / total
    decreases |rs|
  {
    if rs != [] {
      var init := rs[..|rs| - 1];
      var last := rs[|rs| - 1];
      assert DistinctNearby(init) by {
        forall i, j | 0 <= i < j < |init| ensures init[i].taxon.id != init[j].taxon.id {
          assert init[i] == rs[i] && init[j] == rs[j];
        }
      }
      SumSharesSum(init, total);
      NearbyIdsMembers(init);
      assert last.taxon.id !in NearbyIds(init);
      SumSharesFrame(init, Shares(init, total), last.taxon.id, (last.count as real) / total);
      DivAdd(SumNearby(init) as real, last.count as real, total);
    }
  }

  /** The frequency scores of the results under the common ancestor sum to 1. */
  lemma SharesSumToOne(rs: seq<NearbyResult>)
    requires rs != [] && DistinctNearby(rs)
    requires forall i :: 0 <= i < |rs| ==> rs[i].count > 0
    ensures SumNearby(rs) > 0
    ensures SumShares(rs, Shares(rs, SumNearby(rs) as real)) == 1.0
  {
    NearbyPositive(rs);
    var total := SumNearby(rs) as real;
    SumSharesSum(rs, total);
    assert total / total == 1.0;
  }

  lemma {:induction false} VisionKeys(scores: seq<ScoredTaxon>)
    ensures forall k :: k in VisionMap(scores) <==> Lists(scores, k)
    decreases |scores|
  {
    if scores != [] {
      var init := scores[..|scores| - 1];
      VisionKeys(init);
      forall k ensures k in VisionMap(scores) <==> Lists(scores, k) {
        if k in VisionMap(init) {
          var i :| 0 <= i < |init| && init[i].taxonId == k;
          assert scores[i] == init[i];
        }
        if exists i :: 0 <= i < |scores| && scores[i].taxonId == k {
          var i :| 0 <= i < |scores| && scores[i].taxonId == k;
          if i < |init| {
            assert init[i] == scores[i];
          }
        }
      }
    }
  }

  /** Each vision taxon's `visionScores` entry is its count as a fraction. */
  lemma {:induction false} VisionEntry(scores: seq<ScoredTaxon>, i: nat)
    requires DistinctScores(scores) && i < |scores|
    ensures scores[i].taxonId in VisionMap(scores)
    ensures VisionMap(scores)[scores[i].taxonId] == scores[i].count / 100.0
    decreases |scores|
  {
    var init := scores[..|scores| - 1];
    if i < |init| {
      assert init[i] == scores[i];
      assert DistinctScores(init) by {
        forall a, b | 0 <= a < b < |init| ensures init[a].taxonId != init[b].taxonId {
          assert init[a] == scores[a] && init[b] == scores[b];
        }
      }
      VisionEntry(init, i);
    }
  }

  lemma DistinctInit(scores: seq<ScoredTaxon>)
    requires DistinctScores(scores) && scores != []
    ensures DistinctScores(scores[..|scores| - 1])
  {
    var init := scores[..|scores| - 1];
    forall a, b | 0 <= a < b < |init| ensures init[a].taxonId != init[b].taxonId {
      assert init[a] == scores[a] && init[b] == scores[b];
    }
  }

  /** A nearby taxon the classifier did not suggest keeps its frequency share as its combined score. */
  lemma {:induction false} CombineNearbyEntry(shares: map<int, real>, scores: seq<ScoredTaxon>, n: nat, k: int)
    requires k in shares && k !in VisionMap(scores)
    ensures k in Combine(shares, scores, n) && Combine(shares, scores, n)[k] == shares[k]
    decreases |scores|
  {
    if scores != [] {
      CombineNearbyEntry(shares, scores[..|scores| - 1], n, k);
    }
  }

  /**
   * A vision taxon's combined score: its fraction times its truthy frequency
   * share, or else times the prior.
   */
  lemma {:induction false} CombineVisionEntry(shares: map<int, real>, scores: seq<ScoredTaxon>, n: nat, i: nat)
    requires DistinctScores(scores) && i < |scores|
    ensures var id := scores[i].taxonId;
      var fraction := scores[i].count / 100.0;
      && id in Combine(shares, scores, n)
      && Combine(shares, scores, n)[id] ==
         if id in shares && shares[id] != 0.0 then Scaled(shares[id], fraction) else Scaled(fraction, Prior(n))
    decreases |scores|
  {
    var init := scores[..|scores| - 1];
    var s := scores[|scores| - 1];
    DistinctInit(scores);
    if i < |init| {
      assert init[i] == scores[i];
      CombineVisionEntry(shares, init, n, i);
    } else {
      VisionKeys(init);
      assert s.taxonId !in VisionMap(init);
      CombineKeys(shares, init, n);
      if s.taxonId in shares {
        CombineNearbyEntry(shares, init, n, s.taxonId);
      }
    }
  }

  /**
   * `topScores` holds one entry per key of `taxonScores`, in ascending id
   * order (the order in which a JavaScript object enumerates integer keys).
   */
  lemma TopScoresKeys(taxonScores: map<int, real>, vision: map<int, real>, frequency: map<int, real>, nScores: nat)
    requires nScores > 0 || taxonScores == map[]
    ensures var u := TopScores(taxonScores, vision, frequency, nScores);
      && |u| == |taxonScores.Keys|
      && (forall k :: Lists(u, k) <==> k in taxonScores)
      && (forall i, j :: 0 <= i < j < |u| ==> u[i].taxonId < u[j].taxonId)
  {
    var keys := SortedKeys(taxonScores.Keys);
    var u := TopScores(taxonScores, vision, frequency, nScores);
    forall k ensures Lists(u, k) <==> k in taxonScores {
      if k in taxonScores {
        assert k in keys;
        var i :| 0 <= i < |keys| && keys[i] == k;
        assert u[i].taxonId == k;
      }
    }
  }

  /** The taxa of `topScores` are the taxa with a frequency share together with the vision suggestions. */
  lemma TopScoresTaxa(frequency: map<int, real>, scores: seq<ScoredTaxon>, n: nat)
    requires |scores| > 0 || Combine(frequency, scores, n) == map[]
    ensures var u := TopScores(Combine(frequency, scores, n), VisionMap(scores), frequency, |scores|);
      forall k :: Lists(u, k) <==> k in frequency || Lists(scores, k)
  {
    CombineKeys(frequency, scores, n);
    VisionKeys(scores);
    TopScoresKeys(Combine(frequency, scores, n), VisionMap(scores), frequency, |scores|);
  }

  /**
   * The taxa of `topScores` are the nearby results under the common ancestor
   * together with the vision suggestions.
   */
  lemma UnsortedKeys(scores: seq<ScoredTaxon>, results: seq<NearbyResult>, commonAncestor: Option<int>)
    requires BlendInputs(scores, results, commonAncestor)
    ensures var u := Unsorted(scores, results, commonAncestor);
      forall k :: Lists(u, k) <==> k in NearbyIds(InAncestor(results, commonAncestor)) || Lists(scores, k)
  {
    var anc := InAncestor(results, commonAncestor);
    NearbyPositive(anc);
    var frequency := FrequencyScores(results, commonAncestor);
    CombineKeys(frequency, scores, |anc|);
    SharesKeys(anc, SumNearby(anc) as real);
    TopScoresTaxa(frequency, scores, |anc|);
  }

  /** Entry `i` of `topScores` is the entry `_.map` builds for its own key. */
  lemma TopScoresAt(taxonScores: map<int, real>, vision: map<int, real>, frequency: map<int, real>, nScores: nat, i: nat)
    requires nScores > 0 || taxonScores == map[]
    requires i < |TopScores(taxonScores, vision, frequency, nScores)|
    ensures var e := TopScores(taxonScores, vision, frequency, nScores)[i];
      && nScores > 0
      && e.taxonId in taxonScores
      && e == Entry(e.taxonId, taxonScores, vision, frequency, nScores)
  {
  }

  /** Every `topScores` entry keeps the taxon's frequency share, as a percentage, in `frequency_score`. */
  lemma TopScoresFrequency(taxonScores: map<int, real>, vision: map<int, real>, frequency: map<int, real>, nScores: nat, i: nat)
    requires nScores > 0 || taxonScores == map[]
    requires i < |TopScores(taxonScores, vision, frequency, nScores)|
    ensures var e := TopScores(taxonScores, vision, frequency, nScores)[i];
      e.frequencyScore == Some(ValueOr(frequency, e.taxonId) * 100.0)
  {
    TopScoresAt(taxonScores, vision, frequency, nScores, i);
  }

  /**
   * A vision taxon's `topScores` entry: its count is its fraction times its
   * frequency share when it has a truthy one, and its fraction times the
   * prior otherwise; its `vision_score` is its count.
   */
  lemma TopScoresVision(frequency: map<int, real>, scores: seq<ScoredTaxon>, n: nat, i: nat, j: nat)
    requires AllPositive(scores) && DistinctScores(scores) && j < |scores|
    requires i < |TopScores(Combine(frequency, scores, n), VisionMap(scores), frequency, |scores|)|
    requires scores[j].taxonId == TopScores(Combine(frequency, scores, n), VisionMap(scores), frequency, |scores|)[i].taxonId
    ensures var e := TopScores(Combine(frequency, scores, n), VisionMap(scores), frequency, |scores|)[i];
      var id := scores[j].taxonId;
      var fraction := scores[j].count / 100.0;
      && e.visionScore == Some(scores[j].count)
      && e.count == if id in frequency && frequency[id] != 0.0 then Scaled(frequency[id], fraction) else Scaled(fraction, Prior(n))
  {
    var taxonScores := Combine(frequency, scores, n);
    TopScoresAt(taxonScores, VisionMap(scores), frequency, |scores|, i);
    VisionEntry(scores, j);
    CombineVisionEntry(frequency, scores, n, j);
    EntryOfVisionTaxon(scores[j].taxonId, taxonScores, VisionMap(scores), frequency, |scores|, scores[j].count);
  }

  /**
   * A nearby taxon the classifier did not suggest: its `topScores` count is
   * its frequency share divided by the number of vision scores, and its
   * `vision_score` is 0.
   */
  lemma TopScoresNearby(frequency: map<int, real>, scores: seq<ScoredTaxon>, n: nat, top: seq<ScoredTaxon>, i: nat)
    requires scores != []
    requires top == TopScores(Combine(frequency, scores, n), VisionMap(scores), frequency, |scores|)
    requires i < |top|
    requires forall j :: 0 <= j < |scores| ==> scores[j].taxonId != top[i].taxonId
    ensures top[i].taxonId in frequency
    ensures top[i].visionScore == Some(0.0)
    ensures top[i].count == PerScore(frequency[top[i].taxonId], |scores|)
  {
    var taxonScores := Combine(frequency, scores, n);
    TopScoresAt(taxonScores, VisionMap(scores), frequency, |scores|, i);
    var k := top[i].taxonId;
    NotSuggestedCombined(frequency, scores, n, k);
    EntryOfNearbyTaxon(k, taxonScores, VisionMap(scores), frequency, |scores|);
  }

  /** A combined taxon that is no vision suggestion came from the frequency shares unchanged. */
  lemma NotSuggestedCombined(frequency: map<int, real>, scores: seq<ScoredTaxon>, n: nat, k: int)
    requires k in Combine(frequency, scores, n)
    requires forall j :: 0 <= j < |scores| ==> scores[j].taxonId != k
    ensures k !in VisionMap(scores) && k in frequency
    ensures Combine(frequency, scores, n)[k] == frequency[k]
  {
    VisionKeys(scores);
    CombineKeys(frequency, scores, n);
    CombineNearbyEntry(frequency, scores, n, k);
  }

  lemma EntryOfVisionTaxon(k: int, taxonScores: map<int, real>, vision: map<int, real>, frequency: map<int, real>, nScores: nat, c: real)
    requires k in taxonScores && k in vision && vision[k] == c / 100.0 && c > 0.0
    ensures Entry(k, taxonScores, vision, frequency, nScores).count == taxonScores[k]
    ensures Entry(k, taxonScores, vision, frequency, nScores).visionScore == Some(c)
  {
  }

  lemma EntryOfNearbyTaxon(k: int, taxonScores: map<int, real>, vision: map<int, real>, frequency: map<int, real>, nScores: nat)
    requires k in taxonScores && k !in vision && nScores > 0
    ensures Entry(k, taxonScores, vision, frequency, nScores).count == PerScore(taxonScores[k], nScores)
    ensures Entry(k, taxonScores, vision, frequency, nScores).visionScore == Some(0.0)
  {
  }

  /**
   * `b` is `u` reordered with every count multiplied by `factor`: each entry
   * of `b` comes from an entry of `u`, and each entry of `u` reappears in `b`.
   */
  ghost predicate ScaledPermutation(b: seq<ScoredTaxon>, u: seq<ScoredTaxon>, factor: real) {
    && (forall i :: 0 <= i < |b| ==> exists j :: 0 <= j < |u| && b[i] == ScaledEntry(u[j], factor))
    && (forall j :: 0 <= j < |u| ==> exists i :: 0 <= i < |b| && b[i] == ScaledEntry(u[j], factor))
  }

  lemma NormalizedScaled(sorted: seq<ScoredTaxon>, factor: real)
    requires SumCounts(sorted) != 0.0 && factor == Percent(SumCounts(sorted))
    ensures |Normalized(sorted)| == |sorted|
    ensures forall i :: 0 <= i < |sorted| ==> Normalized(sorted)[i] == ScaledEntry(sorted[i], factor)
  {
    forall i | 0 <= i < |sorted| ensures Normalized(sorted)[i] == ScaledEntry(sorted[i], factor) {
      NormalizedEntry(sorted, i);
    }
  }

  lemma PermutedScaled(b: seq<ScoredTaxon>, u: seq<ScoredTaxon>, sorted: seq<ScoredTaxon>, factor: real)
    requires multiset(u) == multiset(sorted) && |b| == |sorted|
    requires forall i :: 0 <= i < |sorted| ==> b[i] == ScaledEntry(sorted[i], factor)
    ensures ScaledPermutation(b, u, factor)
  {
    forall i | 0 <= i < |b| ensures exists j :: 0 <= j < |u| && b[i] == ScaledEntry(u[j], factor) {
      assert sorted[i] in multiset(u);
      var j :| 0 <= j < |u| && u[j] == sorted[i];
      assert b[i] == ScaledEntry(u[j], factor);
    }
    forall j | 0 <= j < |u| ensures exists i :: 0 <= i < |b| && b[i] == ScaledEntry(u[j], factor) {
      assert u[j] in multiset(sorted);
      var i :| 0 <= i < |sorted| && sorted[i] == u[j];
      assert b[i] == ScaledEntry(u[j], factor);
    }
  }

  /** Normalising a reordering of `u` is `u` reordered with each count scaled by 100 / sum. */
  lemma NormalizePermuted(u: seq<ScoredTaxon>, sorted: seq<ScoredTaxon>)
    requires multiset(u) == multiset(sorted) && SumCounts(sorted) != 0.0
    ensures ScaledPermutation(Normalized(sorted), u, Percent(SumCounts(sorted)))
  {
    var factor := Percent(SumCounts(sorted));
    NormalizedScaled(sorted, factor);
    PermutedScaled(Normalized(sorted), u, sorted, factor);
  }

  /** The ranked list is sorted by count, positive, as long as the input, and sums to 100. */
  lemma RankedOrder(top: seq<ScoredTaxon>)
    requires AllPositive(top)
    ensures |Ranked(top)| == |top|
    ensures SortedDesc(Ranked(top), CountKey)
    ensures AllPositive(Ranked(top))
    ensures top != [] ==> SumCounts(Ranked(top)) == 100.0
  {
    var sorted := SortByDesc(top, CountKey);
    PermutationPositive(top, sorted);
    NormalizedPositive(sorted);
    if sorted != [] {
      PositiveSum(sorted);
      NormalizedSorted(sorted);
      NormalizedSum(sorted);
    }
  }

  /**
   * The ranked list is the input reordered, with each count scaled by the one
   * factor 100 / sum: every entry occurs as often as in the rescaled input.
   */
  lemma RankedEntries(top: seq<ScoredTaxon>)
    requires AllPositive(top) && top != []
    ensures SumCounts(top) > 0.0
    ensures ScaledPermutation(Ranked(top), top, Percent(SumCounts(top)))
    ensures multiset(Ranked(top)) == multiset(Rescale(top, Percent(SumCounts(top))))
  {
    PositiveSum(top);
    var sorted := SortByDesc(top, CountKey);
    SumCountsPermutation(top, sorted);
    NormalizePermuted(top, sorted);
    NormalizedIsRescale(sorted);
    RescalePermutation(sorted, top, Percent(SumCounts(top)));
  }

  /** Marking changes only the frequency score of unrelated taxa; order and counts are kept. */
  lemma MarkedSpec(top: seq<ScoredTaxon>, unrelated: set<int>)
    ensures forall i :: 0 <= i < |top| ==> Marked(top, unrelated)[i].(frequencyScore := top[i].frequencyScore) == top[i]
    ensures forall i :: 0 <= i < |top| ==>
      (Marked(top, unrelated)[i].frequencyScore == Some(UnrelatedFrequency) <==>
       top[i].taxonId in unrelated || top[i].frequencyScore == Some(UnrelatedFrequency))
    ensures SumCounts(Marked(top, unrelated)) == SumCounts(top)
    ensures SortedDesc(top, CountKey) ==> SortedDesc(Marked(top, unrelated), CountKey)
  {
    SumCountsPointwise(Marked(top, unrelated), top);
  }

  /** A prefix of a list sorted by count is sorted, a prefix of positive counts is positive. */
  lemma TakePrefix(m: seq<ScoredTaxon>, perPage: nat)
    ensures SortedDesc(m, CountKey) ==> SortedDesc(Take(m, perPage), CountKey)
    ensures AllPositive(m) ==> AllPositive(Take(m, perPage))
    ensures perPage >= |m| ==> Take(m, perPage) == m
  {
  }

  /**
   * The nearby branch on any positive `topScores`: at most `per_page`
   * entries, sorted by count, positive, unrelated taxa marked, summing to 100
   * when nothing is cut off.
   */
  lemma RankedResponse(top: seq<ScoredTaxon>, unrelated: set<int>, perPage: nat)
    requires AllPositive(top)
    ensures var r := Take(Marked(Ranked(top), unrelated), perPage);
      && |r| == (if perPage < |top| then perPage else |top|)
      && SortedDesc(r, CountKey)
      && AllPositive(r)
      && (perPage >= |top| && r != [] ==> SumCounts(r) == 100.0)
      && (forall i :: 0 <= i < |r| && r[i].taxonId in unrelated ==> r[i].frequencyScore == Some(UnrelatedFrequency))
  {
    RankedOrder(top);
    MarkedSpec(Ranked(top), unrelated);
    var m := Marked(Ranked(top), unrelated);
    assert AllPositive(m) by {
      forall i | 0 <= i < |m| ensures m[i].count > 0.0 {
        assert m[i].(frequencyScore := Ranked(top)[i].frequencyScore) == Ranked(top)[i];
      }
    }
    TakePrefix(m, perPage);
  }

  /**
   * The response list. With nearby results: at most `per_page` entries,
   * sorted by count, positive, unrelated taxa marked, summing to 100 when
   * nothing is cut off. Without: the first `per_page` vision scores in their
   * order, each with `vision_score` set to its count.
   */
  lemma BlendSpec(scores: seq<ScoredTaxon>, nearby: Option<seq<NearbyResult>>, commonAncestor: Option<int>, perPage: nat)
    requires nearby.Some? ==> BlendInputs(scores, nearby.value, commonAncestor)
    ensures nearby.Some? && nearby.value != [] ==>
      var r := Blend(scores, nearby, commonAncestor, perPage);
      var n := |Unsorted(scores, nearby.value, commonAncestor)|;
      && |r| == (if perPage < n then perPage else n)
      && SortedDesc(r, CountKey)
      && AllPositive(r)
      && (perPage >= n && r != [] ==> SumCounts(r) == 100.0)
      && (forall i :: 0 <= i < |r| && r[i].taxonId in Unrelated(nearby.value, commonAncestor) ==>
            r[i].frequencyScore == Some(UnrelatedFrequency))
    ensures !(nearby.Some? && nearby.value != []) ==>
      var r := Blend(scores, nearby, commonAncestor, perPage);
      && |r| == (if perPage < |scores| then perPage else |scores|)
      && forall i :: 0 <= i < |r| ==> r[i] == scores[i].(visionScore := Some(scores[i].count))
  {
    if nearby.Some? && nearby.value != [] {
      UnsortedPositive(scores, nearby.value, commonAncestor);
      RankedResponse(Unsorted(scores, nearby.value, commonAncestor), Unrelated(nearby.value, commonAncestor), perPage);
    }
  }

  // ---- `scoreImageAfterFrequencies`, step by step ----

  /** Filtering one more result keeps the earlier ones and adds the new one when it passes. */
  lemma InAncestorSnoc(rs: seq<NearbyResult>, r: NearbyResult, commonAncestor: Option<int>)
    ensures Filter(rs + [r], AncestorTest(commonAncestor)) ==
      Filter(rs, AncestorTest(commonAncestor)) + (if AncestorTest(commonAncestor)(r) then [r] else [])
  {
    var p := AncestorTest(commonAncestor);
    FilterAppend(rs, [r], p);
    assert [r][1..] == [];
  }

  /** One more result adds its id to the unrelated ones exactly when it is not under the common ancestor. */
  lemma UnrelatedSnoc(rs: seq<NearbyResult>, r: NearbyResult, commonAncestor: Option<int>)
    ensures Unrelated(rs + [r], commonAncestor) ==
      Unrelated(rs, commonAncestor) + (if AncestorTest(commonAncestor)(r) then {} else {r.taxon.id})
  {
    assert (rs + [r])[..|rs|] == rs;
  }

  /** Lines 241-249: the results under the common ancestor, in order, and the ids of all the others. */
  method PartitionNearby(results: seq<NearbyResult>, commonAncestor: Option<int>)
    returns (anc: seq<NearbyResult>, unrelated: set<int>)
    ensures anc == InAncestor(results, commonAncestor)
    ensures unrelated == Unrelated(results, commonAncestor)
  {
    anc, unrelated := [], {};
    var i := 0;
    while i < |results|
      invariant 0 <= i <= |results|
      invariant anc == Filter(results[..i], AncestorTest(commonAncestor))
      invariant unrelated == Unrelated(results[..i], commonAncestor)
    {
      var r := results[i];
      assert results[..i + 1] == results[..i] + [r];
      InAncestorSnoc(results[..i], r, commonAncestor);
      UnrelatedSnoc(results[..i], r, commonAncestor);
      if commonAncestor.Some? && commonAncestor.value in r.taxon.ancestorIds {
        anc := anc + [r];
      } else {
        unrelated := unrelated + {r.taxon.id};
      }
      i := i + 1;
    }
    assert results[..i] == results;
  }

  /** Line 250: the nearby counts added up from 0. */
  method SumNearbyCounts(rs: seq<NearbyResult>) returns (sum: int)
    ensures sum == SumNearby(rs)
  {
    sum := 0;
    var i := 0;
    while i < |rs|
      invariant 0 <= i <= |rs|
      invariant sum == SumNearby(rs[..i])
    {
      assert rs[..i + 1][..i] == rs[..i];
      sum := sum + rs[i].count;
      i := i + 1;
    }
    assert rs[..i] == rs;
  }

  /** Lines 251-258: `taxonScores` and `frequencyScores` both start out as the shares. */
  method ShareScores(anc: seq<NearbyResult>, sumScores: real)
    returns (taxonScores: map<int, real>, frequencyScores: map<int, real>)
    requires anc == [] || sumScores != 0.0
    ensures taxonScores == Shares(anc, sumScores)
    ensures frequencyScores == Shares(anc, sumScores)
  {
    taxonScores, frequencyScores := map[], map[];
    var i := 0;
    while i < |anc|
      invariant 0 <= i <= |anc|
      invariant taxonScores == Shares(anc[..i], sumScores)
      invariant frequencyScores == taxonScores
    {
      var r := anc[i];
      assert anc[..i + 1][..i] == anc[..i];
      var score := (r.count as real) / sumScores;
      taxonScores := taxonScores[r.taxon.id := score];
      frequencyScores := frequencyScores[r.taxon.id := score];
      i := i + 1;
    }
    assert anc[..i] == anc;
  }

  /** Lines 259-265: records each vision fraction and folds it into `taxonScores`. */
  method CombineVision(shares: map<int, real>, scores: seq<ScoredTaxon>, n: nat)
    returns (visionScores: map<int, real>, taxonScores: map<int, real>)
    ensures visionScores == VisionMap(scores)
    ensures taxonScores == Combine(shares, scores, n)
  {
    visionScores, taxonScores := map[], shares;
    var i := 0;
    while i < |scores|
      invariant 0 <= i <= |scores|
      invariant visionScores == VisionMap(scores[..i])
      invariant taxonScores == Combine(shares, scores[..i], n)
    {
      var r := scores[i];
      assert scores[..i + 1][..i] == scores[..i];
      visionScores := visionScores[r.taxonId := r.count / 100.0];
      var score :=
        if r.taxonId in taxonScores && taxonScores[r.taxonId] != 0.0 then taxonScores[r.taxonId] * (r.count / 100.0)
        else (r.count / 100.0) * (1.0 / ((if n == 0 then 1 else n) as real * 100.0));
      assert score == if r.taxonId in taxonScores && taxonScores[r.taxonId] != 0.0
        then Scaled(taxonScores[r.taxonId], r.count / 100.0) else Scaled(r.count / 100.0, Prior(n));
      taxonScores := taxonScores[r.taxonId := score];
      i := i + 1;
    }
    assert scores[..i] == scores;
  }

  /** Lines 267-272: the entry for taxon `k`. */
  method TopEntry(k: int, taxonScores: map<int, real>, visionScores: map<int, real>, frequencyScores: map<int, real>, nScores: nat)
    returns (entry: ScoredTaxon)
    requires k in taxonScores
    requires nScores > 0 || (k in visionScores && visionScores[k] != 0.0)
    ensures entry == Entry(k, taxonScores, visionScores, frequencyScores, nScores)
  {
    var v := taxonScores[k];
    var count := if k in visionScores && visionScores[k] != 0.0 then v else v * (1.0 / (nScores as real));
    var frequency := if k in frequencyScores then frequencyScores[k] else 0.0;
    var vision := if k in visionScores then visionScores[k] else 0.0;
    entry := ScoredTaxon(k, count, Some(vision * 100.0), Some(frequency * 100.0));
  }

  /** Lines 266-273: one entry per key of `taxonScores`, in ascending key order. */
  method BuildTopScores(taxonScores: map<int, real>, visionScores: map<int, real>, frequencyScores: map<int, real>, nScores: nat)
    returns (top: seq<ScoredTaxon>)
    requires nScores > 0 || taxonScores == map[]
    ensures top == TopScores(taxonScores, visionScores, frequencyScores, nScores)
  {
    var keys := SortedKeys(taxonScores.Keys);
    top := [];
    var i := 0;
    while i < |keys|
      invariant 0 <= i <= |keys|
      invariant |top| == i
      invariant forall j :: 0 <= j < i ==> top[j] == Entry(keys[j], taxonScores, visionScores, frequencyScores, nScores)
    {
      assert keys[i] in taxonScores;
      var entry := TopEntry(keys[i], taxonScores, visionScores, frequencyScores, nScores);
      top := top + [entry];
      i := i + 1;
    }
  }

  /** Lines 276-282, in place: taxa outside the common ancestor get the tiny frequency score. */
  method MarkUnrelated(a: array<ScoredTaxon>, unrelated: set<int>)
    modifies a
    ensures a[..] == Marked(old(a[..]), unrelated)
  {
    var i := 0;
    while i < a.Length
      invariant 0 <= i <= a.Length
      invariant forall k :: 0 <= k < i ==>
        a[k] == if old(a[k]).taxonId in unrelated then old(a[k]).(frequencyScore := Some(UnrelatedFrequency)) else old(a[k])
      invariant forall k :: i <= k < a.Length ==> a[k] == old(a[k])
    {
      if a[i].taxonId in unrelated {
        a[i] := a[i].(frequencyScore := Some(UnrelatedFrequency));
      }
      i := i + 1;
    }
  }

  /** Line 288, in place: each score's `vision_score` becomes its count. */
  method SetVisionScores(a: array<ScoredTaxon>)
    modifies a
    ensures a[..] == VisionOnly(old(a[..]))
  {
    var i := 0;
    while i < a.Length
      invariant 0 <= i <= a.Length
      invariant forall k :: 0 <= k < i ==> a[k] == old(a[k]).(visionScore := Some(old(a[k]).count))
      invariant forall k :: i <= k < a.Length ==> a[k] == old(a[k])
    {
      a[i] := a[i].(visionScore := Some(a[i].count));
      i := i + 1;
    }
  }

  /** Lines 239-273: `topScores` before the sort, and the ids of the unrelated nearby taxa. */
  method NearbyTopScores(scores: seq<ScoredTaxon>, results: seq<NearbyResult>, commonAncestor: Option<int>)
    returns (unsorted: seq<ScoredTaxon>, unrelated: set<int>)
    requires BlendInputs(scores, results, commonAncestor)
    ensures unsorted == Unsorted(scores, results, commonAncestor)
    ensures unrelated == Unrelated(results, commonAncestor)
  {
    var anc;
    anc, unrelated := PartitionNearby(results, commonAncestor);
    var sumScores := SumNearbyCounts(anc);
    NearbyPositive(anc);
    var taxonScores, frequencyScores := ShareScores(anc, sumScores as real);
    var visionScores, combined := CombineVision(taxonScores, scores, |anc|);
    unsorted := BuildTopScores(combined, visionScores, frequencyScores, |scores|);
  }

  /** A fresh array holding `s`, standing for the JavaScript array the source builds. */
  method ToArray(s: seq<ScoredTaxon>) returns (a: array<ScoredTaxon>)
    ensures fresh(a) && a[..] == s
  {
    a := new ScoredTaxon[|s|](i requires 0 <= i < |s| => s[i]);
    assert forall i :: 0 <= i < |s| ==> a[i] == s[i];
  }

  /** Sorting positive counts leaves a list that `normalizeScores` can divide by its sum. */
  lemma SortedNormalizable(top: seq<ScoredTaxon>)
    requires AllPositive(top)
    ensures SortByDesc(top, CountKey) == [] || SumCounts(SortByDesc(top, CountKey)) != 0.0
  {
    PermutationPositive(top, SortByDesc(top, CountKey));
    NormalizedPositive(SortByDesc(top, CountKey));
  }

  /** Line 275: a copy of `sorted` normalised in place by `normalizeScores`. */
  method NormalizedCopy(sorted: seq<ScoredTaxon>) returns (a: array<ScoredTaxon>)
    requires sorted == [] || SumCounts(sorted) != 0.0
    ensures fresh(a) && a[..] == Normalized(sorted)
  {
    a := ToArray(sorted);
    assert a[..a.Length] == sorted;
    NormalizeScores(a, a.Length);
    assert a[..] == a[..a.Length];
  }

  /** Lines 274-285: sorted by count, highest first, normalised, marked, and cut to `per_page`. */
  method RankAndMark(unsorted: seq<ScoredTaxon>, unrelated: set<int>, perPage: nat) returns (top: seq<ScoredTaxon>)
    requires AllPositive(unsorted)
    ensures top == Take(Marked(Ranked(unsorted), unrelated), perPage)
  {
    var sorted := SortByDesc(unsorted, CountKey);
    SortedNormalizable(unsorted);
    var a := NormalizedCopy(sorted);
    MarkUnrelated(a, unrelated);
    top := Take(a[..], perPage);
  }

  /**
   * `scoreImageAfterFrequencies(req, scores, nearbyTaxa, commonAncestor)`:
   * the list it hands to `scoreImageResponse`. `nearby` is None when no
   * nearby frequencies were fetched.
   */
  method ScoreImageAfterFrequencies(scores: seq<ScoredTaxon>, nearby: Option<seq<NearbyResult>>, commonAncestor: Option<int>, perPage: nat)
    returns (top: seq<ScoredTaxon>)
    requires nearby.Some? ==> BlendInputs(scores, nearby.value, commonAncestor)
    ensures top == Blend(scores, nearby, commonAncestor, perPage)
  {
    if nearby.Some? && nearby.value != [] {
      var unsorted, unrelated := NearbyTopScores(scores, nearby.value, commonAncestor);
      UnsortedPositive(scores, nearby.value, commonAncestor);
      top := RankAndMark(unsorted, unrelated, perPage);
    } else {
      var top10 := Take(scores, perPage);
      var a := ToArray(top10);
      SetVisionScores(a);
      top := a[..];
      assert top == Take(VisionOnly(scores), perPage);
    }
  }
}
