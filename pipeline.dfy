/**
 * `scoreImageUpload` (lines 211-236) after the classifier has answered: the
 * candidate list is prepared and normalised, `commonAncestor` rescales its
 * window in place, and `scoreImageAfterFrequencies` blends the list it finds
 * there with the nearby frequencies. The classifier scores, the descendant
 * table, the taxon lookup and the fetched frequencies are inputs.
 */
module Pipeline {
  import opened Optional
  import opened SeqUtil
  import opened Sorting
  import opened Scores
  import opened Candidates
  import opened AncestorForest
  import opened Descent
  import opened CommonAncestor
  import opened FrequencyBlend

  /** The fetched frequencies, if any, count positive numbers of nearby observations. */
  ghost predicate PositiveNearby(nearby: Option<seq<NearbyResult>>) {
    nearby.Some? ==> forall i :: 0 <= i < |nearby.value| ==> nearby.value[i].count > 0
  }

  /** `scores` as line 259 reads it: the window of `commonAncestor` rescaled to sum to 100. */
  ghost function AfterWindow(params: AncestorParams, scores: seq<ScoredTaxon>): seq<ScoredTaxon>
    requires NormalizableWindow(params, scores)
  {
    if params.skipFrequencies then scores
    else
      var w := Window(params, |scores|);
      Normalized(scores[..w]) + scores[w..]
  }

  function AncestorId(ca: Option<AncestorScore>): Option<int> {
    if ca.Some? then Some(ca.value.taxon.id) else None
  }

  lemma WindowNormalizable(params: AncestorParams, scores: seq<ScoredTaxon>)
    requires AllPositive(scores)
    ensures NormalizableWindow(params, scores)
  {
    var w := Window(params, |scores|);
    if w > 0 {
      PositiveSum(scores[..w]);
    }
  }

  /** With no results there is no root, so no common ancestor. */
  lemma NoResultsNoAncestor(threshold: real)
    ensures CommonAncestorOf([], threshold).None?
  {
    CommonAncestorOfSpec([], threshold);
    assert Descent.Candidates(None, Build([])) == [];
  }

  lemma AfterWindowPositive(params: AncestorParams, scores: seq<ScoredTaxon>)
    requires AllPositive(scores)
    ensures NormalizableWindow(params, scores)
    ensures |AfterWindow(params, scores)| == |scores|
    ensures AllPositive(AfterWindow(params, scores))
  {
    WindowNormalizable(params, scores);
    var w := Window(params, |scores|);
    if !params.skipFrequencies {
      NormalizedPositive(scores[..w]);
      var r := AfterWindow(params, scores);
      forall i | 0 <= i < |r| ensures r[i].count > 0.0 {
        if i >= w {
          assert r[i] == scores[i];
        }
      }
    }
  }

  /** Without a common ancestor no nearby result counts as in-ancestor. */
  lemma NoAncestorNoShares(results: seq<NearbyResult>)
    ensures InAncestor(results, None) == []
  {
    FilterNone(results, AncestorTest(None));
  }

  /** An empty list has no window, so no taxa and no common ancestor. */
  lemma EmptyScoresNoAncestor(params: AncestorParams, details: map<int, Taxon>)
    requires ConsistentDetails(details)
    ensures NormalizableWindow(params, [])
    ensures CommonAncestorFor(params, [], details).None?
  {
    var empty: seq<ScoredTaxon> := [];
    assert Window(params, 0) == 0;
    assert empty[..0] == [];
    assert AddTaxa(Normalized(empty[..0]), details) == [];
    NoResultsNoAncestor(OrDefault(params.ancestorThreshold, DefaultAncestorThreshold));
  }

  /** What the blend needs holds for the list `commonAncestor` leaves behind. */
  lemma BlendReady(params: AncestorParams, scores: seq<ScoredTaxon>, details: map<int, Taxon>, nearby: Option<seq<NearbyResult>>)
    requires AllPositive(scores) && ConsistentDetails(details) && PositiveNearby(nearby)
    ensures NormalizableWindow(params, scores)
    ensures nearby.Some? ==> BlendInputs(AfterWindow(params, scores), nearby.value, AncestorId(CommonAncestorFor(params, scores, details)))
  {
    AfterWindowPositive(params, scores);
    if scores == [] && nearby.Some? {
      EmptyScoresNoAncestor(params, details);
      NoAncestorNoShares(nearby.value);
    }
  }

  /** The blended list for a positive candidate list: normalised, window rescaled, blended. */
  ghost function BlendCandidates(candidates: seq<ScoredTaxon>, params: AncestorParams, details: map<int, Taxon>,
                                 nearby: Option<seq<NearbyResult>>, perPage: nat): seq<ScoredTaxon>
    requires AllPositive(candidates) && ConsistentDetails(details) && PositiveNearby(nearby)
  {
    NormalizedPositive(candidates);
    var scores := Normalized(candidates);
    BlendReady(params, scores, details, nearby);
    Blend(AfterWindow(params, scores), nearby, AncestorId(CommonAncestorFor(params, scores, details)), perPage)
  }

  /** The list `scoreImageUpload` hands to `scoreImageResponse`; None for an unknown target taxon. */
  ghost function UploadResponse(imageScores: seq<ScoredTaxon>, target: Option<int>, descendants: map<int, set<int>>,
                                params: AncestorParams, details: map<int, Taxon>,
                                nearby: Option<seq<NearbyResult>>, perPage: nat): Option<seq<ScoredTaxon>>
    requires ConsistentDetails(details) && PositiveNearby(nearby)
  {
    var candidates := PrepareCandidates(imageScores, target, descendants);
    if candidates.None? then None
    else
      CandidatesPositive(imageScores, target, descendants);
      Some(BlendCandidates(candidates.value, params, details, nearby, perPage))
  }

  lemma PercentAtLeastOne(total: real)
    requires 0.0 < total <= 100.0
    ensures Percent(total) >= 1.0
  {
  }

  lemma ScaleGrows(c: real, f: real)
    requires c > 0.0 && f >= 1.0
    ensures Scaled(c, f) >= c
  {
    assert c * f - c == c * (f - 1.0);
  }

  lemma {:induction false} SumPrefixBounded(s: seq<ScoredTaxon>, w: nat)
    requires AllPositive(s) && w <= |s|
    ensures SumCounts(s[..w]) <= SumCounts(s)
  {
    assert s == s[..w] + s[w..];
    SumCountsAppend(s[..w], s[w..]);
    if w < |s| {
      PositiveSum(s[w..]);
    }
  }

  /**
   * Rescaling the window of a list that sums to 100 and is sorted by count
   * keeps it sorted: the window sums to at most 100, so its entries only grow.
   */
  lemma WindowRescaleSorted(s: seq<ScoredTaxon>, w: nat)
    requires AllPositive(s) && SortedDesc(s, CountKey) && SumCounts(s) == 100.0 && 0 < w <= |s|
    ensures SumCounts(s[..w]) > 0.0
    ensures SortedDesc(Normalized(s[..w]) + s[w..], CountKey)
  {
    var win := s[..w];
    PositiveSum(win);
    SumPrefixBounded(s, w);
    var f := Percent(SumCounts(win));
    PercentAtLeastOne(SumCounts(win));
    NormalizedSorted(win);
    var r := Normalized(win) + s[w..];
    forall i, j | 0 <= i < j < |r| ensures r[i].count >= r[j].count {
      if j < w {
        assert r[i] == Normalized(win)[i] && r[j] == Normalized(win)[j];
      } else if i >= w {
        assert r[i] == s[i] && r[j] == s[j];
      } else {
        NormalizedEntry(win, i);
        ScaleGrows(win[i].count, f);
        assert r[i] == Normalized(win)[i] && r[j] == s[j];
      }
    }
  }

  /** The list the blend reads is still sorted by count. */
  lemma AfterWindowSorted(params: AncestorParams, candidates: seq<ScoredTaxon>)
    requires AllPositive(candidates) && SortedDesc(candidates, CountKey)
    ensures candidates == [] || SumCounts(candidates) != 0.0
    ensures NormalizableWindow(params, Normalized(candidates))
    ensures SortedDesc(AfterWindow(params, Normalized(candidates)), CountKey)
  {
    NormalizedPositive(candidates);
    var scores := Normalized(candidates);
    WindowNormalizable(params, scores);
    if candidates != [] {
      PositiveSum(candidates);
      NormalizedSorted(candidates);
      NormalizedSum(candidates);
      var w := Window(params, |scores|);
      if !params.skipFrequencies && w > 0 {
        WindowRescaleSorted(scores, w);
      }
    }
  }

  /** Both branches of the blend keep a sorted positive list sorted and positive, and keep at most `per_page`. */
  lemma BlendSorted(scores: seq<ScoredTaxon>, nearby: Option<seq<NearbyResult>>, commonAncestor: Option<int>, perPage: nat)
    requires nearby.Some? ==> BlendInputs(scores, nearby.value, commonAncestor)
    requires AllPositive(scores) && SortedDesc(scores, CountKey)
    ensures var r := Blend(scores, nearby, commonAncestor, perPage);
      |r| <= perPage && SortedDesc(r, CountKey) && AllPositive(r)
  {
    BlendSpec(scores, nearby, commonAncestor, perPage);
    if !(nearby.Some? && nearby.value != []) {
      var r := Blend(scores, nearby, commonAncestor, perPage);
      forall i, j | 0 <= i < j < |r| ensures r[i].count >= r[j].count {
        assert r[i].count == scores[i].count && r[j].count == scores[j].count;
      }
      forall i | 0 <= i < |r| ensures r[i].count > 0.0 {
        assert r[i].count == scores[i].count;
      }
    }
  }

  /** A positive candidate list sorted by count blends into a positive sorted list of at most `per_page` entries. */
  lemma BlendCandidatesSorted(candidates: seq<ScoredTaxon>, params: AncestorParams, details: map<int, Taxon>,
                              nearby: Option<seq<NearbyResult>>, perPage: nat)
    requires AllPositive(candidates) && SortedDesc(candidates, CountKey)
    requires ConsistentDetails(details) && PositiveNearby(nearby)
    ensures var r := BlendCandidates(candidates, params, details, nearby, perPage);
      |r| <= perPage && SortedDesc(r, CountKey) && AllPositive(r)
  {
    NormalizedPositive(candidates);
    var scores := Normalized(candidates);
    BlendReady(params, scores, details, nearby);
    AfterWindowSorted(params, candidates);
    AfterWindowPositive(params, scores);
    BlendSorted(AfterWindow(params, scores), nearby, AncestorId(CommonAncestorFor(params, scores, details)), perPage);
  }

  /**
   * The response: None exactly for a target taxon the descendant table does
   * not know; otherwise a positive list sorted by count, of at most `per_page`
   * entries.
   */
  lemma UploadResponseSpec(imageScores: seq<ScoredTaxon>, target: Option<int>, descendants: map<int, set<int>>,
                           params: AncestorParams, details: map<int, Taxon>,
                           nearby: Option<seq<NearbyResult>>, perPage: nat)
    requires ConsistentDetails(details) && PositiveNearby(nearby)
    ensures var r := UploadResponse(imageScores, target, descendants, params, details, nearby, perPage);
      r.None? <==> target.Some? && target.value !in descendants
    ensures var r := UploadResponse(imageScores, target, descendants, params, details, nearby, perPage);
      r.Some? ==> |r.value| <= perPage && SortedDesc(r.value, CountKey) && AllPositive(r.value)
  {
    var candidates := PrepareCandidates(imageScores, target, descendants);
    if candidates.Some? {
      CandidatesPositive(imageScores, target, descendants);
      BlendCandidatesSorted(candidates.value, params, details, nearby, perPage);
    }
  }

  /**
   * Without nearby frequencies, the first `window` entries of the response
   * are the rescaled window and so sum to 100 on their own, whatever the
   * entries after them add.
   */
  lemma VisionOnlyWindowSum(candidates: seq<ScoredTaxon>, params: AncestorParams, details: map<int, Taxon>, perPage: nat)
    requires AllPositive(candidates) && ConsistentDetails(details) && !params.skipFrequencies
    ensures var r := BlendCandidates(candidates, params, details, None, perPage);
      var w := Window(params, |candidates|);
      0 < w <= perPage ==> SumCounts(r[..w]) == 100.0
  {
    NormalizedPositive(candidates);
    var scores := Normalized(candidates);
    BlendReady(params, scores, details, None);
    var w := Window(params, |scores|);
    if 0 < w <= perPage {
      var blended := AfterWindow(params, scores);
      var ca := AncestorId(CommonAncestorFor(params, scores, details));
      var r := Blend(blended, None, ca, perPage);
      assert r == BlendCandidates(candidates, params, details, None, perPage);
      var win := scores[..w];
      PositiveSum(win);
      NormalizedSum(win);
      BlendSpec(blended, None, ca, perPage);
      forall i | 0 <= i < w ensures r[..w][i].count == Normalized(win)[i].count {
        assert blended[i] == Normalized(win)[i];
      }
      SumCountsPointwise(r[..w], Normalized(win));
    }
  }

  /**
   * Lines 223-226: the candidates are normalised in place and `commonAncestor`
   * rescales the window of the same array; the list the blend reads and the
   * id of the common ancestor.
   */
  method AncestorPass(candidates: seq<ScoredTaxon>, params: AncestorParams, details: map<int, Taxon>)
    returns (scores: seq<ScoredTaxon>, ancestor: Option<int>)
    requires AllPositive(candidates) && ConsistentDetails(details)
    ensures candidates == [] || SumCounts(candidates) != 0.0
    ensures NormalizableWindow(params, Normalized(candidates))
    ensures scores == AfterWindow(params, Normalized(candidates))
    ensures ancestor == AncestorId(CommonAncestorFor(params, Normalized(candidates), details))
  {
    NormalizedPositive(candidates);
    ghost var normalized := Normalized(candidates);
    WindowNormalizable(params, normalized);
    var a := NormalizedCopy(candidates);
    var commonAncestor := ComputeCommonAncestor(params, a, details);
    scores := a[..];
    ancestor := AncestorId(commonAncestor);
    WindowAliased(params, normalized, scores);
  }

  /** What `commonAncestor` leaves in the array is the list with its window rescaled. */
  lemma WindowAliased(params: AncestorParams, before: seq<ScoredTaxon>, after: seq<ScoredTaxon>)
    requires NormalizableWindow(params, before) && |after| == |before|
    requires params.skipFrequencies ==> after == before
    requires !params.skipFrequencies ==>
      var w := Window(params, |before|);
      after[..w] == Normalized(before[..w]) && after[w..] == before[w..]
    ensures after == AfterWindow(params, before)
  {
    if !params.skipFrequencies {
      var w := Window(params, |before|);
      assert after == after[..w] + after[w..];
    }
  }

  /** Lines 223-235 for a positive candidate list. */
  method RankCandidates(candidates: seq<ScoredTaxon>, params: AncestorParams, details: map<int, Taxon>,
                        nearby: Option<seq<NearbyResult>>, perPage: nat)
    returns (top: seq<ScoredTaxon>)
    requires AllPositive(candidates) && ConsistentDetails(details) && PositiveNearby(nearby)
    ensures top == BlendCandidates(candidates, params, details, nearby, perPage)
  {
    var scores, ancestor := AncestorPass(candidates, params, details);
    NormalizedPositive(candidates);
    BlendReady(params, Normalized(candidates), details, nearby);
    top := ScoreImageAfterFrequencies(scores, nearby, ancestor, perPage);
  }

  /** `scoreImageUpload` from the classifier's scores on. */
  method ScoreImageUpload(imageScores: seq<ScoredTaxon>, target: Option<int>, descendants: map<int, set<int>>,
                          params: AncestorParams, details: map<int, Taxon>,
                          nearby: Option<seq<NearbyResult>>, perPage: nat)
    returns (response: Option<seq<ScoredTaxon>>)
    requires ConsistentDetails(details) && PositiveNearby(nearby)
    ensures response == UploadResponse(imageScores, target, descendants, params, details, nearby, perPage)
  {
    var candidates := PrepareCandidates(imageScores, target, descendants);
    if candidates.None? {
      return None;
    }
    CandidatesPositive(imageScores, target, descendants);
    var top := RankCandidates(candidates.value, params, details, nearby, perPage);
    return Some(top);
  }
}
