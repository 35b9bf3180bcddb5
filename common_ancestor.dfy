/**
 * `commonAncestor` (lines 323-351): takes the first `ancestor_window` scores,
 * renormalises them in place, looks up their taxa, runs
 * `commonAncestorByScore` and keeps the result only when its rank level is at
 * or below the cutoff. The taxon lookup of `addTaxa` is an input map here.
 */
module CommonAncestor {
  import opened Optional
  import opened Scores
  import opened AncestorForest
  import opened Descent

  /** Number of image results checked for a common ancestor. */
  const DefaultAncestorWindow := 10
  /** Common ancestor score threshold. */
  const DefaultAncestorThreshold := 92.0
  /** The common ancestor can be no higher than superfamily. */
  const DefaultRankLevelCutoff := 33.0

  /**
   * The request-body fields `commonAncestor` reads. A number field that is
   * absent (or 0) is 0 here, which selects the default as `x || default` does.
   */
  datatype AncestorParams = AncestorParams(
    skipFrequencies: bool,
    ancestorWindow: int,
    ancestorThreshold: real,
    rankLevelCutoff: real)

  function OrDefault(x: real, default: real): real {
    if x == 0.0 then default else x
  }

  /** The length of `s.slice(0, end)` for a list of length `len`; a negative end counts from the back. */
  function SliceLength(len: nat, end: int): (n: nat)
    ensures n <= len
  {
    if end >= 0 then (if end < len then end else len)
    else if len + end > 0 then len + end else 0
  }

  /** The number of entries `topScores` shares with `scores`. */
  function Window(params: AncestorParams, len: nat): (n: nat)
    ensures n <= len
    ensures params.ancestorWindow == 0 ==> n == if len < DefaultAncestorWindow then len else DefaultAncestorWindow
    ensures params.ancestorWindow > 0 ==> n == if len < params.ancestorWindow then len else params.ancestorWindow
  {
    SliceLength(len, if params.ancestorWindow == 0 then DefaultAncestorWindow else params.ancestorWindow)
  }

  /**
   * `addTaxa` followed by lines 338-341: each score whose taxon the lookup
   * knows becomes a result with the taxon and `vision_score` = its count.
   */
  function AddTaxa(window: seq<ScoredTaxon>, details: map<int, Taxon>): (r: seq<VisionResult>)
    ensures |r| <= |window|
    ensures forall i :: 0 <= i < |r| ==> r[i].taxon in details.Values
    ensures forall i :: 0 <= i < |window| && window[i].taxonId in details ==>
      VisionResult(details[window[i].taxonId], window[i].count) in r
    decreases |window|
  {
    if window == [] then []
    else
      var s := window[0];
      var rest := AddTaxa(window[1..], details);
      if s.taxonId in details then [VisionResult(details[s.taxonId], s.count)] + rest else rest
  }

  /** The taxon records are read off one tree: every id sits at the same depth on every chain. */
  ghost predicate ConsistentDetails(details: map<int, Taxon>) {
    forall a, b :: a in details.Values && b in details.Values ==> ConsistentPair(a, b)
  }

  lemma AddTaxaConsistent(window: seq<ScoredTaxon>, details: map<int, Taxon>)
    requires ConsistentDetails(details)
    ensures ConsistentDepths(AddTaxa(window, details))
  {
    var results := AddTaxa(window, details);
    forall x, y | 0 <= x < |results| && 0 <= y < |results| ensures ConsistentPair(results[x].taxon, results[y].taxon) {
      assert results[x].taxon in details.Values && results[y].taxon in details.Values;
    }
  }

  /** Line 345: a found ancestor is kept only when its `rank_level` is at most the cutoff. */
  ghost function WithinCutoff(found: Option<AncestorScore>, cutoff: real): Option<AncestorScore> {
    if found.Some? && found.value.taxon.rankLevel.Some? && found.value.taxon.rankLevel.value <= cutoff then found
    else None
  }

  /** The window must not sum to zero, since `normalizeScores` divides by its sum. */
  ghost predicate NormalizableWindow(params: AncestorParams, scores: seq<ScoredTaxon>) {
    var w := Window(params, |scores|);
    w == 0 || SumCounts(scores[..w]) != 0.0
  }

  /** The common ancestor `commonAncestor` reports for the scores as they were on entry. */
  ghost function CommonAncestorFor(params: AncestorParams, scores: seq<ScoredTaxon>, details: map<int, Taxon>): Option<AncestorScore>
    requires NormalizableWindow(params, scores) && ConsistentDetails(details)
  {
    if params.skipFrequencies then None
    else
      var window := Normalized(scores[..Window(params, |scores|)]);
      var results := AddTaxa(window, details);
      AddTaxaConsistent(window, details);
      WithinCutoff(
        CommonAncestorOf(results, OrDefault(params.ancestorThreshold, DefaultAncestorThreshold)),
        OrDefault(params.rankLevelCutoff, DefaultRankLevelCutoff))
  }

  /**
   * The reported ancestor obeys the cutoff and the threshold (92 and 33 by
   * default), and its score is the summed vision score of the window results
   * whose chain contains it.
   */
  lemma CommonAncestorForSpec(params: AncestorParams, scores: seq<ScoredTaxon>, details: map<int, Taxon>)
    requires NormalizableWindow(params, scores) && ConsistentDetails(details)
    ensures var r := CommonAncestorFor(params, scores, details);
      params.skipFrequencies ==> r.None?
    ensures var r := CommonAncestorFor(params, scores, details);
      r.Some? ==>
        && r.value.taxon.rankLevel.Some?
        && r.value.taxon.rankLevel.value <= OrDefault(params.rankLevelCutoff, DefaultRankLevelCutoff)
        && r.value.score >= OrDefault(params.ancestorThreshold, DefaultAncestorThreshold)
        && r.value.score == ContainingScore(AddTaxa(Normalized(scores[..Window(params, |scores|)]), details), r.value.taxon.id)
  {
    if !params.skipFrequencies {
      var window := Normalized(scores[..Window(params, |scores|)]);
      AddTaxaConsistent(window, details);
      CommonAncestorOfSpec(AddTaxa(window, details), OrDefault(params.ancestorThreshold, DefaultAncestorThreshold));
    }
  }

  /**
   * `commonAncestor(req, scores)`. The window of `scores[0..w]` is renormalised
   * IN PLACE, since `slice` copies the list but not its entries: the caller's
   * later reads of `scores` see the rescaled counts.
   */
  method ComputeCommonAncestor(params: AncestorParams, scores: array<ScoredTaxon>, details: map<int, Taxon>)
    returns (r: Option<AncestorScore>)
    requires NormalizableWindow(params, scores[..]) && ConsistentDetails(details)
    modifies scores
    ensures r == CommonAncestorFor(params, old(scores[..]), details)
    ensures params.skipFrequencies ==> scores[..] == old(scores[..])
    ensures !params.skipFrequencies ==>
      var w := Window(params, scores.Length);
      scores[..w] == Normalized(old(scores[..w])) && scores[w..] == old(scores[w..])
  {
    if params.skipFrequencies {
      return None;
    }
    var w := Window(params, scores.Length);
    assert scores[..][..w] == scores[..w];
    NormalizeScores(scores, w);
    var topScores := scores[..w];
    var results := AddTaxa(topScores, details);
    AddTaxaConsistent(topScores, details);
    var threshold := if params.ancestorThreshold == 0.0 then DefaultAncestorThreshold else params.ancestorThreshold;
    var commonAncestor := CommonAncestorByScore(results, threshold);
    var cutoff := if params.rankLevelCutoff == 0.0 then DefaultRankLevelCutoff else params.rankLevelCutoff;
    if commonAncestor.Some? && commonAncestor.value.taxon.rankLevel.Some?
       && commonAncestor.value.taxon.rankLevel.value <= cutoff {
      return commonAncestor;
    }
    return None;
  }
}
