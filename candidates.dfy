/**
 * The candidate list of `scoreImageUpload` (lines 215-222): scores with a
 * positive count, restricted to the descendants of the requested taxon when
 * one is given, ordered by `_.sortBy(..., "count").reverse()`.
 */
module Candidates {
  import opened Optional
  import opened SeqUtil
  import opened Sorting
  import opened Scores

  function Positive(s: ScoredTaxon): bool {
    s.count > 0.0
  }

  /** `TFServingTaxonDescendants[target][s.taxon_id]`. */
  function InTarget(descendants: map<int, set<int>>, target: int): ScoredTaxon -> bool
    requires target in descendants
  {
    (s: ScoredTaxon) => s.taxonId in descendants[target]
  }

  /** The entries kept before sorting, in input order. */
  function Kept(imageScores: seq<ScoredTaxon>, target: Option<int>, descendants: map<int, set<int>>): seq<ScoredTaxon>
    requires target.Some? ==> target.value in descendants
  {
    var scores := Filter(imageScores, Positive);
    if target.Some? then Filter(scores, InTarget(descendants, target.value)) else scores
  }

  lemma KeptMembers(imageScores: seq<ScoredTaxon>, target: Option<int>, descendants: map<int, set<int>>)
    requires target.Some? ==> target.value in descendants
    ensures forall x :: x in Kept(imageScores, target, descendants) <==>
      x in imageScores && x.count > 0.0 && (target.Some? ==> x.taxonId in descendants[target.value])
  {
    FilterMembers(imageScores, Positive);
    if target.Some? {
      FilterMembers(Filter(imageScores, Positive), InTarget(descendants, target.value));
    }
  }

  /**
   * The candidates, or None when a target taxon is given that the descendant
   * table does not know (line 218 answers with an empty response then).
   */
  function PrepareCandidates(imageScores: seq<ScoredTaxon>, target: Option<int>, descendants: map<int, set<int>>)
    : (r: Option<seq<ScoredTaxon>>)
    ensures r.None? <==> target.Some? && target.value !in descendants
    ensures r.Some? ==> forall x :: x in r.value <==>
      x in imageScores && x.count > 0.0 && (target.Some? ==> x.taxonId in descendants[target.value])
    ensures r.Some? ==> SortedDesc(r.value, CountKey)
    ensures r.Some? ==> multiset(r.value) == multiset(Kept(imageScores, target, descendants))
  {
    if target.Some? && target.value !in descendants then None
    else
      var kept := Kept(imageScores, target, descendants);
      KeptMembers(imageScores, target, descendants);
      var sorted := SortByDesc(kept, CountKey);
      assert forall x :: x in sorted <==> x in multiset(sorted);
      assert forall x :: x in kept <==> x in multiset(kept);
      Some(sorted)
  }

  /** The kept entries form an order-preserving subsequence of the input. */
  lemma KeptIsSubsequence(imageScores: seq<ScoredTaxon>, target: Option<int>, descendants: map<int, set<int>>)
    requires target.Some? ==> target.value in descendants
    ensures IsSubsequence(Kept(imageScores, target, descendants), imageScores)
  {
    FilterIsSubsequence(imageScores, Positive);
    if target.Some? {
      FilterIsSubsequence(Filter(imageScores, Positive), InTarget(descendants, target.value));
      SubsequenceTrans(Kept(imageScores, target, descendants), Filter(imageScores, Positive), imageScores);
    }
  }

  /** Entries with equal counts come out in the reverse of their input order. */
  lemma CandidateTies(imageScores: seq<ScoredTaxon>, target: Option<int>, descendants: map<int, set<int>>, k: real)
    requires target.Some? ==> target.value in descendants
    ensures PrepareCandidates(imageScores, target, descendants).Some?
    ensures Ties(PrepareCandidates(imageScores, target, descendants).value, CountKey, k)
      == Reverse(Ties(Kept(imageScores, target, descendants), CountKey, k))
  {
    SortByDescTies(Kept(imageScores, target, descendants), CountKey, k);
  }

  /** Every candidate has a positive count, so the candidate list can be normalised. */
  lemma CandidatesPositive(imageScores: seq<ScoredTaxon>, target: Option<int>, descendants: map<int, set<int>>)
    requires PrepareCandidates(imageScores, target, descendants).Some?
    ensures AllPositive(PrepareCandidates(imageScores, target, descendants).value)
  {
    var r := PrepareCandidates(imageScores, target, descendants).value;
    forall i | 0 <= i < |r| ensures r[i].count > 0.0 {
      assert r[i] in r;
    }
  }
}
