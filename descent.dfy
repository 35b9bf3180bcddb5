/**
 * `commonAncestorByScoreSub` (lines 425-438): the descent from the roots
 * through the children, and `commonAncestorByScore` (lines 395-423), which
 * fills the forest and starts the descent.
 *
 * At each level the candidates (the roots, or the children of the current
 * taxon) are visited in `_.sortBy(..., count).reverse()` order. Without a
 * current taxon only the first candidate is considered. Every candidate at or
 * above the threshold overwrites the result with its own descent, so the LAST
 * such candidate in that order wins. A genus stops the descent.
 *
 * The source relies on the children links forming a tree to terminate; the
 * model makes that explicit as a ghost depth map under which every child sits
 * deeper than its parent (`Layered`).
 */
module Descent {
  import opened Optional
  import opened SeqUtil
  import opened Sorting
  import opened AncestorForest

  /** The summed score of a taxon as the sort key of line 429. */
  function ByCount(counts: map<int, real>): TaxonNode -> real {
    (n: TaxonNode) => CountOf(counts, n.id)
  }

  /** The values of a dictionary in the order JavaScript enumerates them: ascending integer key. */
  function ValuesInKeyOrder(m: map<int, TaxonNode>): (r: seq<TaxonNode>)
    ensures |r| == |m.Keys|
    ensures forall i :: 0 <= i < |r| ==> SortedKeys(m.Keys)[i] in m && r[i] == m[SortedKeys(m.Keys)[i]]
  {
    var keys := SortedKeys(m.Keys);
    seq(|keys|, i requires 0 <= i < |keys| => m[keys[i]])
  }

  /** `taxon ? children[taxon.id] : roots`; a missing `children` entry sorts as an empty list. */
  function Iteration(taxon: Option<TaxonNode>, f: Forest): map<int, TaxonNode> {
    if taxon.Some? then ChildMap(f.children, taxon.value.id) else f.roots
  }

  /** `sorted`: the candidates in non-increasing summed score, ties in descending id order. */
  function Candidates(taxon: Option<TaxonNode>, f: Forest): seq<TaxonNode> {
    SortByDesc(ValuesInKeyOrder(Iteration(taxon, f)), ByCount(f.counts))
  }

  /** `ancestorCounts[t.id] < threshold`; a missing count compares false, as `undefined < n` does. */
  predicate Below(counts: map<int, real>, id: int, threshold: real) {
    id in counts && counts[id] < threshold
  }

  /** Whether the loop at 430-436 descends into candidate `index`. */
  predicate Follows(taxon: Option<TaxonNode>, f: Forest, threshold: real, index: nat, t: TaxonNode) {
    (taxon.Some? || index == 0) && !Below(f.counts, t.id, threshold)
  }

  ghost predicate Placed(taxon: Option<TaxonNode>, depth: map<int, nat>, bound: nat) {
    taxon.Some? ==> taxon.value.id in depth && depth[taxon.value.id] <= bound
  }

  /** How far the descent can still go: one more than the bound above the roots. */
  ghost function Measure(taxon: Option<TaxonNode>, depth: map<int, nat>, bound: nat): nat
    requires Placed(taxon, depth, bound)
  {
    if taxon.None? then bound + 1 else bound - depth[taxon.value.id]
  }

  /** Every candidate comes from the dictionary being iterated. */
  lemma CandidateKey(taxon: Option<TaxonNode>, f: Forest, i: nat) returns (k: int)
    requires i < |Candidates(taxon, f)|
    ensures k in Iteration(taxon, f) && Iteration(taxon, f)[k] == Candidates(taxon, f)[i]
  {
    var values := ValuesInKeyOrder(Iteration(taxon, f));
    var c := Candidates(taxon, f)[i];
    assert c in multiset(Candidates(taxon, f));
    assert c in multiset(values);
    var j :| 0 <= j < |values| && values[j] == c;
    k := SortedKeys(Iteration(taxon, f).Keys)[j];
  }

  /** In a layered forest every candidate sits strictly below the current taxon. */
  lemma CandidatePlaced(taxon: Option<TaxonNode>, f: Forest, depth: map<int, nat>, bound: nat, i: nat)
    requires Layered(f, depth, bound) && Placed(taxon, depth, bound)
    requires i < |Candidates(taxon, f)|
    ensures Placed(Some(Candidates(taxon, f)[i]), depth, bound)
    ensures Measure(Some(Candidates(taxon, f)[i]), depth, bound) < Measure(taxon, depth, bound)
  {
    var k := CandidateKey(taxon, f, i);
    if taxon.Some? {
      assert taxon.value.id in f.children;
    }
  }

  /** Every candidate has a summed score when the forest is covered. */
  lemma CandidatesCounted(taxon: Option<TaxonNode>, f: Forest)
    requires Covered(f)
    ensures Counted(Candidates(taxon, f), f)
  {
    forall i | 0 <= i < |Candidates(taxon, f)| ensures Candidates(taxon, f)[i].id in f.counts {
      var k := CandidateKey(taxon, f, i);
      if taxon.Some? {
        assert taxon.value.id in f.children;
      }
    }
  }

  /** Every entry of `sorted` sits strictly below `taxon` (what the recursion needs to terminate). */
  ghost predicate Deeper(sorted: seq<TaxonNode>, taxon: Option<TaxonNode>, depth: map<int, nat>, bound: nat)
    requires Placed(taxon, depth, bound)
  {
    forall j :: 0 <= j < |sorted| ==>
      Placed(Some(sorted[j]), depth, bound) && Measure(Some(sorted[j]), depth, bound) < Measure(taxon, depth, bound)
  }

  ghost predicate Counted(sorted: seq<TaxonNode>, f: Forest) {
    forall j :: 0 <= j < |sorted| ==> sorted[j].id in f.counts
  }

  lemma CandidatesDeeper(taxon: Option<TaxonNode>, f: Forest, depth: map<int, nat>, bound: nat)
    requires Layered(f, depth, bound) && Placed(taxon, depth, bound)
    ensures Deeper(Candidates(taxon, f), taxon, depth, bound)
  {
    forall j | 0 <= j < |Candidates(taxon, f)|
      ensures Placed(Some(Candidates(taxon, f)[j]), depth, bound)
      ensures Measure(Some(Candidates(taxon, f)[j]), depth, bound) < Measure(taxon, depth, bound)
    {
      CandidatePlaced(taxon, f, depth, bound, j);
    }
  }

  /** The descent from `taxon` (None for the top level); the specification of the method below. */
  ghost function Resolve(taxon: Option<TaxonNode>, f: Forest, threshold: real, depth: map<int, nat>, bound: nat): (r: Option<TaxonNode>)
    requires Layered(f, depth, bound) && Placed(taxon, depth, bound)
    ensures taxon.Some? && taxon.value.rank == "genus" ==> r == taxon
    decreases Measure(taxon, depth, bound), 1
  {
    if taxon.Some? && taxon.value.rank == "genus" then taxon
    else
      var sorted := Candidates(taxon, f);
      CandidatesDeeper(taxon, f, depth, bound);
      Scan(taxon, f, threshold, depth, bound, sorted, |sorted|)
  }

  /** `commonAncestor` after the loop has visited the first `i` entries of `sorted`. */
  ghost function Scan(taxon: Option<TaxonNode>, f: Forest, threshold: real, depth: map<int, nat>, bound: nat,
                      sorted: seq<TaxonNode>, i: nat): Option<TaxonNode>
    requires Layered(f, depth, bound) && Placed(taxon, depth, bound) && Deeper(sorted, taxon, depth, bound)
    requires i <= |sorted|
    decreases Measure(taxon, depth, bound), 0, i
  {
    if i == 0 then taxon
    else if Follows(taxon, f, threshold, i - 1, sorted[i - 1]) then Resolve(Some(sorted[i - 1]), f, threshold, depth, bound)
    else Scan(taxon, f, threshold, depth, bound, sorted, i - 1)
  }

  /** One more iteration of the loop. */
  lemma ScanStep(taxon: Option<TaxonNode>, f: Forest, threshold: real, depth: map<int, nat>, bound: nat,
                 sorted: seq<TaxonNode>, i: nat)
    requires Layered(f, depth, bound) && Placed(taxon, depth, bound) && Deeper(sorted, taxon, depth, bound)
    requires i < |sorted|
    ensures Placed(Some(sorted[i]), depth, bound)
    ensures Scan(taxon, f, threshold, depth, bound, sorted, i + 1) ==
      if Follows(taxon, f, threshold, i, sorted[i]) then Resolve(Some(sorted[i]), f, threshold, depth, bound)
      else Scan(taxon, f, threshold, depth, bound, sorted, i)
  {
  }

  /** Once the current taxon is set, the descent never loses it: the result is a taxon again. */
  lemma {:induction false} ResolveKeepsTaxon(taxon: Option<TaxonNode>, f: Forest, threshold: real, depth: map<int, nat>, bound: nat)
    requires Layered(f, depth, bound) && Placed(taxon, depth, bound) && taxon.Some?
    ensures Resolve(taxon, f, threshold, depth, bound).Some?
    decreases Measure(taxon, depth, bound), 1
  {
    if taxon.value.rank != "genus" {
      var sorted := Candidates(taxon, f);
      CandidatesDeeper(taxon, f, depth, bound);
      ScanKeepsTaxon(taxon, f, threshold, depth, bound, sorted, |sorted|);
    }
  }

  lemma {:induction false} ScanKeepsTaxon(taxon: Option<TaxonNode>, f: Forest, threshold: real, depth: map<int, nat>, bound: nat,
                                          sorted: seq<TaxonNode>, i: nat)
    requires Layered(f, depth, bound) && Placed(taxon, depth, bound) && Deeper(sorted, taxon, depth, bound) && taxon.Some?
    requires i <= |sorted|
    ensures Scan(taxon, f, threshold, depth, bound, sorted, i).Some?
    decreases Measure(taxon, depth, bound), 0, i
  {
    if i > 0 {
      if Follows(taxon, f, threshold, i - 1, sorted[i - 1]) {
        ResolveKeepsTaxon(Some(sorted[i - 1]), f, threshold, depth, bound);
      } else {
        ScanKeepsTaxon(taxon, f, threshold, depth, bound, sorted, i - 1);
      }
    }
  }

  /** The result is the starting taxon or a taxon whose summed score reaches the threshold. */
  lemma {:induction false} ResolveQualifies(taxon: Option<TaxonNode>, f: Forest, threshold: real, depth: map<int, nat>, bound: nat)
    requires Layered(f, depth, bound) && Placed(taxon, depth, bound) && Covered(f)
    ensures var r := Resolve(taxon, f, threshold, depth, bound);
      r == taxon || (r.Some? && r.value.id in f.counts && f.counts[r.value.id] >= threshold)
    decreases Measure(taxon, depth, bound), 1
  {
    if !(taxon.Some? && taxon.value.rank == "genus") {
      var sorted := Candidates(taxon, f);
      CandidatesDeeper(taxon, f, depth, bound);
      CandidatesCounted(taxon, f);
      ScanQualifies(taxon, f, threshold, depth, bound, sorted, |sorted|);
    }
  }

  lemma {:induction false} ScanQualifies(taxon: Option<TaxonNode>, f: Forest, threshold: real, depth: map<int, nat>, bound: nat,
                                         sorted: seq<TaxonNode>, i: nat)
    requires Layered(f, depth, bound) && Placed(taxon, depth, bound) && Deeper(sorted, taxon, depth, bound)
    requires Covered(f) && Counted(sorted, f) && i <= |sorted|
    ensures var r := Scan(taxon, f, threshold, depth, bound, sorted, i);
      r == taxon || (r.Some? && r.value.id in f.counts && f.counts[r.value.id] >= threshold)
    decreases Measure(taxon, depth, bound), 0, i
  {
    if i > 0 {
      if Follows(taxon, f, threshold, i - 1, sorted[i - 1]) {
        ResolveQualifies(Some(sorted[i - 1]), f, threshold, depth, bound);
      } else {
        ScanQualifies(taxon, f, threshold, depth, bound, sorted, i - 1);
      }
    }
  }

  /** Entries the loop does not follow leave the result as it was. */
  lemma {:induction false} ScanSkips(taxon: Option<TaxonNode>, f: Forest, threshold: real, depth: map<int, nat>, bound: nat,
                                     sorted: seq<TaxonNode>, i: nat, n: nat)
    requires Layered(f, depth, bound) && Placed(taxon, depth, bound) && Deeper(sorted, taxon, depth, bound)
    requires i <= n <= |sorted|
    requires forall j :: i <= j < n ==> !Follows(taxon, f, threshold, j, sorted[j])
    ensures Scan(taxon, f, threshold, depth, bound, sorted, n) == Scan(taxon, f, threshold, depth, bound, sorted, i)
    decreases n
  {
    if i < n {
      ScanSkips(taxon, f, threshold, depth, bound, sorted, i, n - 1);
    }
  }

  /**
   * Only the top root is tried (line 431): without a current taxon the result
   * is None when there are no roots or the top root is below the threshold, and
   * otherwise the descent from the top root.
   */
  lemma TopRootOnly(f: Forest, threshold: real, depth: map<int, nat>, bound: nat)
    requires Layered(f, depth, bound)
    ensures var sorted := Candidates(None, f);
      Resolve(None, f, threshold, depth, bound) ==
        if sorted == [] || Below(f.counts, sorted[0].id, threshold) then None
        else (CandidatePlaced(None, f, depth, bound, 0); Resolve(Some(sorted[0]), f, threshold, depth, bound))
  {
    var sorted := Candidates(None, f);
    CandidatesDeeper(None, f, depth, bound);
    if sorted != [] {
      ScanSkips(None, f, threshold, depth, bound, sorted, 1, |sorted|);
    }
  }

  /**
   * Below the top level the LAST candidate, in sorted order, that reaches the
   * threshold decides the result.
   */
  lemma LastQualifyingWins(taxon: Option<TaxonNode>, f: Forest, threshold: real, depth: map<int, nat>, bound: nat, i: nat)
    requires Layered(f, depth, bound) && Placed(taxon, depth, bound)
    requires taxon.Some? && taxon.value.rank != "genus"
    requires i < |Candidates(taxon, f)| && !Below(f.counts, Candidates(taxon, f)[i].id, threshold)
    requires forall j :: i < j < |Candidates(taxon, f)| ==> Below(f.counts, Candidates(taxon, f)[j].id, threshold)
    ensures Placed(Some(Candidates(taxon, f)[i]), depth, bound)
    ensures Resolve(taxon, f, threshold, depth, bound) == Resolve(Some(Candidates(taxon, f)[i]), f, threshold, depth, bound)
  {
    var sorted := Candidates(taxon, f);
    CandidatesDeeper(taxon, f, depth, bound);
    ScanSkips(taxon, f, threshold, depth, bound, sorted, i + 1, |sorted|);
  }

  /** Below the top level, when no candidate reaches the threshold the current taxon is the result. */
  lemma NoQualifyingChild(taxon: Option<TaxonNode>, f: Forest, threshold: real, depth: map<int, nat>, bound: nat)
    requires Layered(f, depth, bound) && Placed(taxon, depth, bound) && taxon.Some?
    requires forall j :: 0 <= j < |Candidates(taxon, f)| ==> Below(f.counts, Candidates(taxon, f)[j].id, threshold)
    ensures Resolve(taxon, f, threshold, depth, bound) == taxon
  {
    var sorted := Candidates(taxon, f);
    CandidatesDeeper(taxon, f, depth, bound);
    ScanSkips(taxon, f, threshold, depth, bound, sorted, 0, |sorted|);
  }

  /** `commonAncestorByScoreSub(taxon, roots, children, ancestorCounts, threshold)`. */
  method CommonAncestorByScoreSub(taxon: Option<TaxonNode>, f: Forest, threshold: real, ghost depth: map<int, nat>, ghost bound: nat)
    returns (r: Option<TaxonNode>)
    requires Layered(f, depth, bound) && Placed(taxon, depth, bound)
    ensures r == Resolve(taxon, f, threshold, depth, bound)
    decreases Measure(taxon, depth, bound), 1
  {
    if taxon.Some? && taxon.value.rank == "genus" {
      return taxon;
    }
    var sorted := Candidates(taxon, f);
    CandidatesDeeper(taxon, f, depth, bound);
    r := VisitCandidates(taxon, f, threshold, depth, bound, sorted);
  }

  /** The loop of lines 427-437 over `sorted`, overwriting `commonAncestor` for each followed candidate. */
  method VisitCandidates(taxon: Option<TaxonNode>, f: Forest, threshold: real, ghost depth: map<int, nat>, ghost bound: nat,
                         sorted: seq<TaxonNode>)
    returns (r: Option<TaxonNode>)
    requires Layered(f, depth, bound) && Placed(taxon, depth, bound) && Deeper(sorted, taxon, depth, bound)
    ensures r == Scan(taxon, f, threshold, depth, bound, sorted, |sorted|)
    decreases Measure(taxon, depth, bound), 0
  {
    var commonAncestor := taxon;
    var index := 0;
    while index < |sorted|
      invariant 0 <= index <= |sorted|
      invariant commonAncestor == Scan(taxon, f, threshold, depth, bound, sorted, index)
    {
      var t := sorted[index];
      ScanStep(taxon, f, threshold, depth, bound, sorted, index);
      if (taxon.Some? || index == 0) && !(t.id in f.counts && f.counts[t.id] < threshold) {
        commonAncestor := CommonAncestorByScoreSub(Some(t), f, threshold, depth, bound);
      }
      index := index + 1;
    }
    return commonAncestor;
  }

  /** The object `commonAncestorByScore` returns: the taxon and its summed score. */
  datatype AncestorScore = AncestorScore(taxon: TaxonNode, score: real)

  /** The specification of `commonAncestorByScore`. */
  ghost function CommonAncestorOf(results: seq<VisionResult>, threshold: real): (r: Option<AncestorScore>)
    requires ConsistentDepths(results)
  {
    var f := Build(results);
    DepthsPositioned(results);
    BuildLayered(results, Depths(results), MaxChain(results));
    var found := Resolve(None, f, threshold, Depths(results), MaxChain(results));
    if found.None? then None else Some(AncestorScore(found.value, CountOf(f.counts, found.value.id)))
  }

  /**
   * What `commonAncestorByScore` promises: a found ancestor's score is the sum
   * of the scores of the results whose chain contains it, and reaches the
   * threshold; nothing is found exactly when there are no roots or the top
   * root is below the threshold.
   */
  lemma CommonAncestorOfSpec(results: seq<VisionResult>, threshold: real)
    requires ConsistentDepths(results)
    ensures var r := CommonAncestorOf(results, threshold);
      r.Some? ==> r.value.score >= threshold && r.value.score == ContainingScore(results, r.value.taxon.id)
    ensures var sorted := Candidates(None, Build(results));
      CommonAncestorOf(results, threshold).None? <==>
        sorted == [] || Below(Build(results).counts, sorted[0].id, threshold)
  {
    var f := Build(results);
    var depth, bound := Depths(results), MaxChain(results);
    DepthsPositioned(results);
    BuildLayered(results, depth, bound);
    BuildCovered(results);
    var r := CommonAncestorOf(results, threshold);
    ResolveQualifies(None, f, threshold, depth, bound);
    if r.Some? {
      BuildCountsContaining(results, r.value.taxon.id);
    }
    TopRootOnly(f, threshold, depth, bound);
    var sorted := Candidates(None, f);
    if sorted != [] && !Below(f.counts, sorted[0].id, threshold) {
      CandidatePlaced(None, f, depth, bound, 0);
      ResolveKeepsTaxon(Some(sorted[0]), f, threshold, depth, bound);
    }
  }

  /** Lines 402-412: one result's chain, ancestors first, added to the forest with score `vs`. */
  method AddChain(roots0: map<int, TaxonNode>, children0: map<int, map<int, TaxonNode>>, counts0: map<int, real>,
                  chain: seq<TaxonNode>, vs: real)
    returns (roots: map<int, TaxonNode>, children: map<int, map<int, TaxonNode>>, ancestorCounts: map<int, real>)
    ensures Forest(roots, children, ancestorCounts) == VisitChain(Forest(roots0, children0, counts0), chain, vs)
  {
    roots, children, ancestorCounts := roots0, children0, counts0;
    var lastTaxon: Option<TaxonNode> := None;
    var index := 0;
    while index < |chain|
      invariant 0 <= index <= |chain|
      invariant Forest(roots, children, ancestorCounts) == VisitChain(Forest(roots0, children0, counts0), chain[..index], vs)
      invariant lastTaxon == if index == 0 then None else Some(chain[index - 1])
    {
      assert chain[..index + 1][..index] == chain[..index];
      var t := chain[index];
      if index == 0 {
        roots := roots[t.id := t];
      } else {
        children := children[lastTaxon.value.id := ChildMap(children, lastTaxon.value.id)[t.id := t]];
      }
      ancestorCounts := ancestorCounts[t.id := CountOf(ancestorCounts, t.id) + vs];
      lastTaxon := Some(t);
      index := index + 1;
    }
    assert chain[..index] == chain;
  }

  /** Lines 396-414: `roots`, `children` and `ancestorCounts` built from every result's chain. */
  method BuildForest(results: seq<VisionResult>)
    returns (roots: map<int, TaxonNode>, children: map<int, map<int, TaxonNode>>, ancestorCounts: map<int, real>)
    ensures Forest(roots, children, ancestorCounts) == Build(results)
  {
    roots, children, ancestorCounts := map[], map[], map[];
    var i := 0;
    while i < |results|
      invariant 0 <= i <= |results|
      invariant Forest(roots, children, ancestorCounts) == Build(results[..i])
    {
      assert results[..i + 1][..i] == results[..i];
      var res := results[i];
      if res.taxon.ancestors.Some? {
        var chain := res.taxon.ancestors.value + [res.taxon.node];
        assert chain == Chain(res.taxon);
        roots, children, ancestorCounts := AddChain(roots, children, ancestorCounts, chain, res.visionScore);
      }
      i := i + 1;
    }
    assert results[..i] == results;
  }

  /** `commonAncestorByScore(results, threshold)`: the loops of lines 396-414, then the descent. */
  method CommonAncestorByScore(results: seq<VisionResult>, threshold: real) returns (r: Option<AncestorScore>)
    requires ConsistentDepths(results)
    ensures r == CommonAncestorOf(results, threshold)
  {
    var roots, children, ancestorCounts := BuildForest(results);
    var f := Forest(roots, children, ancestorCounts);
    DepthsPositioned(results);
    BuildLayered(results, Depths(results), MaxChain(results));
    BuildCovered(results);
    var commonAncestor := CommonAncestorByScoreSub(None, f, threshold, Depths(results), MaxChain(results));
    if commonAncestor.None? {
      return None;
    }
    ResolveQualifies(None, f, threshold, Depths(results), MaxChain(results));
    return Some(AncestorScore(commonAncestor.value, ancestorCounts[commonAncestor.value.id]));
  }
}
