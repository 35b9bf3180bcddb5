/**
 * The three dictionaries `commonAncestorByScore` fills from the scored results
 * (lines 396-414): `roots` (first taxon of each chain), `children` (each later
 * taxon under its predecessor) and `ancestorCounts` (the summed vision score
 * of every taxon on some chain). A result's chain is its `ancestors` followed
 * by its own taxon; a result without `ancestors` contributes nothing.
 */
module AncestorForest {
  import opened Optional

  /** The fields of a taxon record the descent reads: id, `rank` and `rank_level` (None when missing). */
  datatype TaxonNode = TaxonNode(id: int, rank: string, rankLevel: Option<real>)

  /** `r.taxon`: the taxon and its `ancestors` (None when the field is missing), root first. */
  datatype Taxon = Taxon(node: TaxonNode, ancestors: Option<seq<TaxonNode>>)

  /** One result of `addTaxa`, after `vision_score` took over from `count` (lines 338-341). */
  datatype VisionResult = VisionResult(taxon: Taxon, visionScore: real)

  datatype Forest = Forest(roots: map<int, TaxonNode>, children: map<int, map<int, TaxonNode>>, counts: map<int, real>)

  const EmptyForest := Forest(map[], map[], map[])

  /** `taxon.ancestors.concat([taxon])`. */
  function Chain(t: Taxon): (c: seq<TaxonNode>)
    requires t.ancestors.Some?
    ensures |c| == |t.ancestors.value| + 1 && c[|c| - 1] == t.node
  {
    t.ancestors.value + [t.node]
  }

  /** `ancestorCounts[id] || 0`. */
  function CountOf(counts: map<int, real>, id: int): real {
    if id in counts then counts[id] else 0.0
  }

  /** `children[id]`, with a missing entry read as an empty dictionary. */
  function ChildMap(children: map<int, map<int, TaxonNode>>, id: int): map<int, TaxonNode> {
    if id in children then children[id] else map[]
  }

  /** The taxon before position `j` of a chain (`lastTaxon`), None at the root. */
  function Predecessor(chain: seq<TaxonNode>, j: nat): Option<TaxonNode>
    requires j < |chain|
  {
    if j == 0 then None else Some(chain[j - 1])
  }

  /** The body of the inner loop for taxon `t` of a chain (lines 403-411). */
  function VisitNode(f: Forest, t: TaxonNode, last: Option<TaxonNode>, vs: real): Forest {
    Forest(
      if last.None? then f.roots[t.id := t] else f.roots,
      if last.Some? then f.children[last.value.id := ChildMap(f.children, last.value.id)[t.id := t]] else f.children,
      f.counts[t.id := CountOf(f.counts, t.id) + vs])
  }

  /** The inner loop over one chain, with score `vs`. */
  function VisitChain(f: Forest, chain: seq<TaxonNode>, vs: real): Forest
    decreases |chain|
  {
    if chain == [] then f
    else VisitNode(VisitChain(f, chain[..|chain| - 1], vs), chain[|chain| - 1], Predecessor(chain, |chain| - 1), vs)
  }

  /** The outer loop over the results, in order. */
  function Build(results: seq<VisionResult>): Forest
    decreases |results|
  {
    if results == [] then EmptyForest
    else
      var prev := Build(results[..|results| - 1]);
      var r := results[|results| - 1];
      if r.taxon.ancestors.Some? then VisitChain(prev, Chain(r.taxon), r.visionScore) else prev
  }

  /** The score `vs` once for every position of a chain that holds taxon id `t`. */
  function ChainScore(chain: seq<TaxonNode>, t: int, vs: real): real
    decreases |chain|
  {
    if chain == [] then 0.0
    else ChainScore(chain[..|chain| - 1], t, vs) + (if chain[|chain| - 1].id == t then vs else 0.0)
  }

  /** The reference sum: each result with ancestors adds its score for each position of `t` on its chain. */
  function Aggregate(results: seq<VisionResult>, t: int): real
    decreases |results|
  {
    if results == [] then 0.0
    else
      var r := results[|results| - 1];
      Aggregate(results[..|results| - 1], t)
        + (if r.taxon.ancestors.Some? then ChainScore(Chain(r.taxon), t, r.visionScore) else 0.0)
  }

  /** No taxon id occurs twice on the chain. */
  ghost predicate Distinct(chain: seq<TaxonNode>) {
    forall i, j :: 0 <= i < j < |chain| ==> chain[i].id != chain[j].id
  }

  /** On a chain without repeats, a taxon on it receives the score exactly once. */
  lemma {:induction false} ChainScoreDistinct(chain: seq<TaxonNode>, t: int, vs: real)
    requires Distinct(chain)
    ensures ChainScore(chain, t, vs) == if t in IdsOf(chain) then vs else 0.0
    decreases |chain|
  {
    if chain != [] {
      var init := chain[..|chain| - 1];
      assert Distinct(init) by {
        forall i, j | 0 <= i < j < |init| ensures init[i].id != init[j].id {
          assert init[i] == chain[i] && init[j] == chain[j];
        }
      }
      ChainScoreDistinct(init, t, vs);
      IdsOfSnoc(chain);
      if chain[|chain| - 1].id == t {
        forall i | 0 <= i < |init| ensures init[i].id != t {
          assert init[i] == chain[i];
        }
      }
    }
  }

  /** The ids on the chains of the results that have ancestors. */
  function ChainIds(results: seq<VisionResult>): set<int>
    decreases |results|
  {
    if results == [] then {}
    else
      var r := results[|results| - 1];
      ChainIds(results[..|results| - 1]) + (if r.taxon.ancestors.Some? then IdsOf(Chain(r.taxon)) else {})
  }

  function IdsOf(chain: seq<TaxonNode>): set<int> {
    set i | 0 <= i < |chain| :: chain[i].id
  }

  lemma IdsOfSnoc(chain: seq<TaxonNode>)
    requires chain != []
    ensures IdsOf(chain) == IdsOf(chain[..|chain| - 1]) + {chain[|chain| - 1].id}
  {
    var init := chain[..|chain| - 1];
    forall x | x in IdsOf(chain) ensures x in IdsOf(init) + {chain[|chain| - 1].id} {
      var i :| 0 <= i < |chain| && chain[i].id == x;
      if i < |chain| - 1 { assert init[i] == chain[i]; }
    }
    forall x | x in IdsOf(init) ensures x in IdsOf(chain) {
      var i :| 0 <= i < |init| && init[i].id == x;
      assert chain[i] == init[i];
    }
  }

  lemma {:induction false} VisitChainCounts(f: Forest, chain: seq<TaxonNode>, vs: real, t: int)
    ensures CountOf(VisitChain(f, chain, vs).counts, t) == CountOf(f.counts, t) + ChainScore(chain, t, vs)
    decreases |chain|
  {
    if chain != [] {
      VisitChainCounts(f, chain[..|chain| - 1], vs, t);
    }
  }

  /** `ancestorCounts[t]` is the sum of the scores of the results whose chain holds `t`, once per position. */
  lemma {:induction false} BuildCounts(results: seq<VisionResult>, t: int)
    ensures CountOf(Build(results).counts, t) == Aggregate(results, t)
    decreases |results|
  {
    if results != [] {
      var r := results[|results| - 1];
      BuildCounts(results[..|results| - 1], t);
      if r.taxon.ancestors.Some? {
        VisitChainCounts(Build(results[..|results| - 1]), Chain(r.taxon), r.visionScore, t);
      }
    }
  }

  lemma {:induction false} VisitChainKeys(f: Forest, chain: seq<TaxonNode>, vs: real)
    ensures VisitChain(f, chain, vs).counts.Keys == f.counts.Keys + IdsOf(chain)
    decreases |chain|
  {
    if chain != [] {
      var init := chain[..|chain| - 1];
      VisitChainKeys(f, init, vs);
      IdsOfSnoc(chain);
    }
  }

  /** Exactly the taxa on some chain get a summed score. */
  lemma {:induction false} BuildKeys(results: seq<VisionResult>)
    ensures Build(results).counts.Keys == ChainIds(results)
    decreases |results|
  {
    if results != [] {
      var r := results[|results| - 1];
      BuildKeys(results[..|results| - 1]);
      if r.taxon.ancestors.Some? {
        VisitChainKeys(Build(results[..|results| - 1]), Chain(r.taxon), r.visionScore);
      }
    }
  }

  /** `g` has every root, every child entry and every counted id of `f`. */
  ghost predicate Extends(f: Forest, g: Forest) {
    && f.roots.Keys <= g.roots.Keys
    && f.counts.Keys <= g.counts.Keys
    && forall p :: ChildMap(f.children, p).Keys <= ChildMap(g.children, p).Keys
  }

  lemma {:induction false} VisitChainExtends(f: Forest, chain: seq<TaxonNode>, vs: real)
    ensures Extends(f, VisitChain(f, chain, vs))
    decreases |chain|
  {
    if chain != [] {
      VisitChainExtends(f, chain[..|chain| - 1], vs);
    }
  }

  lemma {:induction false} BuildExtends(results: seq<VisionResult>, n: nat)
    requires n <= |results|
    ensures Extends(Build(results[..n]), Build(results))
    decreases |results|
  {
    if n < |results| {
      var init := results[..|results| - 1];
      assert init[..n] == results[..n];
      BuildExtends(init, n);
      var r := results[|results| - 1];
      if r.taxon.ancestors.Some? {
        VisitChainExtends(Build(init), Chain(r.taxon), r.visionScore);
      }
    } else {
      assert results[..n] == results;
    }
  }

  /** A chain's first taxon is a root and each later taxon is a child of its predecessor. */
  ghost predicate Records(f: Forest, chain: seq<TaxonNode>) {
    && (chain != [] ==> chain[0].id in f.roots)
    && forall i :: 0 < i < |chain| ==> chain[i].id in ChildMap(f.children, chain[i - 1].id)
  }

  lemma RecordsExtends(f: Forest, g: Forest, chain: seq<TaxonNode>)
    requires Records(f, chain) && Extends(f, g)
    ensures Records(g, chain)
  {
    forall i | 0 < i < |chain| ensures chain[i].id in ChildMap(g.children, chain[i - 1].id) {
      assert chain[i].id in ChildMap(f.children, chain[i - 1].id);
    }
  }

  lemma {:induction false} VisitChainRecords(f: Forest, chain: seq<TaxonNode>, vs: real)
    ensures Records(VisitChain(f, chain, vs), chain)
    decreases |chain|
  {
    if chain != [] {
      var init := chain[..|chain| - 1];
      var last := chain[|chain| - 1];
      var prev := VisitChain(f, init, vs);
      VisitChainRecords(f, init, vs);
      var g := VisitChain(f, chain, vs);
      assert g == VisitNode(prev, last, Predecessor(chain, |chain| - 1), vs);
      assert Extends(prev, g);
      RecordsExtends(prev, g, init);
      forall i | 0 < i < |chain| ensures chain[i].id in ChildMap(g.children, chain[i - 1].id) {
        if i < |chain| - 1 {
          assert chain[i] == init[i] && chain[i - 1] == init[i - 1];
        }
      }
    }
  }

  /** Every chain of a result with ancestors is recorded in the final roots and children. */
  lemma BuildRecords(results: seq<VisionResult>, k: nat)
    requires k < |results| && results[k].taxon.ancestors.Some?
    ensures Records(Build(results), Chain(results[k].taxon))
  {
    var r := results[k];
    var upTo := results[..k + 1];
    assert upTo[..k] == results[..k] && upTo[k] == r;
    VisitChainRecords(Build(results[..k]), Chain(r.taxon), r.visionScore);
    BuildExtends(results, k + 1);
    RecordsExtends(Build(upTo), Build(results), Chain(r.taxon));
  }

  /** Every taxon stored as a root or a child has a summed score. */
  ghost predicate Covered(f: Forest) {
    && (forall k :: k in f.roots ==> f.roots[k].id in f.counts)
    && (forall p, k :: p in f.children && k in f.children[p] ==> f.children[p][k].id in f.counts)
  }

  lemma {:induction false} VisitChainCovered(f: Forest, chain: seq<TaxonNode>, vs: real)
    requires Covered(f)
    ensures Covered(VisitChain(f, chain, vs))
    decreases |chain|
  {
    if chain != [] {
      VisitChainCovered(f, chain[..|chain| - 1], vs);
      var prev := VisitChain(f, chain[..|chain| - 1], vs);
      var last := chain[|chain| - 1];
      var g := VisitChain(f, chain, vs);
      forall p, k | p in g.children && k in g.children[p] ensures g.children[p][k].id in g.counts {
        if g.children[p][k] != last {
          assert p in prev.children && prev.children[p][k] == g.children[p][k];
        }
      }
    }
  }

  lemma {:induction false} BuildCovered(results: seq<VisionResult>)
    ensures Covered(Build(results))
    decreases |results|
  {
    if results != [] {
      var r := results[|results| - 1];
      BuildCovered(results[..|results| - 1]);
      if r.taxon.ancestors.Some? {
        VisitChainCovered(Build(results[..|results| - 1]), Chain(r.taxon), r.visionScore);
      }
    }
  }

  /**
   * Each taxon id sits at the same position on both chains wherever it occurs,
   * as it does on chains read off one taxonomy tree.
   */
  ghost predicate ConsistentPair(a: Taxon, b: Taxon) {
    a.ancestors.Some? && b.ancestors.Some? ==>
      forall i, j :: 0 <= i < |Chain(a)| && 0 <= j < |Chain(b)| && Chain(a)[i].id == Chain(b)[j].id ==> i == j
  }

  ghost predicate ConsistentDepths(results: seq<VisionResult>) {
    forall x, y :: 0 <= x < |results| && 0 <= y < |results| ==> ConsistentPair(results[x].taxon, results[y].taxon)
  }

  /** Each taxon on a chain of `results` is at its chain position in `depth`, below `bound`. */
  ghost predicate Positioned(results: seq<VisionResult>, depth: map<int, nat>, bound: nat) {
    forall x, i :: 0 <= x < |results| && results[x].taxon.ancestors.Some? && 0 <= i < |Chain(results[x].taxon)| ==>
      Chain(results[x].taxon)[i].id in depth && depth[Chain(results[x].taxon)[i].id] == i && i < bound
  }

  /** Roots sit at depth 0 or more and every child one level or more below its parent, all within `bound`. */
  ghost predicate Layered(f: Forest, depth: map<int, nat>, bound: nat) {
    && (forall k :: k in f.roots ==> f.roots[k].id in depth && depth[f.roots[k].id] <= bound)
    && (forall p, k :: p in f.children && k in f.children[p] ==>
          && p in depth && f.children[p][k].id in depth
          && depth[p] < depth[f.children[p][k].id] <= bound)
  }

  ghost function ChainDepths(m: map<int, nat>, chain: seq<TaxonNode>): map<int, nat>
    decreases |chain|
  {
    if chain == [] then m else ChainDepths(m, chain[..|chain| - 1])[chain[|chain| - 1].id := |chain| - 1]
  }

  /** A depth for every taxon on the chains: its position on the last chain that holds it. */
  ghost function Depths(results: seq<VisionResult>): map<int, nat>
    decreases |results|
  {
    if results == [] then map[]
    else
      var prev := Depths(results[..|results| - 1]);
      var r := results[|results| - 1];
      if r.taxon.ancestors.Some? then ChainDepths(prev, Chain(r.taxon)) else prev
  }

  /** The length of the longest chain. */
  ghost function MaxChain(results: seq<VisionResult>): nat
    decreases |results|
  {
    if results == [] then 0
    else
      var prev := MaxChain(results[..|results| - 1]);
      var r := results[|results| - 1];
      var here := if r.taxon.ancestors.Some? then |Chain(r.taxon)| else 0;
      if prev < here then here else prev
  }

  lemma {:induction false} ChainDepthsSpec(m: map<int, nat>, chain: seq<TaxonNode>)
    requires forall i, j :: 0 <= i < |chain| && 0 <= j < |chain| && chain[i].id == chain[j].id ==> i == j
    ensures forall i :: 0 <= i < |chain| ==> chain[i].id in ChainDepths(m, chain) && ChainDepths(m, chain)[chain[i].id] == i
    ensures forall id :: id !in IdsOf(chain) ==>
      (id in ChainDepths(m, chain) <==> id in m) && (id in m ==> ChainDepths(m, chain)[id] == m[id])
    decreases |chain|
  {
    if chain != [] {
      var init := chain[..|chain| - 1];
      forall i, j | 0 <= i < |init| && 0 <= j < |init| && init[i].id == init[j].id ensures i == j {
        assert init[i] == chain[i] && init[j] == chain[j];
      }
      ChainDepthsSpec(m, init);
      IdsOfSnoc(chain);
      forall i | 0 <= i < |chain| - 1 ensures chain[i].id in ChainDepths(m, chain) && ChainDepths(m, chain)[chain[i].id] == i {
        assert init[i] == chain[i];
      }
    }
  }

  lemma PositionedPrefix(results: seq<VisionResult>, depth: map<int, nat>, bound: nat, n: nat)
    requires n <= |results| && Positioned(results, depth, bound)
    ensures Positioned(results[..n], depth, bound)
  {
    forall x, i | 0 <= x < n && results[..n][x].taxon.ancestors.Some? && 0 <= i < |Chain(results[..n][x].taxon)|
      ensures Chain(results[..n][x].taxon)[i].id in depth && depth[Chain(results[..n][x].taxon)[i].id] == i && i < bound
    {
      assert results[..n][x] == results[x];
    }
  }

  /** Under consistent chains the depth map places every chain's taxa at their positions. */
  lemma {:induction false} DepthsPositioned(results: seq<VisionResult>)
    requires ConsistentDepths(results)
    ensures Positioned(results, Depths(results), MaxChain(results))
    decreases |results|
  {
    if results != [] {
      var init := results[..|results| - 1];
      var r := results[|results| - 1];
      forall x, y | 0 <= x < |init| && 0 <= y < |init| ensures ConsistentPair(init[x].taxon, init[y].taxon) {
        assert init[x] == results[x] && init[y] == results[y];
      }
      DepthsPositioned(init);
      var m := Depths(init);
      var d := Depths(results);
      var bound := MaxChain(results);
      if r.taxon.ancestors.Some? {
        var chain := Chain(r.taxon);
        assert ConsistentPair(r.taxon, r.taxon);
        ChainDepthsSpec(m, chain);
        forall x, i | 0 <= x < |results| && results[x].taxon.ancestors.Some? && 0 <= i < |Chain(results[x].taxon)|
          ensures Chain(results[x].taxon)[i].id in d && d[Chain(results[x].taxon)[i].id] == i && i < bound
        {
          var id := Chain(results[x].taxon)[i].id;
          if x < |init| {
            assert init[x] == results[x];
            if id in IdsOf(chain) {
              var j :| 0 <= j < |chain| && chain[j].id == id;
              assert ConsistentPair(results[x].taxon, r.taxon);
            }
          }
        }
      } else {
        forall x, i | 0 <= x < |results| && results[x].taxon.ancestors.Some? && 0 <= i < |Chain(results[x].taxon)|
          ensures Chain(results[x].taxon)[i].id in d && d[Chain(results[x].taxon)[i].id] == i && i < bound
        {
          assert init[x] == results[x];
        }
      }
    }
  }

  lemma {:induction false} VisitChainLayered(f: Forest, chain: seq<TaxonNode>, vs: real, depth: map<int, nat>, bound: nat)
    requires Layered(f, depth, bound)
    requires forall i :: 0 <= i < |chain| ==> chain[i].id in depth && depth[chain[i].id] == i && i < bound
    ensures Layered(VisitChain(f, chain, vs), depth, bound)
    decreases |chain|
  {
    if chain != [] {
      var init := chain[..|chain| - 1];
      forall i | 0 <= i < |init| ensures init[i].id in depth && depth[init[i].id] == i && i < bound {
        assert init[i] == chain[i];
      }
      VisitChainLayered(f, init, vs, depth, bound);
    }
  }

  /** The forest built from positioned chains is layered by the same depths. */
  lemma {:induction false} BuildLayered(results: seq<VisionResult>, depth: map<int, nat>, bound: nat)
    requires Positioned(results, depth, bound)
    ensures Layered(Build(results), depth, bound)
    decreases |results|
  {
    if results != [] {
      var init := results[..|results| - 1];
      var r := results[|results| - 1];
      PositionedPrefix(results, depth, bound, |results| - 1);
      BuildLayered(init, depth, bound);
      if r.taxon.ancestors.Some? {
        var x := |results| - 1;
        assert forall i :: 0 <= i < |Chain(r.taxon)| ==> Chain(results[x].taxon)[i] == Chain(r.taxon)[i];
        VisitChainLayered(Build(init), Chain(r.taxon), r.visionScore, depth, bound);
      }
    }
  }

  /** The summed vision score of the results whose chain contains `t`. */
  function ContainingScore(results: seq<VisionResult>, t: int): real
    decreases |results|
  {
    if results == [] then 0.0
    else
      var r := results[|results| - 1];
      ContainingScore(results[..|results| - 1], t)
        + (if r.taxon.ancestors.Some? && t in IdsOf(Chain(r.taxon)) then r.visionScore else 0.0)
  }

  /** With consistent chains no id repeats on a chain, so each result adds its score at most once. */
  lemma BuildCountsContaining(results: seq<VisionResult>, t: int)
    requires ConsistentDepths(results)
    ensures CountOf(Build(results).counts, t) == ContainingScore(results, t)
  {
    BuildCounts(results, t);
    AggregateContaining(results, t);
  }

  lemma {:induction false} AggregateContaining(results: seq<VisionResult>, t: int)
    requires ConsistentDepths(results)
    ensures Aggregate(results, t) == ContainingScore(results, t)
    decreases |results|
  {
    if results != [] {
      var init := results[..|results| - 1];
      var r := results[|results| - 1];
      forall x, y | 0 <= x < |init| && 0 <= y < |init| ensures ConsistentPair(init[x].taxon, init[y].taxon) {
        assert init[x] == results[x] && init[y] == results[y];
      }
      AggregateContaining(init, t);
      if r.taxon.ancestors.Some? {
        assert ConsistentPair(r.taxon, r.taxon);
        ChainScoreDistinct(Chain(r.taxon), t, r.visionScore);
      }
    }
  }
}
