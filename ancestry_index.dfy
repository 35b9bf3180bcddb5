/**
 * The process-wide ancestry index of the vision controller: the table of each
 * cached taxon's ancestor chain (`TFServingTaxonAncestries`) and the table of
 * each taxon's descendant set, itself included (`TFServingTaxonDescendants`).
 * Rows of `SELECT id, ancestry FROM taxa` are merged into both, one at a time.
 */
module AncestryIndex {
  import opened Optional
  import opened SeqUtil

  /**
   * One row of the taxa query. `ancestry` is the ancestry column split at "/"
   * into ids, root first: None for NULL, Some([]) for the empty string.
   */
  datatype AncestryRow = AncestryRow(id: int, ancestry: Option<seq<int>>)

  /** The two tables as a value. */
  datatype Tables = Tables(ancestries: map<int, seq<int>>, descendants: map<int, set<int>>)

  /** `TFServingTaxonDescendants[k] || {}` as a set. */
  function Members(d: map<int, set<int>>, k: int): set<int> {
    if k in d then d[k] else {}
  }

  /** A row is merged only when its ancestry is truthy: neither NULL nor the empty string. */
  predicate HasChain(row: AncestryRow) {
    row.ancestry.Some? && row.ancestry.value != []
  }

  /**
   * The index invariant: every cached chain is non-empty, and a cached taxon is
   * in its own descendant set and in the descendant set of each of its ancestors.
   */
  ghost predicate Consistent(tb: Tables) {
    forall t :: t in tb.ancestries ==>
      && tb.ancestries[t] != []
      && t in Members(tb.descendants, t)
      && forall a :: a in tb.ancestries[t] ==> t in Members(tb.descendants, a)
  }

  /** The inner loop: records `t` as a descendant of every id of `chain`. */
  function AddToEach(d: map<int, set<int>>, chain: seq<int>, t: int): (r: map<int, set<int>>)
    ensures r.Keys == d.Keys + set a | a in chain
    ensures forall k :: Members(r, k) == Members(d, k) + (if k in chain then {t} else {})
    decreases |chain|
  {
    if chain == [] then d
    else
      var prev := AddToEach(d, chain[..|chain| - 1], t);
      var a := chain[|chain| - 1];
      assert forall k :: k in chain <==> k in chain[..|chain| - 1] || k == a;
      prev[a := Members(prev, a) + {t}]
  }

  /** The per-row body of the merge loop. */
  function MergeRow(tb: Tables, row: AncestryRow): (r: Tables)
    ensures !HasChain(row) ==> r == tb
    ensures HasChain(row) ==> r.ancestries == tb.ancestries[row.id := row.ancestry.value]
    ensures HasChain(row) ==>
      r.descendants.Keys == tb.descendants.Keys + {row.id} + set a | a in row.ancestry.value
    ensures HasChain(row) ==> forall k :: (Members(r.descendants, k) ==
      Members(tb.descendants, k) + (if k == row.id || k in row.ancestry.value then {row.id} else {}))
  {
    if !HasChain(row) then tb
    else
      var t := row.id;
      var withSelf := tb.descendants[t := Members(tb.descendants, t) + {t}];
      Tables(tb.ancestries[t := row.ancestry.value], AddToEach(withSelf, row.ancestry.value, t))
  }

  /** The whole merge loop over the query's rows, in order. */
  function MergeRows(tb: Tables, rows: seq<AncestryRow>): Tables
    decreases |rows|
  {
    if rows == [] then tb else MergeRow(MergeRows(tb, rows[..|rows| - 1]), rows[|rows| - 1])
  }

  /** Merging a row keeps the index invariant. */
  lemma MergeRowConsistent(tb: Tables, row: AncestryRow)
    requires Consistent(tb)
    ensures Consistent(MergeRow(tb, row))
  {
  }

  /** Merging any rows keeps the index invariant. */
  lemma {:induction false} MergeRowsConsistent(tb: Tables, rows: seq<AncestryRow>)
    requires Consistent(tb)
    ensures Consistent(MergeRows(tb, rows))
    decreases |rows|
  {
    if rows != [] {
      MergeRowsConsistent(tb, rows[..|rows| - 1]);
      MergeRowConsistent(MergeRows(tb, rows[..|rows| - 1]), rows[|rows| - 1]);
    }
  }

  /** No merge removes a taxon from any descendant set. */
  lemma {:induction false} MergeRowsMonotone(tb: Tables, rows: seq<AncestryRow>)
    ensures forall k :: Members(tb.descendants, k) <= Members(MergeRows(tb, rows).descendants, k)
    decreases |rows|
  {
    if rows != [] {
      MergeRowsMonotone(tb, rows[..|rows| - 1]);
    }
  }

  /**
   * After the merge, every row with an ancestry has its taxon in its own
   * descendant set and in that of each id of its chain, and its taxon is cached.
   */
  lemma {:induction false} MergeRowsIndexes(tb: Tables, rows: seq<AncestryRow>, i: nat)
    requires i < |rows| && HasChain(rows[i])
    ensures rows[i].id in MergeRows(tb, rows).ancestries
    ensures rows[i].id in Members(MergeRows(tb, rows).descendants, rows[i].id)
    ensures forall a :: a in rows[i].ancestry.value ==> rows[i].id in Members(MergeRows(tb, rows).descendants, a)
    decreases |rows|
  {
    var init := rows[..|rows| - 1];
    if i < |rows| - 1 {
      assert init[i] == rows[i];
      MergeRowsIndexes(tb, init, i);
    }
  }

  /** The cached chain of a taxon is the ancestry of the last row for it that had one. */
  lemma {:induction false} MergeRowsLastWins(tb: Tables, rows: seq<AncestryRow>, i: nat)
    requires i < |rows| && HasChain(rows[i])
    requires forall j :: i < j < |rows| && rows[j].id == rows[i].id ==> !HasChain(rows[j])
    ensures rows[i].id in MergeRows(tb, rows).ancestries
    ensures MergeRows(tb, rows).ancestries[rows[i].id] == rows[i].ancestry.value
    decreases |rows|
  {
    var init := rows[..|rows| - 1];
    if i < |rows| - 1 {
      assert init[i] == rows[i];
      MergeRowsLastWins(tb, init, i);
    }
  }

  /** Two descendant tables with the same keys and the same sets are equal. */
  lemma SameMembersEqual(d1: map<int, set<int>>, d2: map<int, set<int>>)
    requires d1.Keys == d2.Keys
    requires forall k :: Members(d1, k) == Members(d2, k)
    ensures d1 == d2
  {
    forall k | k in d1 ensures d1[k] == d2[k] {
      assert Members(d1, k) == Members(d2, k);
    }
  }

  /** Re-merging a row that was just merged changes nothing. */
  lemma MergeRowIdempotent(tb: Tables, row: AncestryRow)
    ensures MergeRow(MergeRow(tb, row), row) == MergeRow(tb, row)
  {
    if HasChain(row) {
      var once := MergeRow(tb, row);
      var twice := MergeRow(once, row);
      SameMembersEqual(twice.descendants, once.descendants);
    }
  }

  /** The two tables as the class that owns them. */
  class TaxonIndex {
    var ancestries: map<int, seq<int>>
    var descendants: map<int, set<int>>

    function State(): Tables
      reads this
    {
      Tables(ancestries, descendants)
    }

    ghost predicate Valid()
      reads this
    {
      Consistent(State())
    }

    /** Both tables start empty (`= { }` at module load). */
    constructor ()
      ensures Valid()
      ensures ancestries == map[] && descendants == map[]
    {
      ancestries := map[];
      descendants := map[];
    }

    /** `!!TFServingTaxonAncestries[taxonID]`: whether the taxon's chain is cached. */
    function ModelContainsTaxonID(taxonID: int): (r: bool)
      reads this
      ensures r <==> taxonID in ancestries
      ensures Valid() && r ==> ancestries[taxonID] != [] && taxonID in Members(descendants, taxonID)
    {
      taxonID in ancestries
    }

    /** The ids whose cached chain is empty or missing (`_.isEmpty(TFServingTaxonAncestries[id])`). */
    function UncachedIDs(taxonIDs: seq<int>): (r: seq<int>)
      reads this
      ensures IsSubsequence(r, taxonIDs)
      ensures forall i :: 0 <= i < |r| ==> r[i] in taxonIDs
      ensures Valid() ==> forall i :: 0 <= i < |r| ==> !ModelContainsTaxonID(r[i])
      ensures Valid() ==> forall i :: 0 <= i < |taxonIDs| && !ModelContainsTaxonID(taxonIDs[i]) ==> taxonIDs[i] in r
    {
      var cached := ancestries;
      FilterIsSubsequence(taxonIDs, id => id !in cached || cached[id] == []);
      Filter(taxonIDs, id => id !in cached || cached[id] == [])
    }

    /** One iteration of the merge loop (lines 39-48). */
    method CacheRow(row: AncestryRow)
      modifies this
      ensures State() == MergeRow(old(State()), row)
    {
      if row.ancestry.Some? && row.ancestry.value != [] {
        var taxonID := row.id;
        var ancestors := row.ancestry.value;
        ancestries := ancestries[taxonID := ancestors];
        descendants := descendants[taxonID := Members(descendants, taxonID) + {taxonID}];
        ghost var withSelf := descendants;
        var j := 0;
        while j < |ancestors|
          invariant 0 <= j <= |ancestors|
          invariant ancestries == old(ancestries)[taxonID := ancestors]
          invariant descendants == AddToEach(withSelf, ancestors[..j], taxonID)
        {
          assert ancestors[..j + 1][..j] == ancestors[..j];
          var ancestorID := ancestors[j];
          descendants := descendants[ancestorID := Members(descendants, ancestorID) + {taxonID}];
          j := j + 1;
        }
        assert ancestors[..j] == ancestors;
      }
    }

    /** The merge loop of `cacheTaxonAncestries` over the rows of one query. */
    method CacheRows(rows: seq<AncestryRow>)
      requires Valid()
      modifies this
      ensures Valid()
      ensures State() == MergeRows(old(State()), rows)
    {
      ghost var start := State();
      var i := 0;
      while i < |rows|
        invariant 0 <= i <= |rows|
        invariant State() == MergeRows(start, rows[..i])
      {
        assert rows[..i + 1][..i] == rows[..i];
        CacheRow(rows[i]);
        i := i + 1;
      }
      assert rows[..i] == rows;
      MergeRowsConsistent(start, rows);
    }

    /**
     * `cacheTaxonAncestries(taxonIDs)`: nothing happens for an empty id list or
     * a failed query; otherwise the query's rows are merged. `query` stands for
     * the Postgres lookup.
     */
    method CacheTaxonAncestries(taxonIDs: seq<int>, query: seq<int> -> Option<seq<AncestryRow>>)
      requires Valid()
      modifies this
      ensures Valid()
      ensures taxonIDs == [] || query(taxonIDs).None? ==> State() == old(State())
      ensures taxonIDs != [] && query(taxonIDs).Some? ==>
        State() == MergeRows(old(State()), query(taxonIDs).value)
    {
      if taxonIDs == [] {
        return;
      }
      var result := query(taxonIDs);
      if result.None? {
        return;
      }
      CacheRows(result.value);
    }

    /** Lines 202-204: only the newly introduced ids that are not cached yet are looked up. */
    method CacheNewTaxonAncestries(newTaxonIDs: seq<int>, query: seq<int> -> Option<seq<AncestryRow>>)
      requires Valid()
      modifies this
      ensures Valid()
      ensures var ids := old(UncachedIDs(newTaxonIDs));
        if ids == [] || query(ids).None? then State() == old(State())
        else State() == MergeRows(old(State()), query(ids).value)
    {
      var newIDsToCache := UncachedIDs(newTaxonIDs);
      CacheTaxonAncestries(newIDsToCache, query);
    }
  }
}
