# Vision-score ranking and observation redaction

This project models, in Dafny, two cores of the iNaturalist API.

**1. The ranking of computer-vision scores.** `lib/controllers/v1/computervision_controller.js` covers:
- the process-wide taxon index: `TFServingTaxonAncestries` and `TFServingTaxonDescendants`, filled row by row from `(id, ancestry)` records;
- the candidate list of `scoreImageUpload`: positive counts, optionally restricted to the descendants of a requested taxon, sorted by count with `_.sortBy(...).reverse()`;
- `normalizeScores`;
- the common-ancestor search:
  - `commonAncestor`;
  - `commonAncestorByScore`, which builds the roots/children/summed-score forest;
  - `commonAncestorByScoreSub`, the descent;
- `scoreImageAfterFrequencies`, which blends the vision scores with nearby observation frequencies.

**2. Per-viewer redaction and v1.0 compatibility in `new Observation(attrs, options)`.** `lib/models/observation.js` covers:
- the derived fields: `obscured`, `votes`, `faves`;
- the `community_taxon` and `curator_coordinate_access` renames;
- `non_owner_ids`;
- the removal of the private coordinates;
- the filtering of spam-flagged comments;
- the removal of the aggregate fields.

How the model is built:
- **Counts** are `real`.
- **The taxon index** is a class, `AncestryIndex.TaxonIndex`, with two map fields updated in place.
- **In-place array code stays on arrays:**
  - `normalizeScores` rewrites an array prefix;
  - `commonAncestor` renormalises the first `window` entries of the caller's own array. The shallow `slice` aliases the entries, so the blend later reads the rescaled counts.
- **Dictionary loops stay loops:** `commonAncestorByScore`'s forest building and the blend's `taxonScores`/`frequencyScores`/`visionScores` are methods with loops. Each is proved equal to a specification function, and the specification functions carry the lemmas.
- **The observation** is a class `Observations.Observation`: its constructor runs the same sequence of field-updating methods as the source.

JavaScript details are modelled explicitly:
- `_.sortBy` is stable, so the `.reverse()` that follows puts equal counts in reverse input order.
- Object keys that are integers iterate in ascending order.
- `x || default` treats `0` as absent.
- Truthiness of JSON values is written out as the predicate `Truthy`.

Module layout, following the program:
- `Optional`, `SeqUtil` and `Sorting` are shared helpers: Option, `_.filter`, `_.find`, subsequences, and a stable sort with its reverse.
- `Scores`, `Candidates`, `AncestryIndex`, `AncestorForest`, `Descent`, `CommonAncestor`, `FrequencyBlend` and `Pipeline` model the controller.
- `Observations` models the observation class.

## Model

| member | source | states |
|---|---|---|
| AncestryIndex.AddToEach | lib/controllers/v1/computervision_controller.js:45-48 | the descendant table after tagging every ancestor of a chain: its keys gain the chain's ids and each ancestor's set gains exactly the taxon, other sets unchanged |
| AncestryIndex.MergeRow | lib/controllers/v1/computervision_controller.js:38-49 | a row with empty or missing ancestry leaves both tables unchanged; otherwise `ancestries[id]` becomes the split chain and exactly `id` and its ancestors gain `id` as a descendant |
| AncestryIndex.MergeRowsConsistent | lib/controllers/v1/computervision_controller.js:38-49 | merging any rows keeps the index consistent (every cached taxon is its own descendant and a descendant of each ancestor) |
| AncestryIndex.MergeRowsMonotone | lib/controllers/v1/computervision_controller.js:38-49 | no descendant membership is ever removed by a merge |
| AncestryIndex.MergeRowsIndexes | lib/controllers/v1/computervision_controller.js:38-49 | after the merge every row with a chain is cached, is its own descendant and is a descendant of every taxon of its chain |
| AncestryIndex.MergeRowsLastWins | lib/controllers/v1/computervision_controller.js:38-49 | when a taxon appears in several rows, `ancestries` holds the chain of the last row with a chain |
| AncestryIndex.MergeRowIdempotent | lib/controllers/v1/computervision_controller.js:38-49 | merging the same row twice equals merging it once |
| AncestryIndex.TaxonIndex.ModelContainsTaxonID | lib/controllers/v1/computervision_controller.js:493-495 | the index contains a taxon exactly when its chain is cached, as `!!` of an array is (even an empty one); in a consistent index that chain is non-empty and the taxon is its own descendant |
| AncestryIndex.TaxonIndex.UncachedIDs | lib/controllers/v1/computervision_controller.js:202-203 | an order-preserving subsequence of the new ids holding exactly those the index does not contain |
| AncestryIndex.TaxonIndex.CacheRow | lib/controllers/v1/computervision_controller.js:38-49 | the state after one row is the merge of that row into the old state |
| AncestryIndex.TaxonIndex.CacheRows | lib/controllers/v1/computervision_controller.js:38-49 | the state after a batch is the merge of all rows in order, and stays consistent |
| AncestryIndex.TaxonIndex.CacheTaxonAncestries | lib/controllers/v1/computervision_controller.js:27-52 | no ids or a failed query leave the index unchanged; otherwise the returned rows are merged |
| AncestryIndex.TaxonIndex.CacheNewTaxonAncestries | lib/controllers/v1/computervision_controller.js:202-206 | only the ids not yet cached are queried, and their rows merged |
| Sorting.SortByDesc | lib/controllers/v1/computervision_controller.js:222 | `_.sortBy(...).reverse()`: a permutation of the input, sorted non-increasing |
| Sorting.SortByDescTies | lib/controllers/v1/computervision_controller.js:222 | entries with equal keys come out in the reverse of their input order |
| Sorting.SortAscStable | lib/controllers/v1/computervision_controller.js:222 | `_.sortBy` is stable: equal keys keep their input order |
| Scores.NormalizedSum | lib/controllers/v1/computervision_controller.js:486-491 | a list with a non-zero sum is rescaled to sum to 100 |
| Scores.NormalizedEntry | lib/controllers/v1/computervision_controller.js:486-491 | every count is multiplied by the one factor 100/sum and nothing else about an entry changes |
| Scores.NormalizedKeepsOrder | lib/controllers/v1/computervision_controller.js:486-491 | with a positive sum, relative order and ratios of counts are preserved |
| Scores.NormalizedSorted | lib/controllers/v1/computervision_controller.js:486-491 | a list sorted by count stays sorted after normalising |
| Scores.NormalizedPositive | lib/controllers/v1/computervision_controller.js:486-491 | positive counts can always be normalised and stay positive |
| Scores.NormalizedIdempotent | lib/controllers/v1/computervision_controller.js:486-491 | normalising an already normalised list changes nothing |
| Scores.NormalizeScores | lib/controllers/v1/computervision_controller.js:486-491 | the array prefix is replaced by its normalised copy in place; the entries after it are untouched |
| Candidates.PrepareCandidates | lib/controllers/v1/computervision_controller.js:215-222 | None exactly when the target taxon is unknown; otherwise a permutation of the kept entries holding exactly the positive-count inputs in the target's descendants, sorted non-increasing |
| Candidates.KeptIsSubsequence | lib/controllers/v1/computervision_controller.js:215-221 | the filtered list is an order-preserving subsequence of the classifier's scores |
| Candidates.CandidateTies | lib/controllers/v1/computervision_controller.js:222 | candidates with equal counts come out in reverse input order |
| Candidates.CandidatesPositive | lib/controllers/v1/computervision_controller.js:215 | every candidate has a positive count |
| AncestorForest.Chain | lib/controllers/v1/computervision_controller.js:401-402 | a result's chain is its ancestors followed by the taxon itself |
| AncestorForest.BuildCounts | lib/controllers/v1/computervision_controller.js:396-414 | `ancestorCounts[t]` is the reference sum of each result's vision score over the positions of `t` on its chain; results without ancestors add nothing |
| AncestorForest.BuildKeys | lib/controllers/v1/computervision_controller.js:396-414 | `ancestorCounts` has an entry for exactly the taxa on some result's chain |
| AncestorForest.BuildRecords | lib/controllers/v1/computervision_controller.js:402-412 | a chain's first taxon is a root and each later taxon is a child of its predecessor |
| AncestorForest.BuildCountsContaining | lib/controllers/v1/computervision_controller.js:396-414 | with consistent chain positions, `ancestorCounts[t]` is the summed vision score of the results whose chain contains `t` |
| Descent.AddChain | lib/controllers/v1/computervision_controller.js:402-412 | the dictionaries after one result's loop equal the forest with that chain added |
| Descent.BuildForest | lib/controllers/v1/computervision_controller.js:396-414 | the three dictionaries equal the reference forest of all results |
| Descent.ResolveQualifies | lib/controllers/v1/computervision_controller.js:425-438 | the descent returns its starting point or a taxon whose summed score reaches the threshold |
| Descent.ResolveKeepsTaxon | lib/controllers/v1/computervision_controller.js:425-438 | below the top level the descent never loses the current taxon |
| Descent.TopRootOnly | lib/controllers/v1/computervision_controller.js:428-431 | at the top level only the highest-sorted root is tried: none when it is below the threshold, otherwise the descent from it |
| Descent.LastQualifyingWins | lib/controllers/v1/computervision_controller.js:430-436 | below a non-genus taxon, the last child in descending-score order that reaches the threshold decides the result |
| Descent.NoQualifyingChild | lib/controllers/v1/computervision_controller.js:427-437 | when no child reaches the threshold the current taxon is returned |
| Descent.CommonAncestorByScoreSub | lib/controllers/v1/computervision_controller.js:425-438 | the recursive method computes the descent; a genus is returned without looking at its children |
| Descent.VisitCandidates | lib/controllers/v1/computervision_controller.js:427-437 | the loop over the sorted children computes the overwrite-each-time scan |
| Descent.CommonAncestorOfSpec | lib/controllers/v1/computervision_controller.js:395-423 | a found ancestor scores at least the threshold and its score is the summed score of the results containing it; none exactly when there is no root or the top root is below the threshold |
| Descent.CommonAncestorByScore | lib/controllers/v1/computervision_controller.js:395-423 | the method's result equals the reference common ancestor |
| CommonAncestor.Window | lib/controllers/v1/computervision_controller.js:327 | the window is `min(ancestor_window, |scores|)` for a positive field and `min(10, |scores|)` when the field is unset; a negative field counts from the end as `slice` does |
| CommonAncestor.AddTaxa | lib/controllers/v1/computervision_controller.js:336-341 | every window score whose taxon the lookup knows becomes a result with that taxon and its count as `vision_score` |
| CommonAncestor.CommonAncestorForSpec | lib/controllers/v1/computervision_controller.js:323-350 | nothing when frequencies are skipped; a found ancestor has a rank level within the cutoff (33 by default), a score of at least the threshold (92 by default), and a score equal to the summed score of the window results containing it |
| CommonAncestor.ComputeCommonAncestor | lib/controllers/v1/computervision_controller.js:323-351 | returns the reference ancestor; with skip the array is untouched, otherwise exactly its first `window` entries are renormalised in place |
| FrequencyBlend.InAncestorMembers | lib/controllers/v1/computervision_controller.js:241-249 | the in-ancestor list holds exactly the nearby results whose ancestors include the common ancestor |
| FrequencyBlend.UnrelatedMembers | lib/controllers/v1/computervision_controller.js:241-249 | the unrelated set holds exactly the ids of the other nearby results |
| FrequencyBlend.SharesEntry | lib/controllers/v1/computervision_controller.js:254-258 | each in-ancestor taxon's share is its count over the summed count |
| FrequencyBlend.SharesSumToOne | lib/controllers/v1/computervision_controller.js:250-258 | the in-ancestor frequency shares sum to 1 |
| FrequencyBlend.CombineVisionEntry | lib/controllers/v1/computervision_controller.js:259-265 | a vision taxon with a share scores share × count/100; one without scores count/100 × the prior 1/(max(1, n) × 100) |
| FrequencyBlend.TopScoresKeys | lib/controllers/v1/computervision_controller.js:266-273 | one entry per combined taxon, in ascending id order |
| FrequencyBlend.TopScoresVision | lib/controllers/v1/computervision_controller.js:259-273 | a vision taxon's entry keeps its vision score and gets the share or prior formula |
| FrequencyBlend.TopScoresNearby | lib/controllers/v1/computervision_controller.js:266-273 | a frequency-only taxon gets vision score 0 and its share × 1/|scores| |
| FrequencyBlend.TopScoresFrequency | lib/controllers/v1/computervision_controller.js:266-273 | each entry's frequency score is its share × 100, or 0 without one |
| FrequencyBlend.UnsortedKeys | lib/controllers/v1/computervision_controller.js:239-273 | the blended list lists exactly the in-ancestor nearby taxa and every vision taxon |
| FrequencyBlend.RankedOrder | lib/controllers/v1/computervision_controller.js:274-275 | the ranked list is sorted non-increasing, positive, and sums to 100 |
| FrequencyBlend.RankedEntries | lib/controllers/v1/computervision_controller.js:274-275 | the ranked list is the blend reordered with every count scaled by 100/sum: each entry occurs in the ranked list exactly as often as in the rescaled blend |
| FrequencyBlend.MarkedSpec | lib/controllers/v1/computervision_controller.js:276-282 | marking changes only frequency scores: exactly the unrelated taxa (and those already at it) get 1e-9; sums and order are kept |
| FrequencyBlend.RankedResponse | lib/controllers/v1/computervision_controller.js:274-285 | the response has `min(per_page, n)` entries, sorted, positive, summing to 100 when untruncated, unrelated taxa marked |
| FrequencyBlend.BlendSpec | lib/controllers/v1/computervision_controller.js:238-291 | with nearby results, the response of RankedResponse over the blend; without, the first `per_page` scores unchanged in order, each with `vision_score = count` |
| FrequencyBlend.PartitionNearby | lib/controllers/v1/computervision_controller.js:241-249 | the loop computes the in-ancestor list and the unrelated ids |
| FrequencyBlend.SumNearbyCounts | lib/controllers/v1/computervision_controller.js:251-253 | the loop computes the summed nearby count |
| FrequencyBlend.ShareScores | lib/controllers/v1/computervision_controller.js:254-258 | both dictionaries start out as the shares |
| FrequencyBlend.CombineVision | lib/controllers/v1/computervision_controller.js:259-265 | the loop computes the vision map and the combined scores |
| FrequencyBlend.TopEntry | lib/controllers/v1/computervision_controller.js:267-272 | one entry of `topScores` |
| FrequencyBlend.BuildTopScores | lib/controllers/v1/computervision_controller.js:266-273 | the loop over the keys computes `topScores` |
| FrequencyBlend.NearbyTopScores | lib/controllers/v1/computervision_controller.js:239-273 | the unsorted blend and the unrelated ids |
| FrequencyBlend.MarkUnrelated | lib/controllers/v1/computervision_controller.js:276-282 | marks the array in place |
| FrequencyBlend.SetVisionScores | lib/controllers/v1/computervision_controller.js:287-288 | sets `vision_score` in place |
| FrequencyBlend.NormalizedCopy | lib/controllers/v1/computervision_controller.js:274-275 | a fresh array holding the normalised list |
| FrequencyBlend.RankAndMark | lib/controllers/v1/computervision_controller.js:274-285 | sort, normalise, mark and cut to `per_page` |
| FrequencyBlend.ScoreImageAfterFrequencies | lib/controllers/v1/computervision_controller.js:238-291 | the method's response equals the reference blend |
| Pipeline.WindowRescaleSorted | lib/controllers/v1/computervision_controller.js:327-335 | rescaling the window of a sorted, positive list that sums to 100 multiplies it by a factor of at least 1, so the list stays sorted |
| Pipeline.UploadResponseSpec | lib/controllers/v1/computervision_controller.js:211-236 | the upload's response is empty exactly for an unknown target taxon; otherwise at most `per_page` positive entries sorted by count |
| Pipeline.VisionOnlyWindowSum | lib/controllers/v1/computervision_controller.js:223-235 | without nearby results, the first `window` entries of the response sum to 100 on their own, because the window was rescaled in the caller's list |
| Pipeline.AncestorPass | lib/controllers/v1/computervision_controller.js:223-226 | the list the blend reads is the normalised candidates with the window rescaled again, and the ancestor is the reference one |
| Pipeline.RankCandidates | lib/controllers/v1/computervision_controller.js:223-235 | the response for a positive candidate list |
| Pipeline.ScoreImageUpload | lib/controllers/v1/computervision_controller.js:211-236 | the method's response equals the reference response |
| Observations.WithoutAggregates | lib/models/observation.js:27-33 | exactly the seven aggregate fields are removed; every other field keeps its value |
| Observations.FavesSpec | lib/models/observation.js:19-21 | the faves are exactly the votes without a scope, as an order-preserving subsequence |
| Observations.RenameKey | lib/models/observation.js:38-41 | the value moves to the new key and the old key disappears; other keys are unchanged; a map without the key is returned as is |
| Observations.NonOwnerIdentifications | lib/models/observation.js:44 | exactly the identifications made by someone other than the observer, in order |
| Observations.NonOwnerIds | lib/models/observation.js:43-45 | a non-empty `non_owner_ids` stays; an empty one becomes the non-owner identifications |
| Observations.RenameCuratorAccessSpec | lib/models/observation.js:48-59 | every project observation loses `curator_coordinate_access` and carries its value as `allows_curator_coordinate_access`; those without it are unchanged |
| Observations.CuratorAccessAfterRename | lib/models/observation.js:52-55 | after the rename, curator access is decided by the old key when present, else by the new one |
| Observations.VisibleGeo | lib/models/observation.js:79-84 | the four private fields go unless the viewer may see them; nothing else changes |
| Observations.GeoVisibility | lib/models/observation.js:61-85 | the viewer may see the coordinates exactly when signed in and the observer, or a curator of a project whose project observation allows curator access |
| Observations.PrivateFieldVisibility | lib/models/observation.js:61-85 | a private field survives exactly when present and the viewer may see the coordinates; without a session it never survives |
| Observations.VisibleCommentsSpec | lib/models/observation.js:87-102 | admins and curators keep every comment; anyone else keeps exactly the comments without an unresolved spam flag raised by someone else, in order |
| Observations.AnonymousSeesNoSpam | lib/models/observation.js:93-99 | without a session every spam flag on a kept comment is resolved |
| Observations.FlaggerSeesOwnFlags | lib/models/observation.js:93-99 | a comment whose unresolved spam flags are all the viewer's own stays visible |
| Observations.VisibleCommentsIdempotent | lib/models/observation.js:87-102 | filtering the comments twice for the same viewer changes nothing |
| Observations.Observation.constructor | lib/models/observation.js:15-34 | every field after construction: `obscured` from the original record, `votes` defaulting to empty, the faves, both renames, `non_owner_ids`, geo redaction decided on the renamed project observations, the visible comments and the aggregate fields removed |
| Observations.Observation.UpgradeForV1 | lib/models/observation.js:23-24 | the two v1.0 compatibility steps |
| Observations.Observation.RedactForViewer | lib/models/observation.js:25-33 | geo and comment redaction followed by the aggregate deletions |
| Observations.Observation.MakeBackwardsCompatible | lib/models/observation.js:36-46 | preferences renamed and `non_owner_ids` derived, nothing else changed |
| Observations.Observation.SetProjectObservationPreferences | lib/models/observation.js:48-59 | the loop renames the key in every project observation |
| Observations.Observation.RemoveUnviewableGeo | lib/models/observation.js:61-85 | the private fields are removed unless the viewer may see them |
| Observations.Observation.RemoveUnviewableComments | lib/models/observation.js:87-102 | the comments are replaced by the visible ones |

## Left out

- HTTP, authentication and session plumbing (`scoreObservation`, `scoreImageURL`, `scoreImage`), the image download, and the multipart POST to the classifier with its timeout: these are network I/O. The classifier's scores are an input.
- `replaceInactiveTaxaCounts` is not part of this model: its output is the input score list.
- The Postgres query of `cacheTaxonAncestries`, the startup file load and its `setTimeout` chunking: these are I/O and timers. The query is a function parameter returning rows or a failure, and only the per-row merge is modelled.
- `FileCache` reads and writes and the frequency cache key: these are a wrapper over a module not shown.
- `addTaxa`'s Elasticsearch lookup: the taxon details (ancestors, rank, rank level) are an input map.
- `nearbyTaxonFrequencies` and its `moment` date window: the nearby results are an input.
- `scoreImageResponse` and `InaturalistAPI.setPerPage`: these are response formatting and request parsing. `per_page` is an input.
- Callback sequencing and concurrent access to the shared tables: the model is sequential.
- Counts are mathematical reals, not IEEE doubles: rounding and the NaN from a zero-sum divide are not modelled, and normalising requires a non-zero sum or an empty list.
- The `inCommonAncestor` flag is not modelled. Line 244 sets it on each nearby result under the common ancestor, and nothing reads it afterwards: the response is built from the fresh `topScores` entries of lines 266-273.
- Descent.CommonAncestorByScore: requires every taxon id to sit at one chain position across all results. This holds for chains taken from one taxonomy tree and gives the descent its termination measure. Inputs that break it are not covered.
- FrequencyBlend.ScoreImageAfterFrequencies: requires positive vision counts (guaranteed by the filter at line 215) and positive nearby counts, and, for an empty score list, no nearby result under the common ancestor. Without these the source divides by zero, giving IEEE infinities or NaN. The per-entry lemmas (SharesEntry, CombineVisionEntry, TopScoresVision) also assume distinct taxon ids.
- `util.preferencesToHash` is not part of this model: the preferences arrive as an already-built map.
- Identifications and project observations are taken to have their `user` and `preferences` fields. The TypeError the source raises on a missing one is not modelled. An absent `project_observations` is read as an empty list.
- Project observations are values, so two observations sharing one project-observation object are not modelled.
- `Observation.preloadInto` and the other `preload*` methods: these are Elasticsearch and database fetches.
- Observations.NonOwnerIds and Observations.Observation.constructor: require the observation's own `user` whenever `non_owner_ids` is empty and there are identifications. Line 44 then reads `this.user.id`, and the TypeError the source raises for an observation without a user is not modelled.
- Descent.CommonAncestorByScore: the source's descent recurses without end when the `children` links form a cycle, which chains from one taxonomy tree never do. The position requirement above excludes such inputs, so the non-terminating case is not modelled.
- The callback handling of `cacheTaxonAncestries` is not modelled. Line 36 calls `callback()` without the `if ( callback )` guard of lines 29 and 50, and the startup load at line 64 passes no callback, so a failed query there would raise a TypeError. The model treats a failed query as leaving the index unchanged.
- FrequencyBlend: every nearby result carries a taxon. The `else if ( r.taxon )` test of line 246, which leaves a result without a taxon out of the unrelated set, therefore has no counterpart.
