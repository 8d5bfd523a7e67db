# LineageKit lineage core in Dafny

LineageKit records a column-level lineage graph while a pandas pipeline
runs. Each process has one `LineageTracker` with its own run id. The
`@transform` decorator registers the input and output datasets, their
columns and column statistics, a transform node, and edges from input
columns into the transform and from the transform into output columns. A
later session compares the column statistics of two runs (`detect_changes`)
and walks one run's column edges from a changed column, ranking every
reached node by severity (`impact_bfs`). The `impact` command lists those
hits. The `guard` command fails when some detected change reaches a
threshold severity.

This project models that core and proves what it does:

- `text.dfy` (module `Text`) holds string helpers: decimal rendering, `|`-joins and `sorted()` over strings.
- `identity.dfy` (module `Identity`) holds the content-derived ids `_get_id`, `_col_id` and `_params_hash`. SHA-1 is a function parameter.
- `ordered_dict.dfy` (module `OrderedDicts`) holds Python's insertion-ordered `dict`: `d[k] = v`, `d.values()` and `{**a, **b}`.
- `tracker.dfy` (module `Tracker`) holds the node, edge and statistics records and the `LineageTracker` class. Its methods update the fields in place. `State()` is the abstract graph they are specified against.
- `transform.py` is modelled by `transform.dfy` (module `Transforms`), which covers one call of the `@transform` wrapper. This includes finding the input frame, `_ensure_dataset_node_from_df`, `_stats_for`, the merged rename map, the inferred passthrough and the three edge loops.
- `severity.dfy` (module `Severities`) holds the severity levels and `SEV_RANK`.
- `store.py` is modelled by `store.dfy` (module `Store`). It covers `load_stats`, `rel` and the key loop of `detect_changes`, plus `latest_run_id`.
- `impact.py` is modelled by `impact.dfy` (module `Impact`), which covers `severity_for` and `impact_bfs`. The breadth-first walk has its own termination measure and the invariant that proves what its hits mean.
- `cli.dfy` (module `Cli`) holds the decision logic of the `impact` and `guard` commands.

The tables of the SQLite database appear as sequences of rows in table
order. The clock, the SHA-1 digest, `repr` and the static source analysis
enter as parameters.

## Behaviour as written

These properties of the code are modelled as they are, not as the design
intends them:

- The derive loop of the wrapper walks `eff_derives`, which is built from the two rename maps (lineagekit/transform.py:70). The declared `derives` therefore create no edges; they only enter the parameter hash. For each rename entry `old -> new`, the loop adds an edge into the output column named `old`. It also adds one edge from each input column whose name is a single character of `new`, because line 108 iterates a string.
- `detect_changes` names a column `"<dataset id>|<column>"` (lineagekit/store.py:181). The edge tables name columns by their 16-character hashed ids (lineagekit/lineage_tracker.py:86-87). `guard` passes the former to `impact_bfs`, so unless an edge id happens to contain `|`, no detected change has impact hits and `guard` never fails (`Cli.HashedIdsNeverFail`).
- `impact_bfs` loads an empty tag list for every transform (lineagekit/impact.py:22-28). A change type other than `schema_drop` or `type_change` therefore always has severity LOW and reports nothing (`Impact.RunImpact`).
- `impact_bfs` reports a node again each time its severity rises, not once per first visit. Output columns of a transform are examined even when the transform itself was not raised.
- Column nodes, edges and statistics rows are appended without deduplication. Only datasets and transforms are keyed by id.

## Model

| member | source | states |
|---|---|---|
| Identity.GetId | lineagekit/lineage_tracker.py:82-84 | the id is the digest's first 16 characters (all of it when shorter) of the parts joined by the separator character |
| Identity.SameKeySameId | lineagekit/lineage_tracker.py:82-84 | part lists that join to the same key get the same id |
| Identity.MissingIsEmpty | lineagekit/lineage_tracker.py:83 | a `None` part and an empty part give the same id |
| Identity.KeyUnambiguous | lineagekit/lineage_tracker.py:83 | with no separator inside the parts, equal keys mean equal (normalised) parts, so different parts collide only through the digest |
| Identity.ColId | lineagekit/lineage_tracker.py:86-87 | a column id is the 16-character prefix of the digest of the dataset id, the separator and the column name: it depends on the dataset id and column name only |
| Identity.ColumnKeyUnambiguous | lineagekit/lineage_tracker.py:86-87 | for separator-free names the column key determines the dataset id and the column |
| Identity.ParamsHash | lineagekit/lineage_tracker.py:89-90 | the parameter hash is the first 12 characters (all when shorter) of the digest of the rendered configuration |
| Text.NatToStringInjective | lineagekit/lineage_tracker.py:131 | different seconds render as different decimal strings |
| Text.SortedDistinct | lineagekit/transform.py:74-77 | `sorted(set)`: strictly increasing in Python's string order, with exactly the given names |
| Text.StrictlySortedUnique | lineagekit/transform.py:74-77 | two strictly sorted lists with the same elements are equal, so the sorted passthrough is determined by its set |
| OrderedDicts.Dict.Put | lineagekit/lineage_tracker.py:141-142 | `d[k] = v`: the entry for `k` becomes `v`, others unchanged; a new key is listed last, an existing one keeps its place |
| OrderedDicts.Dict.Values | lineagekit/lineage_tracker.py:166 | `d.values()` lists one value per key, in key order |
| OrderedDicts.PutIdempotent | lineagekit/lineage_tracker.py:147-148 | putting the same entry twice is putting it once |
| OrderedDicts.PutOverwrites | lineagekit/lineage_tracker.py:141-142 | a second put of a key replaces the first value |
| OrderedDicts.ValuesAfterPut | lineagekit/lineage_tracker.py:166-168 | after a put, the value list gains the new value at the end, or has it replaced at the key's position |
| OrderedDicts.ValuesCount | lineagekit/lineage_tracker.py:166-168 | the value list has one entry per distinct key |
| OrderedDicts.Merge | lineagekit/transform.py:69 | `{**a, **b}`: keys of both, `b` wins on shared keys, `a`'s other entries kept, `a`'s keys first then `b`'s new keys in order |
| OrderedDicts.MergeIntoEmpty | lineagekit/transform.py:69 | merging into an empty dict gives the second dict |
| Tracker.RunIdAt | lineagekit/lineage_tracker.py:131 | the run id starts with `run_` |
| Tracker.RunIdsDistinct | lineagekit/lineage_tracker.py:131 | trackers started in different seconds get different run ids |
| Tracker.LineageTracker.constructor | lineagekit/lineage_tracker.py:130-139 | run id from the clock, every collection empty |
| Tracker.LineageTracker.InsertDataset | lineagekit/lineage_tracker.py:141-142 | insert or replace by id, nothing else changes |
| Tracker.LineageTracker.InsertColumns | lineagekit/lineage_tracker.py:144-145 | the batch is appended in order to `columns`, nothing else changes |
| Tracker.LineageTracker.InsertTransform | lineagekit/lineage_tracker.py:147-148 | insert or replace by id, nothing else changes |
| Tracker.LineageTracker.InsertColToTransform | lineagekit/lineage_tracker.py:150-151 | the batch is appended to the column-to-transform edges only |
| Tracker.LineageTracker.InsertTransformToCol | lineagekit/lineage_tracker.py:153-154 | the batch is appended to the transform-to-column edges only |
| Tracker.LineageTracker.InsertDatasetToTransform | lineagekit/lineage_tracker.py:156-157 | the batch is appended to the dataset-to-transform edges only |
| Tracker.LineageTracker.InsertTransformToDataset | lineagekit/lineage_tracker.py:159-160 | the batch is appended to the transform-to-dataset edges only |
| Tracker.LineageTracker.AppendStats | lineagekit/lineage_tracker.py:124-127 | statistics rows are appended in order, nothing else changes |
| Tracker.LineageTracker.ExportJson | lineagekit/lineage_tracker.py:162-176 | the export is the tracker's run id with its collections in order, as `Export` of the tracker's state |
| Tracker.ExportAfterDataset | lineagekit/lineage_tracker.py:141-142 | after registering a dataset the export lists one entry per distinct id: a new id last, an existing id replaced in place, all else unchanged |
| Tracker.ExportAfterTransform | lineagekit/lineage_tracker.py:147-148 | the same for transforms |
| Tracker.TransformTwiceIsOnce | lineagekit/lineage_tracker.py:147-148 | registering the same transform twice equals registering it once |
| Tracker.EdgesAppendedTwice | lineagekit/lineage_tracker.py:150-154 | two successive appends to the column edge lists are one append of the concatenations |
| Transforms.FirstFrame | lineagekit/transform.py:27-33 | no frame among the arguments exactly when every argument is a non-frame; otherwise the first frame argument |
| Transforms.FindFrame | lineagekit/transform.py:27-31 | the loop returns the first frame argument |
| Transforms.KeyKindsDistinct | lineagekit/transform.py:81 | the keys of a transform, an output dataset and an anonymous input never coincide |
| Transforms.ColumnNames | lineagekit/transform.py:73 | the frame's column names in order |
| Transforms.ColumnNodes | lineagekit/transform.py:53-58 | one column node per frame column, in order, with the column id, dtype, dataset and run |
| Transforms.EnsureInput | lineagekit/lineage_tracker.py:92-110 | a frame with a non-empty id attribute is returned as is with the graph unchanged; otherwise the id is `_get_id("anon", fallback)`, that id holds a temporary `<runtime>` dataset at line 0 with the frame's length, the frame's column nodes are appended, the id is listed last among the dataset keys unless it was already present (then the key order is kept), and no other dataset, transform, edge or statistics row changes |
| Transforms.EnsureDatasetNode | lineagekit/lineage_tracker.py:92-110 | the tracker ends in `EnsureInput`'s graph and returns its id |
| Transforms.StatsRow | lineagekit/lineage_tracker.py:113-127 | numeric columns get mean (if any value) and deviation (if two or more) and no top value; other columns get the top value and no moments; counts always |
| Transforms.StatsRows | lineagekit/lineage_tracker.py:113 | one statistics row per column, in column order |
| Transforms.RecordStats | lineagekit/lineage_tracker.py:112-127 | `_stats_for` appends exactly those rows to the tracker's statistics |
| Transforms.StaticRename | lineagekit/transform.py:63-67 | the analysed rename map when the analysis succeeded, the empty map when it raised |
| Transforms.EffRename | lineagekit/transform.py:69 | the effective rename map has the keys of both maps; a declared entry overrides an analysed one, other analysed entries are kept |
| Transforms.EffRenameWithoutHints | lineagekit/transform.py:69 | without analysed renames the effective map is the declared one |
| Transforms.Filter | lineagekit/transform.py:73-77 | keeps exactly the input columns also in the output and not in the rename map |
| Transforms.InferPassthrough | lineagekit/transform.py:72-79 | a given list is used unchanged; otherwise the passthrough is strictly sorted and holds exactly the common columns not renamed |
| Transforms.InEdgesAt | lineagekit/transform.py:94-96 | the `i`-th in-edge runs from `_col_id(ds, names[i])` into the transform |
| Transforms.OutEdgesAt | lineagekit/transform.py:95-97 | the `i`-th out-edge runs from the transform to `_col_id(ds, names[i])` |
| Transforms.CharNames | lineagekit/transform.py:108 | iterating a string yields its one-character strings |
| Transforms.DeriveInEdgesCount | lineagekit/transform.py:105-110 | the derive loop adds one in-edge per character of the map's values |
| Transforms.DeriveInEdgesFromCharacters | lineagekit/transform.py:108-110 | every character of every value gives an edge from the column named by that character |
| Transforms.DeriveInEdgesOnlyFromCharacters | lineagekit/transform.py:108-110 | every derive in-edge comes from such a one-character column and carries the transform and run |
| Transforms.EmitPair | lineagekit/transform.py:96-97 | one passthrough or rename iteration appends one in-edge and one out-edge |
| Transforms.EmitPassthrough | lineagekit/transform.py:93-97 | the passthrough loop appends the in- and out-edges of every passthrough column, in order |
| Transforms.EmitRenames | lineagekit/transform.py:99-103 | the rename loop appends `old -> tr` and `tr -> new` for every entry, in order |
| Transforms.EmitDerives | lineagekit/transform.py:105-110 | the derive loop appends an out-edge per key and the character in-edges per value |
| Transforms.EmitCharacterEdges | lineagekit/transform.py:108-110 | the inner loop appends one in-edge per character |
| Transforms.RegisterOutput | lineagekit/transform.py:41-61 | the output dataset, its columns and statistics are registered under `_get_id("ds", produces, file, line)` |
| Transforms.RegisterTransform | lineagekit/transform.py:81-91 | the transform node and its two dataset edges are registered under `_get_id("tr", name, file, line, p_hash)` |
| Transforms.EmitColumnEdges | lineagekit/transform.py:93-110 | the three loops append exactly the planned in- and out-edges |
| Transforms.Wrapper | lineagekit/transform.py:24-112 | one call leaves the tracker in `AfterCall`'s graph with its outcome; the passthrough is inferred from the input frame's columns as they are after the function returned |
| Transforms.PlanCounts | lineagekit/transform.py:93-110 | in-edges: one per passthrough, one per rename, one per character of new names; out-edges: one per passthrough, two per rename |
| Transforms.PassthroughLineage | lineagekit/transform.py:93-97 | each passthrough column is linked from its input column into the transform and from the transform to its output column |
| Transforms.RenameLineage | lineagekit/transform.py:99-103 | each rename `old -> new` links input `old` into the transform and the transform to output `new` |
| Transforms.DeriveLineageAsWritten | lineagekit/transform.py:105-110 | each rename entry also links the transform to output `old` and each character of `new` into the transform |
| Transforms.PlanInSources | lineagekit/transform.py:93-110 | every in-edge carries the transform and run and starts at a passthrough column, a renamed column or a one-character name |
| Transforms.PlanOutTargets | lineagekit/transform.py:93-110 | every out-edge carries the transform and run and ends at a passthrough column, a rename key or a rename value |
| Transforms.DerivedColumnUnlinked | lineagekit/transform.py:70 | a declared derived column whose id differs from those of the passthrough columns and the rename keys and values gets no edge |
| Transforms.IdsIndependentOfRun | lineagekit/transform.py:41-91 | the ids a call reports depend on neither the run, the clock nor the earlier graph |
| Transforms.EarlyExits | lineagekit/transform.py:27-39 | no frame argument records nothing; a non-frame result records only the input dataset (nothing when it already has an id) |
| Transforms.PassthroughAfterCall | lineagekit/transform.py:72-77 | with no declared passthrough, a column shared by the output and the input frame as it is after the call, and not renamed, is linked in and out, including a column the function added to its argument in place |
| Transforms.RecordedCall | lineagekit/transform.py:41-91 | a recorded call registers its output and transform, ends both dataset edge lists with its edges, all carrying the run id |
| Severities.Level.Rank | lineagekit/impact.py:4 | every level ranks between 1 and 4 |
| Severities.RankOfName | lineagekit/impact.py:4 | `SEV_RANK[name]` is the level's rank for a level name and missing otherwise |
| Severities.LevelOfName | lineagekit/impact.py:4 | a name stands for the level with that name |
| Severities.RankOrder | lineagekit/impact.py:4 | LOW < MEDIUM < HIGH < CRITICAL, and a rank names one level |
| Impact.SeverityFor | lineagekit/impact.py:6-9 | CRITICAL exactly for schema_drop/type_change; LOW exactly when neither critical nor tagged agg/model/sklearn; never HIGH |
| Impact.OfferGrows | lineagekit/impact.py:39-48 | an offer never lowers any node's best severity, and leaves the offered node at least at the offered severity |
| Impact.OfferProgress | lineagekit/impact.py:39-48 | a node is queued only when its rank strictly rises, which closes a severity step |
| Impact.VisitTransform | lineagekit/impact.py:38-48 | one transform is offered, then each of its output columns, whether or not the transform rose |
| Impact.ExpandNode | lineagekit/impact.py:37-48 | expanding a node visits every transform it feeds, in order |
| Impact.Propagate | lineagekit/impact.py:30-48 | the `while q` loop terminates and returns the walk's hits |
| Impact.WalkHits | lineagekit/impact.py:30-48 | hits per node rise strictly and are above LOW; every hit is a transform fed by a reached node or a column it produces, with that transform's severity, at least one step from the start; for a critical type every such node is reported CRITICAL |
| Impact.JustifiedReachable | lineagekit/impact.py:37-48 | every hit lies at least one step from the start |
| Impact.CriticalOnce | lineagekit/impact.py:39-48 | for a critical change type each node is reported once |
| Impact.UntaggedQuiet | lineagekit/impact.py:38-42 | without tags a non-critical change type reports nothing |
| Impact.NoFeedsQuiet | lineagekit/impact.py:37 | a start column that feeds no transform reports nothing |
| Impact.LastRank | lineagekit/impact.py:39-48 | the rank of a node's last hit, attained by some hit |
| Impact.AtMostThree | lineagekit/impact.py:39-48 | with rising severities above LOW a node is reported at most three times |
| Impact.ColToTrPairs | lineagekit/impact.py:15 | the selected pairs are exactly the run's column-to-transform edges |
| Impact.TrToColPairs | lineagekit/impact.py:18 | the selected pairs are exactly the run's transform-to-column edges |
| Impact.SecondsOf | lineagekit/impact.py:16-20 | a node's list holds exactly what it was paired with |
| Impact.GroupedLists | lineagekit/impact.py:16-20 | the `defaultdict(list)` holds, per key, its partners in order, and only keys that were paired |
| Impact.Group | lineagekit/impact.py:16-20 | the append loop builds that adjacency |
| Impact.LoadedTags | lineagekit/impact.py:22-28 | the tag map has exactly the run's transforms |
| Impact.LoadTags | lineagekit/impact.py:22-28 | every transform of the run gets an empty tag list |
| Impact.RunGraphEdges | lineagekit/impact.py:15-20 | the walk's steps are exactly the run's edges |
| Impact.RunGraphUntagged | lineagekit/impact.py:22-28 | no transform of a loaded run is tagged |
| Impact.ImpactBfs | lineagekit/impact.py:11-51 | `impact_bfs` returns the walk's hits over the run's edges and loaded tags |
| Impact.RunImpact | lineagekit/impact.py:11-51 | non-critical types report nothing; critical types report every node one or more steps away, once each, CRITICAL; no node more than three times; a start without edges reports nothing |
| Store.LoadStats | lineagekit/store.py:166-173 | `load_stats` files the run's rows by key, a later row replacing an earlier one |
| Store.LoadedKeys | lineagekit/store.py:166-173 | a key is loaded exactly when a row of the run carries it |
| Store.LoadedLastWins | lineagekit/store.py:170-172 | a loaded key holds the run's last row with that key |
| Store.LoadedWellFiled | lineagekit/store.py:172 | each loaded row belongs to the run and is filed under its own key |
| Store.Abs | lineagekit/store.py:207 | `abs` is non-negative and is `x` or `-x` |
| Store.Rel | lineagekit/store.py:206-207 | `rel` is non-negative, zero exactly when nothing moved, and the absolute change when the old value is within `1e-9` of zero |
| Store.NullFraction | lineagekit/store.py:198-199 | the null fraction lies in `[0, 1]` for consistent counts, is the null count when the count is 0, and 0 when no nulls |
| Store.NodeId | lineagekit/store.py:181 | the change's node id always contains the separator character |
| Store.RecordIf | lineagekit/store.py:193-214 | a change is recorded exactly when its test holds |
| Store.ComparedTypes | lineagekit/store.py:193-214 | the three tests give each change type at most once and never a schema change |
| Store.ComparedChanges | lineagekit/store.py:193-214 | for a key of both runs: type_change iff dtypes differ, null_spike iff the null fraction rose by the threshold or more, value_shift iff the means (or deviations) moved by their tolerance; at most 3, none repeated, all stamped |
| Store.ChangesFor | lineagekit/store.py:179-214 | only in the base run: exactly one schema_drop; only in the current run: exactly one schema_add; in both: the compared changes; all stamped with run, kind, node id and severity |
| Store.Lookup | lineagekit/store.py:179 | `A.get(key)` is present exactly when the key is |
| Store.CompareKeys | lineagekit/store.py:177-214 | the loop reports, for some enumeration of the union of the keys, the concatenation of each key's changes |
| Store.DetectChanges | lineagekit/store.py:162-216 | `detect_changes` over the statistics rows, keys taken in some order of their union |
| Store.ConcatOrderIndependent | lineagekit/store.py:177-178 | any two enumerations of the same keys give the same changes as a multiset |
| Store.DetectChangesOrderIndependent | lineagekit/store.py:177-178 | the reported changes do not depend on the set's iteration order, as a multiset |
| Store.ConcatMembers | lineagekit/store.py:178 | a change is in the result exactly when some key contributes it |
| Store.ReportedChanges | lineagekit/store.py:177-214 | a change is reported exactly when some key of either run produces it; each carries the current run and `column`, and is CRITICAL exactly when it is a schema_drop |
| Store.NoChangesAgainstItself | lineagekit/store.py:193-214 | a run compared with itself, under positive thresholds, reports nothing |
| Store.ChangeNodeIsKey | lineagekit/store.py:180-181 | a change of loaded statistics names its key's dataset id and column joined by the separator character |
| Store.NewestIndex | lineagekit/store.py:220 | `ORDER BY created_at DESC LIMIT 1`: a row with the greatest creation time, taken as the first such row in table order, a modelling choice since SQLite leaves ties unordered |
| Store.LatestRunId | lineagekit/store.py:218-222 | `""` with no runs, otherwise the id of a run with the greatest creation time |
| Cli.ResolveRun | lineagekit/cli.py:69-72 | a given run is used; an empty one falls back to the newest run, or `""` |
| Cli.AtRankRanks | lineagekit/cli.py:74 | filtering by rank keeps only hits of that rank |
| Cli.SortedLength | lineagekit/cli.py:74 | the sort keeps the number of hits |
| Cli.SortedDescending | lineagekit/cli.py:74 | the sort lists higher ranks first |
| Cli.SortedPermutation | lineagekit/cli.py:74 | the sort is a permutation of the hits |
| Cli.RanksCover | lineagekit/cli.py:74 | the four rank groups partition the hits |
| Cli.AtRankCount | lineagekit/cli.py:74 | a rank group keeps every copy of a hit of its rank and none of any other |
| Cli.SortedStable | lineagekit/cli.py:74 | the sort is stable: hits of each rank keep their order |
| Cli.Listing | lineagekit/cli.py:74-75 | at most 50 hits are shown, a prefix of the sorted hits |
| Cli.ImpactCommand | lineagekit/cli.py:64-76 | the `impact` command lists the sorted and cut hits of the resolved run |
| Cli.MaxRank | lineagekit/cli.py:97 | `max(..., default=0)`: 0 exactly for no hits, otherwise the highest rank, attained, at most 4 |
| Cli.Outcome.ExitCode | lineagekit/cli.py:89-107 | exit status 0 exactly for no changes or a pass |
| Cli.Outcome.Listed | lineagekit/cli.py:103 | `bad[:10]`: all flagged changes when there are at most 10, otherwise exactly the first 10 |
| Cli.Decide | lineagekit/cli.py:88-107 | no changes ends as `NoChanges`; an unknown threshold with changes is the `KeyError`; a pass means every change's impact stays below the threshold; a failure lists only detected changes that reach it, at least one |
| Cli.FlagsReachThreshold | lineagekit/cli.py:93-99 | every flagged change is detected and at or above the threshold; with nothing flagged, every change is below it |
| Cli.Judge | lineagekit/cli.py:88-107 | the loop flags exactly the changes `Decide` flags; no changes ends before any threshold lookup |
| Cli.Guard | lineagekit/cli.py:78-107 | `guard` decides on the changes detected between the base and the resolved current run |
| Cli.FlagsMembers | lineagekit/cli.py:94-99 | a change is flagged, with rank `m`, exactly when `m` is its maximum impact rank and reaches the threshold |
| Cli.FlaggedByMembers | lineagekit/cli.py:93-99 | the same, for any ranking of the changes |
| Cli.FlaggedByPrefix | lineagekit/cli.py:93-99 | flagged changes keep the order of the detected changes |
| Cli.DecideExit | lineagekit/cli.py:88-107 | `guard` exits 1 exactly when there are changes and the threshold is unknown or some change reaches it |
| Cli.QuietNeverFlagged | lineagekit/cli.py:97-98 | a change without hits is never flagged, whatever the threshold |
| Cli.FlaggedIff | lineagekit/cli.py:94-98 | a change reaches any threshold exactly when it is schema_drop/type_change and has hits |
| Cli.HashedIdsNeverFail | lineagekit/cli.py:95-96 | when no edge id of the run contains the separator, `guard` never fails |
| Cli.DetectedIdsHavePipe | lineagekit/store.py:181 | every detected change names its column with the separator character |

## Left out

- SQLite is not modelled. This covers the DDL, `init_db`, `persist_current_run`, `export_json_from_db` and `diff --save`. `detect_changes` and `impact_bfs` read their tables as row sequences in table order.
- SHA-1 and its hex encoding are the `digest` parameter. `repr(sorted(d.items()))` is the `render` parameter.
- `time.time()` is not modelled. The run id's seconds and each node's creation time are parameters.
- Pandas is left out. A frame is its column list, its length and its id attribute. The mean, standard deviation and most frequent value of a column are given as column attributes, not computed.
- The frame's `attrs["__ds_id__"] = ...` write-back (lineagekit/transform.py:60, lineagekit/lineage_tracker.py:109) is not modelled. The call's outcome carries the ids instead.
- `inspect` is not modelled. The source file and line are fields of the declaration. `inspect.getsource` and `analyze_transform_source` (lineagekit/ast_assist.py) become an optional hints parameter, where `None` means the analysis raised. The decorated function's own behaviour and exceptions are the call's `result`.
- Column labels are strings. `_get_id` (lineagekit/lineage_tracker.py:83) raises `TypeError` for a truthy label that is not a string, such as `1`, and turns a falsy one, such as `0`, into `""` while the node's name is `str(c)`. Neither case is modelled.
- Transforms.Wrapper: the input frame's columns after the call are a field of the call (`inputColumnsAfter`), and they are not tied to what the function does. The function's own changes to its argument are not modelled.
- Store.NewestIndex: SQLite leaves the order of rows with equal `created_at` undefined. The model takes the first such row in table order, and `Store.LatestRunId` promises only a run with the greatest creation time.
- IEEE floating point is not modelled. Means, deviations, null fractions and `rel` are `real`, so NaN (an all-null numeric column) and rounding are not captured.
- Store.NullFraction: `nulls or 0` is not modelled as a separate case. Counts are natural numbers and never `None`.
- Cli.MaxRank: `SEV_RANK.get(s, 1)` never meets an unknown string, because severities are a closed datatype.
- Store.DetectChanges: the order of the changes is stated only up to the (unspecified) iteration order of a Python set.
- Impact.WalkHits: completeness is stated only for the critical change types. For tagged transforms and other change types, the contract does not characterise which severity finally reaches each node.
- Tracker.LineageTracker.ExportJson: `asdict` is not modelled. Nodes and edges are exported as records, not as JSON dictionaries.
- Impact.ImpactBfs: the `try/except` around the `transforms` query is not modelled, since the table always exists.
- Cli.Guard: an unknown threshold is not modelled as the uncaught `KeyError` itself. It becomes the `UnknownThreshold` outcome, whose exit status is 1.
- The `run`, `export`, `ui` and `diff` commands are not modelled: they are script execution, I/O and a front end. Neither is the `rich` formatting of any command's output.
- lineagekit/dataset.py, lineagekit/sklearn_helpers.py, lineagekit/ui/streamlit_app.py, lineagekit/__init__.py and the example scripts are not part of this model. They are instrumentation, visualisation and re-exports.
