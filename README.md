# Quality-DPHU dashboard core, modelled in Dafny

Quality-DPHU is a React dashboard for the repair records ("DPHU", defects per
hundred units) of a production line. The records are rows of a spreadsheet
published through a web service. This project models the logic behind the
dashboard's pages and proves what that logic computes.

## What is modelled

- **Loading records.** There are three hooks:
  - `useGoogleSheetsAPI`: pages that grow by "load more".
  - `useOptimizedGoogleSheetsAPI`: chunks of 5000 rows, which a worker passes through `dataProcessor.worker` for normalisation.
  - `useOptimizedData`: offset pages of 1000 rows, keeping only rows with a serial number.

  Each hook is a class whose fields are the hook's state. It has one method per callback. Every network reply is an input value: a function from the query to a `Reply`. The hooks' filters and distinct-model lists are functions with lemmas.
- **Pivot builders.** Six builders are modelled. Each is a specification function, a loop method proved equal to it where the source loops, and lemmas about counts, labels and order:
  - the recursive grouping tree of `usePivotTable` and `useOptimizedPivotTable`, which share one builder with a policy that names their two differences;
  - the nested dictionary count of `PivotTreeView`;
  - the composite-key rows of `usePivotProcessor`;
  - the composite-key rows of `AdvancedPivotTable`;
  - the two-level tree of `usePivotData`.
- **Expansion and view state.** This covers the expand and collapse handling of `PivotTable`, `PivotTreeView`, `usePivotData` and `AdvancedPivotTable`, and the rows each would draw.
- **Filters.** This covers the sample-data filter hook `useFilters` and the dashboard's filter and CSV export.
- **Model pickers.** These are `ModelSearch` and `MultiModelSearch`.

JavaScript semantics the source relies on are written out. Each has a lemma where it matters:
- truthiness and `||` defaults (`Records`);
- `String.prototype.trim` (`Strings.Trim`);
- `toLowerCase` and `includes`;
- string `<` (`Strings.Less`, proved a strict total order);
- the stable `Array.prototype.sort` (`Sorting.SortBy`, an insertion sort proved sorted, a permutation and the identity on sorted input);
- `Map` versus `{}` grouping (`Grouping`);
- the key order of `Object.entries` (`JsObject`).

## Model

| member | source | states |
|---|---|---|
| SheetsApi.PageQueryInjective | src/hooks/useGoogleSheetsAPI.js:26 | Different page numbers produce different queries, so "load more" never asks for page 1 again. |
| SheetsApi.FilteredKeeps | src/hooks/useGoogleSheetsAPI.js:97-113 | The chain of three `filter` calls keeps the same records as one filter by the conjunction of the date-from, date-to and model tests. |
| SheetsApi.FilteredFacts | src/hooks/useGoogleSheetsAPI.js:94-116 | The filtered records are a subsequence of all records. A record is kept iff it is loaded and passes every set test. Filters that set nothing keep every record. Filtering again changes nothing. |
| SheetsApi.LatestOutcome | src/hooks/useGoogleSheetsAPI.js:29-41 | A reply loads iff it is ok, parses, and carries no `error`. If it is not ok, the message is `HTTP <status>: <statusText>`. A rejected request keeps its own message, a body that does not parse gives the parser's message, and a body `error` becomes the message. A loaded outcome carries the reply's body. |
| SheetsApi.MoreOutcome | src/hooks/useGoogleSheetsAPI.js:69-74 | Load-more never looks at the status: a reply loads iff its body parses without `error`. For an ok reply the outcome is that of the first load. A body `error` becomes the message, and a loaded outcome carries the reply's body. |
| SheetsApi.StatusIgnoredByLoadMore | src/hooks/useGoogleSheetsAPI.js:32-34 | A status-500 reply whose body parses without `error` fails the first load but is appended by load-more. |
| SheetsApi.SheetsApiState.constructor | src/hooks/useGoogleSheetsAPI.js:7-14 | The initial state: no records, no error, no more data known, page 1 and total 0. |
| SheetsApi.SheetsApiState.FetchLatestData | src/hooks/useGoogleSheetsAPI.js:16-58 | Always ends on page 1. On failure, the records are cleared, the error message is set, and `hasMoreData` and the total keep their old values. On success, all and filtered records are the page's data, with `hasMore` and `total` from the reply. |
| SheetsApi.SheetsApiState.LoadMoreHistoricalData | src/hooks/useGoogleSheetsAPI.js:60-92 | Does nothing when no more data is known. Otherwise it asks for the next page. On success, it appends the page's data to all and filtered records, takes `hasMore` and advances the page. On failure, it sets the error and keeps everything else. The total never changes. |
| SheetsApi.SheetsApiState.ApplyFilters | src/hooks/useGoogleSheetsAPI.js:94-116 | The filtered records become `Filtered(allData, filters)`, which `FilteredFacts` characterises. Nothing else changes. |
| Records.OrElseFacts | src/hooks/usePivotTable.js:28 | `item[field] \|\| default` is the value when it is truthy and the default otherwise. It is never empty when the default is not. |
| Records.TruthyValues | src/hooks/useGoogleSheetsAPI.js:119 | `.filter(Boolean)` keeps exactly the present, non-empty values. |
| Records.TruthyValuesNoDup | src/hooks/useGoogleSheetsAPI.js:119 | Distinct inputs give values without repeats. |
| Records.LessIsStrictWeakOrder | src/hooks/useGoogleSheetsAPI.js:120 | The default sort's string order is a strict weak order. |
| Records.DistinctModelsFacts | src/hooks/useGoogleSheetsAPI.js:118-121 | The model list is sorted and has no repeats. A string is in it iff it is the non-empty model of some record. |
| Records.CountWithModelPositive | src/components/common/MultiModelSearch.jsx:178 | A model's record count is positive iff some record has that model, and it never exceeds the number of records. |
| DataProcessor.NormalizeWithFacts | src/workers/dataProcessor.worker.js:8-18 | The normalised record has every listed field, holding the trimmed value or `""`. Every other column is copied unchanged. The listed values are already trimmed. |
| DataProcessor.NormalizeWithIdempotent | src/workers/dataProcessor.worker.js:8-18 | Normalising a normalised record changes nothing. |
| DataProcessor.NormalizeRowsFacts | src/workers/dataProcessor.worker.js:7 | The chunk keeps its length and order, and row i is row i normalised. |
| DataProcessor.NormalizeRowsIdempotent | src/workers/dataProcessor.worker.js:7-19 | Normalising twice is normalising once. |
| DataProcessor.NormalizeRowsAppend | src/workers/dataProcessor.worker.js:7 | Normalising two concatenated chunks gives the two normalised chunks concatenated. |
| DataProcessor.OnMessage | src/workers/dataProcessor.worker.js:4-27 | A `PROCESS_CHUNK` message is answered with `CHUNK_PROCESSED` and the normalised rows, not counting the progress figure. Any other message type is not answered. |
| OptimizedSheetsApi.TotalChunksFacts | src/hooks/useOptimizedGoogleSheetsAPI.js:66 | The chunk count is the ceiling of rows / 5000. The chunks cover every row, one chunk fewer would not, and there are no chunks iff there are no rows. |
| OptimizedSheetsApi.StartRowFacts | src/hooks/useOptimizedGoogleSheetsAPI.js:76 | Consecutive chunks start 5000 rows apart and never overlap. Distinct chunks start at distinct rows. |
| OptimizedSheetsApi.Info | src/hooks/useOptimizedGoogleSheetsAPI.js:57-68 | The info request gives a row count iff the reply is ok, parses, and has `totalRows`. The count is the reply's `totalRows`. A status that is not ok gives `Error obteniendo información: <status>`. A rejected request keeps its message, a body that does not parse gives the parser's message, and a parsed body without `totalRows` fails with the `TypeError` of calling `toLocaleString` on `undefined`. A body `error` is ignored. |
| OptimizedSheetsApi.ChunkOutcome | src/hooks/useOptimizedGoogleSheetsAPI.js:83-91 | A chunk reply loads iff it is ok, parses, and carries no `error`. If it is not ok, the message is `Error en lote <chunk+1>: <status>`. A rejected request or unparsable body keeps its own message, and a body `error` becomes the message. A loaded outcome carries the reply's body. |
| OptimizedSheetsApi.ProcessedIsNormalized | src/hooks/useOptimizedGoogleSheetsAPI.js:93-101 | The rows the worker sends back for a chunk are the chunk's rows normalised. |
| OptimizedSheetsApi.ChunksStep | src/hooks/useOptimizedGoogleSheetsAPI.js:71-110 | One loop step: a failed chunk stops with its error, a short or last page stops, and otherwise the loop goes on with the next chunk. |
| OptimizedSheetsApi.ChunksFacts | src/hooks/useOptimizedGoogleSheetsAPI.js:71-110 | Chunks c, c+1, … are requested in order, at most `totalChunks` of them. Every chunk but the last was a full, successful page. An error can come only from the last chunk requested. |
| OptimizedSheetsApi.ChunksAllFull | src/hooks/useOptimizedGoogleSheetsAPI.js:71-110 | When every remaining chunk comes back as a full page, the loop requests all of them and ends without an error. |
| OptimizedSheetsApi.OptFilteredFacts | src/hooks/useOptimizedGoogleSheetsAPI.js:127-146 | The filtered records are a subsequence, and idempotent. A record is kept iff its date is within the set bounds (an undated record only when no bound is set) and its model matches when one is chosen. |
| OptimizedSheetsApi.OptFilteredKeeps | src/hooks/useOptimizedGoogleSheetsAPI.js:133-144 | The two `filter` calls keep what one filter by both tests keeps. |
| OptimizedSheetsApi.OptFilteredAgrees | src/hooks/useOptimizedGoogleSheetsAPI.js:127-151 | When every record has a date, this filter and the paged hook's filter keep the same records. |
| OptimizedSheetsApi.EmptyDateDiverges | src/hooks/useOptimizedGoogleSheetsAPI.js:133-140 | With only an end date set, an undated record is kept by the paged hook but dropped here. |
| OptimizedSheetsApi.TruthyValuesSnoc | src/hooks/useOptimizedGoogleSheetsAPI.js:153-162 | The truthy models of one more record are the old ones plus its model when that model is truthy. |
| OptimizedSheetsApi.SeenModelsSnoc | src/hooks/useOptimizedGoogleSheetsAPI.js:156-159 | The `Set` of models the loop has seen grows by exactly the new record's truthy model. |
| OptimizedSheetsApi.OptimizedSheetsApiState.constructor | src/hooks/useOptimizedGoogleSheetsAPI.js:7-10 | The initial state: no records, no error, not loading. |
| OptimizedSheetsApi.OptimizedSheetsApiState.OnWorkerMessage | src/hooks/useOptimizedGoogleSheetsAPI.js:21-32 | `CHUNK_PROCESSED` appends the rows to all records. `ERROR` sets the error. The filtered records do not change. |
| OptimizedSheetsApi.OptimizedSheetsApiState.FetchAllDataOptimized | src/hooks/useOptimizedGoogleSheetsAPI.js:41-124 | Resets and then loads. The records and the error are those of `FetchAll` on the replies: the info failure, or the normalised rows of the chunks the loop loads, with the last chunk's error if any. Loading ends false. |
| OptimizedSheetsApi.OptimizedSheetsApiState.LoadChunks | src/hooks/useOptimizedGoogleSheetsAPI.js:71-110 | The loop appends exactly the rows `Chunks` specifies and reports its error. |
| OptimizedSheetsApi.OptimizedSheetsApiState.LoadChunk | src/hooks/useOptimizedGoogleSheetsAPI.js:76-106 | One iteration fetches chunk c, appends its normalised rows on success, and reports whether the loop stops. |
| OptimizedSheetsApi.OptimizedSheetsApiState.ApplyFilters | src/hooks/useOptimizedGoogleSheetsAPI.js:127-151 | The filtered records become `OptFiltered(allData, filters)`. All records remain. |
| OptimizedSheetsApi.OptimizedSheetsApiState.GetUniqueModels | src/hooks/useOptimizedGoogleSheetsAPI.js:153-162 | The loop over the records returns `UniqueModels`: the sorted distinct non-empty models. |
| OptimizedData.BuildParams | src/hooks/useOptimizedData.js:14-29 | The parameters are offset, limit 1000 and `ns_not_empty=true`. Each date bound appears iff it is set. |
| OptimizedData.OffsetFacts | src/hooks/useOptimizedData.js:16 | Page 1 starts at row 60116. Each page starts 1000 rows after the previous one, so pages never overlap. |
| OptimizedData.ValidRowsFacts | src/hooks/useOptimizedData.js:41 | The kept rows are, in order, exactly the rows whose NS is non-blank after trimming. Keeping again changes nothing. |
| OptimizedData.PageOutcome | src/hooks/useOptimizedData.js:33-41 | If the status is not ok, the message is `HTTP error! status: <status>`. A page loads iff it is ok, parses, has no `error`, and has `data`. A rejected request or unparsable body keeps its own message, and a body `error` becomes the message. A clean body without `data` gives the `TypeError` of `.filter` on `undefined`. A loaded outcome carries the reply's body. |
| OptimizedData.OptimizedDataState.constructor | src/hooks/useOptimizedData.js:7-12 | Starts with no records, no error, more to come, and page 1. |
| OptimizedData.OptimizedDataState.LoadPage | src/hooks/useOptimizedData.js:31-53 | On success: appends the valid rows, takes `hasMore`, sets the page and returns the reply. On failure: sets the error, returns nothing, and leaves records, `hasMore` and page unchanged. |
| OptimizedData.OptimizedDataState.LoadData | src/hooks/useOptimizedData.js:55-68 | Resets and loads page 1. The records are that page's valid rows, or none with the error. Loading ends false. |
| OptimizedData.OptimizedDataState.LoadMore | src/hooks/useOptimizedData.js:77 | Loads the page after the current one, without looking at `hasMore`, and never touches `loading`. On success, it appends the page's valid rows, takes `hasMore`, advances the page and keeps the error. On failure, it sets the error and keeps the data, `hasMore` and the page. |
| Filters.ApplyFacts | src/hooks/useFilters.js:41-54 | The shown readings are a subsequence. A reading is shown iff it is on or after the start date and on or before the end date (each when set) and has the selected model (when set). With nothing set, every reading is shown. Applying again changes nothing. |
| Filters.EarliestFacts | src/hooks/useFilters.js:26 | The minimum date is one of the dates and precedes or equals every date. |
| Filters.LatestFacts | src/hooks/useFilters.js:27 | The maximum date is one of the dates and follows or equals every date. |
| Filters.OptionsFacts | src/hooks/useFilters.js:21-30 | The options exist iff there are readings. When they exist, the dates are readings' dates that bound every date, and the models are each model once. |
| Filters.FiltersState.constructor | src/hooks/useFilters.js:12-18 | Starts with every filter unset and all sample readings shown. |
| Filters.FiltersState.HandleFilterChange | src/hooks/useFilters.js:33-38 | Sets the named filter only. The shown readings do not change. |
| Filters.FiltersState.HandleFilterApply | src/hooks/useFilters.js:41-54 | Shows exactly what the filters keep of the sample. |
| Filters.FiltersState.ClearFilters | src/hooks/useFilters.js:57-64 | Unsets every filter and shows all readings. |
| Filters.ClearedIsApplied | src/hooks/useFilters.js:57-64 | The cleared state agrees with applying filters that set nothing. |
| PivotData.PivotTreeEmpty | src/hooks/usePivotData.js:8 | No readings give no tree. |
| PivotData.PivotTreeNames | src/hooks/usePivotData.js:17-26 | The nodes are named by the distinct models, in order of first appearance. Every model of the data has a node. |
| PivotData.PivotTreeIds | src/hooks/usePivotData.js:19 | Node ids are `model-<name>` and pairwise distinct. |
| PivotData.PivotTreeChildren | src/hooks/usePivotData.js:33-39 | A node has one child per reading of its model that has details. |
| PivotData.DetailsOfAbsent | src/hooks/usePivotData.js:33-39 | A model no reading has gets no children. |
| PivotData.PivotTreeSnoc | src/hooks/usePivotData.js:15-41 | One more reading adds its model's node at the end if the model is new, and one child at the end of its node if it has details. |
| PivotData.AddReading | src/hooks/usePivotData.js:16-39 | The loop body keeps the `modelMap` an exact index of the tree. It creates the node once and appends the reading's child. |
| PivotData.AddReadingTree | src/hooks/usePivotData.js:15-41 | The loop body turns the tree of the readings so far into the tree of one more reading. |
| PivotData.BuildPivotTree | src/hooks/usePivotData.js:8-41 | The loop builds exactly `PivotTree(data)`. |
| PivotData.PivotDataState.constructor | src/hooks/usePivotData.js:5 | No node is expanded at first. |
| PivotData.PivotDataState.ToggleNode | src/hooks/usePivotData.js:59-65 | Removes an expanded id and appends one that is not expanded. |
| Sequences.ListToggleTwice | src/hooks/usePivotData.js:59-65 | Toggling an absent id twice restores the list. Toggling a present id twice leaves it once, at the end, with the other ids in place. |
| PivotTree.ListingOrderFacts | src/hooks/usePivotTable.js:36 | Under either policy, the listing of the groups is a permutation of the group keys: no repeats, each key names a group. |
| PivotTree.MakeNodes | src/hooks/usePivotTable.js:36-60 | One node per listed key. |
| PivotTree.FieldKeyNonEmpty | src/hooks/usePivotTable.js:28 | The group key `item[field] \|\| (Sin field)` is never empty. |
| PivotTree.MakeNodeOk | src/hooks/usePivotTable.js:37-58 | Each node has the right level, field and key, and path = parent path + key. Its id is the path joined by `\|`, and its count is the size of its group (at least 1). The unique count follows the policy's rule. It is expandable iff it is not at the last level, its children are `null` there, and its raw data follows the policy. |
| PivotTree.MakeNodesLabels | src/hooks/usePivotTable.js:36-60 | The node labels are the listed keys. |
| PivotTree.MakeNodesSum | src/hooks/usePivotTable.js:38 | The node counts add up to the number of records grouped. |
| PivotTree.BuildTreeCount | src/hooks/usePivotTable.js:20-62 | At every level, the counts of the nodes built from n records add up to n. |
| PivotTree.BuildTreeLabelsDistinct | src/hooks/usePivotTable.js:24-36 | The sibling labels are pairwise distinct. |
| PivotTree.BuildTreeLabelsCover | src/hooks/usePivotTable.js:24-36 | Every record's key has a node, and every node's key is some record's key. |
| PivotTree.ByCountDescIsStrictWeakOrder | src/hooks/usePivotTable.js:61 | Ordering by count, largest first, is a strict weak order, so the sort is well defined. |
| PivotTree.BuildTreeOrder | src/hooks/usePivotTable.js:61 | Sorted levels are in non-increasing count. In the optimised hook, levels 2 and deeper keep first-seen order. |
| PivotTree.ChildrenSumToParent | src/hooks/usePivotTable.js:56-58 | The children's counts add up to their parent's count. |
| PivotTree.RootFacts | src/hooks/usePivotTable.js:20-62 | An empty hierarchy gives no tree. Otherwise every top node is well formed, the counts add up to the number of records, the labels are distinct, and the level is sorted by count. |
| PivotTree.UsePivotTable | src/hooks/usePivotTable.js:5-64 | No records give no tree. Otherwise every node is well formed, the top counts add up to the number of records, the labels are distinct and the level is sorted. |
| PivotTree.SliceEnd | src/hooks/useOptimizedPivotTable.js:14 | `slice(0, end)` keeps `end` elements, clamped to the length, and a negative `end` counts from the back. |
| PivotTree.OptimizedHierarchy | src/hooks/useOptimizedPivotTable.js:10-14 | The hierarchy is the first `maxDepth` of model, function and code. |
| PivotTree.UseOptimizedPivotTable | src/hooks/useOptimizedPivotTable.js:5-70 | No records, or a depth that leaves no field, give no tree. Otherwise every top node is well formed under the optimised policy, the counts add up to the number of records, the labels are distinct, and the level is sorted by count. |
| PivotTree.BuildTreeSize | src/hooks/usePivotTable.js:24-36 | A level has exactly as many nodes as its records have distinct keys. |
| PivotTree.OneRecordTree | src/hooks/usePivotTable.js:5-64 | A single record gives one top node, keyed by its model, with count 1. |
| PivotTree.InheritedModelThrows | src/hooks/usePivotTable.js:28-32 | A record whose model is `constructor` makes the `{}` grouping fail. The intended grouping gives one node `constructor` with count 1. |
| Grouping.GroupBy | src/hooks/useOptimizedPivotTable.js:21-30 | The `Map` grouping is well formed: each key is listed once, the keys are exactly the groups, and no group is empty. |
| Grouping.GroupByKeys | src/hooks/useOptimizedPivotTable.js:21-30 | The group keys are the records' distinct keys, in first-seen order. |
| Grouping.GroupByMembers | src/hooks/useOptimizedPivotTable.js:21-30 | A key has a group iff some record has it. The group holds exactly the records with that key, in order. |
| Grouping.GroupBySizes | src/hooks/useOptimizedPivotTable.js:21-30 | The group sizes add up to the number of records. |
| Grouping.GroupByRekey | src/hooks/usePivotProcessor.js:8-39 | If two key functions agree on which records share a key, they give the same groups, up to renaming the keys. |
| Grouping.GroupItems | src/hooks/useOptimizedPivotTable.js:21-30 | The grouping loop computes `GroupBy`. |
| Grouping.DictGroupItems | src/hooks/usePivotTable.js:24-33 | The `{}` grouping loop computes `DictGroupBy`, including its failure. |
| Grouping.DictGroupByInherited | src/hooks/usePivotTable.js:29-32 | A key that is inherited from `Object.prototype` and not yet grouped is truthy. The `push` on it then fails. |
| Grouping.DictGroupByAgrees | src/hooks/usePivotTable.js:24-33 | When no key is an inherited name, the `{}` grouping succeeds and is the `Map` grouping. |
| JsObject.OwnKeysOrderFacts | src/hooks/usePivotTable.js:36 | `Object.entries` lists a permutation of the created keys, without repeats when they had none. The listing starts with all the array-index keys in ascending numeric order and ends with the other keys in creation order. |
| JsObject.OwnKeysOrderNoIndex | src/hooks/usePivotProcessor.js:42 | Without array-index keys, the listing is the insertion order. |
| JsObject.InheritedNamesHaveNoBar | src/hooks/usePivotProcessor.js:9-18 | No name inherited from `Object.prototype` contains `\|`, so a composite key never clashes with one. |
| CompositeKey.JoinKeyObject | src/hooks/usePivotProcessor.js:9-18 | With a `\|` separator and at least two fields, the `{}` grouping by the joined key never fails. It equals the `Map` grouping, and `Object.entries` lists it in insertion order. |
| CompositeKey.JoinKeyRekey | src/hooks/usePivotProcessor.js:9-18 | For values free of the separator's first character, grouping by the joined key gives the groups of the field tuples, with the keys joined. |
| PivotProcessor.ProcessorRowFacts | src/hooks/usePivotProcessor.js:35-46 | A row's count is the number of its records (≥ 1). Its NS list is their distinct serial numbers, and the unique count is that list's length, so it lies between 1 and the row's count. |
| PivotProcessor.ProcessorRowsFacts | src/hooks/usePivotProcessor.js:5-46 | No records give no rows. One row per distinct combination of fields, in first-seen order, and the counts add up to the number of records. |
| PivotProcessor.AsWrittenAgrees | src/hooks/usePivotProcessor.js:9-36 | If no value contains `\|`, the joined-key grouping gives the intended rows. |
| PivotProcessor.CollidingKeys | src/hooks/usePivotProcessor.js:9-18 | `ORIGEN "a\|\|\|b", POSICION "c"` and `ORIGEN "a", POSICION "b\|\|\|c"` share a key and are merged into one row. |
| AdvancedPivot.Labelled | src/components/pivot/AdvancedPivotTable.jsx:41-43 | A row holds exactly the eight fields, each field's safe value under its name. |
| AdvancedPivot.PivotRowFacts | src/components/pivot/AdvancedPivotTable.jsx:41-52 | A row's count is its number of records (at least 1). Its records are exactly, and in order, the records with the row's safe values. |
| AdvancedPivot.PivotRowsFacts | src/components/pivot/AdvancedPivotTable.jsx:34-55 | One row per distinct combination of safe values (`(Sin valor)` for a missing field), first seen first. The counts add up to the number of records. |
| AdvancedPivot.AsWrittenAgrees | src/components/pivot/AdvancedPivotTable.jsx:36 | If the values have no `\|`, the joined-key rows are the intended ones. |
| AdvancedPivot.CollidingKeys | src/components/pivot/AdvancedPivotTable.jsx:36 | `ORIGEN "a\|a", POSICION "a"` and `ORIGEN "a", POSICION "a\|a"` are merged into one row. |
| AdvancedPivot.MatchesFilters | src/components/pivot/AdvancedPivotTable.jsx:59-66 | The loop over the filters decides `Passes`: for every non-empty filter, the row's value contains it, ignoring case. |
| AdvancedPivot.FilterRowsFacts | src/components/pivot/AdvancedPivotTable.jsx:59-68 | The shown rows are a subsequence, exactly the rows that pass. With no filters, every row is shown. |
| AdvancedPivot.BeforeIsStrictWeakOrder | src/components/pivot/AdvancedPivotTable.jsx:73-81 | The column comparison is a strict weak order in either direction. |
| AdvancedPivot.RequestSort | src/components/pivot/AdvancedPivotTable.jsx:85-90 | Choosing the current ascending column makes it descending. Any other choice sorts that column ascending. |
| AdvancedPivot.RequestSortTwice | src/components/pivot/AdvancedPivotTable.jsx:85-90 | A second click on the same column flips the direction, and a third gives back the state after the first. |
| AdvancedPivot.SortedRowsFacts | src/components/pivot/AdvancedPivotTable.jsx:71-82 | The sorted rows are a permutation of the shown rows, in order by the chosen column. With no column chosen, they are ordered by count, largest first. |
| AdvancedPivot.RowKeyInjective | src/components/pivot/AdvancedPivotTable.jsx:195 | Distinct rows have distinct row keys. |
| AdvancedPivot.ViewFacts | src/components/pivot/AdvancedPivotTable.jsx:193-263 | One view row per sorted row, with its cells and count. The chevron shows iff the group has more than one record, pointing down iff expanded. Details show iff the row is expanded, listing its records, with plural wording iff the count exceeds 1. |
| AdvancedPivot.ToggleOneRow | src/components/pivot/AdvancedPivotTable.jsx:93-103 | Toggling a row shows or hides its own details and leaves every other row as drawn. |
| AdvancedPivot.AdvancedPivotTableState.constructor | src/components/pivot/AdvancedPivotTable.jsx:5-8 | Starts with the default sort (count, descending), nothing expanded, and no filters or filter panels. |
| AdvancedPivot.AdvancedPivotTableState.RequestSortBy | src/components/pivot/AdvancedPivotTable.jsx:85-90 | The sort state becomes `RequestSort` of the old one. |
| AdvancedPivot.AdvancedPivotTableState.ToggleGroup | src/components/pivot/AdvancedPivotTable.jsx:93-103 | The expanded set gains or loses the key alone. |
| AdvancedPivot.AdvancedPivotTableState.ToggleFilter | src/components/pivot/AdvancedPivotTable.jsx:106-111 | The named filter's panel flips open or closed. |
| AdvancedPivot.AdvancedPivotTableState.HandleFilterChange | src/components/pivot/AdvancedPivotTable.jsx:114-119 | Sets that column's filter text only. |
| AdvancedPivot.RenderFacts | src/components/pivot/AdvancedPivotTable.jsx:139 | The group count shown is the number of rows passing the filters. With nothing expanded, no row shows details. |
| PivotTable.ToggledFacts | src/components/pivot/PivotTable.jsx:7-20 | Expanding adds the id alone. Collapsing removes the id and every id starting with `id\|`, and keeps all others. |
| PivotTable.ToggledTwice | src/components/pivot/PivotTable.jsx:7-20 | Collapsing then expanding leaves the id expanded without its descendants. Expanding then collapsing an id with nothing expanded below it restores the set. |
| PivotTable.RowOf | src/components/pivot/PivotTable.jsx:22-74 | A row is clickable iff the node has children. Its chevron shows only then, pointing down iff the node is expanded. |
| PivotTable.RowsBounds | src/components/pivot/PivotTable.jsx:117-121 | At least one row per top node is drawn, and never more rows than the tree has nodes. |
| PivotTable.RowsAllExpanded | src/components/pivot/PivotTable.jsx:117-121 | With every id expanded, every node is drawn. |
| PivotTable.RowsCollapsed | src/components/pivot/PivotTable.jsx:163 | With nothing expanded, exactly the top nodes are drawn. |
| PivotTable.BuildTreeNamed | src/hooks/usePivotTable.js:37-42 | Every node id is its path joined by `\|`, and its children's paths extend its path. |
| PivotTable.CollapseClosesSubtree | src/components/pivot/PivotTable.jsx:10-14 | After collapsing a node, no node below it is expanded. |
| PivotTable.PivotTableState.constructor | src/components/pivot/PivotTable.jsx:5 | Nothing is expanded. |
| PivotTable.PivotTableState.Render | src/components/pivot/PivotTable.jsx:126-163 | Loading shows the spinner, and no data shows the empty message. Otherwise the table has one root per top node and between that many rows and the tree's size. |
| PivotTable.PivotTableState.ToggleExpand | src/components/pivot/PivotTable.jsx:7-20 | The expanded set becomes `Toggled` of the old one. |
| PivotTable.PivotTableState.CollapseAll | src/components/pivot/PivotTable.jsx:171 | Nothing is expanded. |
| PivotTable.PivotTableState.ExpandAll | src/components/pivot/PivotTable.jsx:177-189 | The expanded set is the ids of every node with children (`ExpandableIds`). |
| PivotTable.CollectIds | src/components/pivot/PivotTable.jsx:179-187 | The recursive walk adds exactly the expandable ids to what it was given. |
| PivotTable.ExpandAllShowsAll | src/components/pivot/PivotTable.jsx:177-189 | After expanding all, every node of the tree is drawn. |
| PivotTreeView.PathOf | src/components/pivot/PivotTreeView.jsx:11-18 | A record is counted along 7 non-empty keys, or 8 when the comment is truthy. |
| PivotTreeView.InsertCount | src/components/pivot/PivotTreeView.jsx:20-60 | Counting a record adds 1 to exactly the nodes on its path prefixes and leaves every other count unchanged. |
| PivotTreeView.InsertWellFormed | src/components/pivot/PivotTreeView.jsx:20-60 | Counting keeps each dictionary's keys listed once, matching its entries, with positive counts. |
| PivotTreeView.BuildCount | src/components/pivot/PivotTreeView.jsx:10-61 | The node at path p counts exactly the records whose path starts with p. |
| PivotTreeView.BuildWellFormed | src/components/pivot/PivotTreeView.jsx:10-61 | The built hierarchy is well formed. |
| PivotTreeView.BuildKeys | src/components/pivot/PivotTreeView.jsx:20-23 | The top keys are the distinct models (with placeholder), in first-seen order. |
| PivotTreeView.BuildHasPath | src/components/pivot/PivotTreeView.jsx:20-60 | Every prefix of every record's path has a node with a positive count. |
| PivotTreeView.HierarchyData | src/components/pivot/PivotTreeView.jsx:7-64 | The loop over the records computes `Build`. |
| PivotTreeView.DictBuildAgrees | src/components/pivot/PivotTreeView.jsx:20-53 | With no inherited names on any path, the plain-object count equals the intended one. |
| PivotTreeView.DictBuildInheritedModel | src/components/pivot/PivotTreeView.jsx:20-31 | A record whose model is an inherited name such as `constructor` makes the plain-object count fail. |
| PivotTreeView.ListingFacts | src/components/pivot/PivotTreeView.jsx:123-127 | Children are listed once each, as a permutation of the keys, in non-increasing count. |
| PivotTreeView.RowsCollapsed | src/components/pivot/PivotTreeView.jsx:78-131 | With nothing expanded, one row per listed entry is drawn, with its count, bold at level 0. |
| PivotTreeView.RenderCollapsed | src/components/pivot/PivotTreeView.jsx:146-148 | With nothing expanded, the view is one bold row per model. |
| PivotTreeView.PivotTreeViewState.constructor | src/components/pivot/PivotTreeView.jsx:5 | Nothing is expanded. |
| PivotTreeView.PivotTreeViewState.ToggleNode | src/components/pivot/PivotTreeView.jsx:66-76 | The expanded set gains or loses that id alone. |
| ModelSearch.SuggestionsFacts | src/components/common/ModelSearch.jsx:23-35 | Below three characters there are no suggestions. Otherwise they are exactly the first `min(matches, 10)` matches in list order. They are sorted and without repeats when the list is. On a sorted list, no match that sorts before a suggestion is left out. |
| ModelSearch.MatchesItself | src/components/common/ModelSearch.jsx:27-29 | A model typed in full matches itself. |
| ModelSearch.ModelSearchState.constructor | src/components/common/ModelSearch.jsx:5-13 | The list is the sorted distinct models. The box is empty and closed. |
| ModelSearch.ModelSearchState.SyncValue | src/components/common/ModelSearch.jsx:15-21 | The box takes the parent's value, except `""` and the "all models" choice, which empty it. |
| ModelSearch.ModelSearchState.RefreshSuggestions | src/components/common/ModelSearch.jsx:23-35 | The suggestions become `Suggestions(models, term)`, and the list is open iff there are any. |
| ModelSearch.ModelSearchState.HandleSelectAsWritten | src/components/common/ModelSearch.jsx:48-52 | Emits the model and puts it in the box. Because the term changed, the effect reruns, and the list is open iff the model matches anything. If the term already was the model, the effect does not rerun and the list stays closed with its old suggestions. The model list never changes. |
| ModelSearch.ModelSearchState.HandleSelect | src/components/common/ModelSearch.jsx:48-52 | Emits the model, puts it in the box, and leaves the list closed. |
| ModelSearch.ModelSearchState.HandleClear | src/components/common/ModelSearch.jsx:54-58 | Emits the "all models" choice, empties the box and closes the list. |
| ModelSearch.SelectReopens | src/components/common/ModelSearch.jsx:48-52 | Choosing a listed model of three or more characters leaves at least one suggestion, so the list reopens. |
| MultiModelSearch.FilteredModelsFacts | src/components/common/MultiModelSearch.jsx:16-21 | With an empty term, every model is listed. Otherwise the list is a sorted, repeat-free subsequence of the models: exactly the non-empty models of the data that contain the term, ignoring case. |
| MultiModelSearch.HandleModelToggle | src/components/common/MultiModelSearch.jsx:44-50 | A selected model is removed, every copy of it, keeping the others in order and with as many copies as before. Any other model is appended. |
| MultiModelSearch.HandleRemoveModel | src/components/common/MultiModelSearch.jsx:52-55 | Removes every occurrence of the model and keeps the rest in order, each as often as before. |
| MultiModelSearch.CountTestMeansAll | src/components/common/MultiModelSearch.jsx:139 | For repeat-free lists whose selection is drawn from the listed models, equal lengths hold iff every listed model is selected. |
| MultiModelSearch.SelectAllFacts | src/components/common/MultiModelSearch.jsx:137-149 | Under the same conditions: the box is checked iff the list is non-empty and fully selected. The button clears a full selection and otherwise selects the listed models. |
| MultiModelSearch.SelectAllByCount | src/components/common/MultiModelSearch.jsx:139 | Selection `["A"]` with listed `["B"]` shows as checked and is cleared, because the length test alone decides. |
| MultiModelSearch.BadgeCount | src/components/common/MultiModelSearch.jsx:178 | The badge counts the records of the model. |
| MultiModelSearch.BadgePositive | src/components/common/MultiModelSearch.jsx:178 | Every listed model has a positive badge. |
| Dashboard.InitialFiltersShowAll | src/components/dashboard/DPHUDashboard.jsx:20-36 | The initial filters restrict nothing, so applying them shows every record. |
| Dashboard.DashboardNamesMissing | src/components/dashboard/DPHUDashboard.jsx:9-18 | The hook returns neither `fetchAllData` nor `loadingProgress`. Its loader is `fetchLatestData`. |
| Dashboard.DashboardState.constructor | src/components/dashboard/DPHUDashboard.jsx:20-24 | The filters start as both dates unset and the "all models" choice. |
| Dashboard.DashboardState.MountAsWritten | src/components/dashboard/DPHUDashboard.jsx:27-29 | The mount effect throws `fetchAllData is not a function`. |
| Dashboard.DashboardState.Mount | src/components/dashboard/DPHUDashboard.jsx:27-29 | The intended mount loads the first page: on failure the error and no records, on success all records shown. |
| Dashboard.DashboardState.ApplyFiltersEffect | src/components/dashboard/DPHUDashboard.jsx:32-36 | With records loaded, the shown records are those the filters keep. With none, nothing changes. |
| Dashboard.DashboardState.HandleFilterChange | src/components/dashboard/DPHUDashboard.jsx:38-43 | Sets the named filter only. |
| Dashboard.DashboardState.ClearFilters | src/components/dashboard/DPHUDashboard.jsx:45-51 | Restores the initial filters. |
| Dashboard.CsvLineFields | src/components/dashboard/DPHUDashboard.jsx:60-65 | If no value contains a comma, a record's line splits at commas into exactly the ten quoted header fields. |
| Dashboard.HeaderNoLineBreak | src/components/dashboard/DPHUDashboard.jsx:54-58 | The header line has no line break. |
| Dashboard.CsvContentLines | src/components/dashboard/DPHUDashboard.jsx:60-67 | If no value contains a line break, the content splits into the header plus one line per record, in order. |
| Dashboard.QuotesNotEscaped | src/components/dashboard/DPHUDashboard.jsx:63 | A value containing `"` is written unescaped, so the line's quoting is broken. |

## Left out

- Network, timing and concurrency are not modelled. This covers `fetch` itself, `AbortController`, `cancelLoad`, `setTimeout` and React's scheduling of effects: every reply is an input value, and each handler runs to completion.
- The worker's `ERROR` reply comes only from an exception inside the map. The model's normalisation cannot throw, so that path is modelled only on the hook side (`OnWorkerMessage`).
- The progress figures, loading messages and percentages (`loadingProgress`, `loadingMessage`, `progress`) are not modelled. They are display only, and `toLocaleString` depends on the locale.
- The service address, and the encoding done by `URLSearchParams`, are not modelled. Queries are modelled as their parameter lists.
- In `usePivotData`, the DPHU values, their sums and averages, and the `try`/`catch` around the loop are not modelled. They are floating-point arithmetic, and the modelled loop cannot throw.
- Dates are not parsed. All filters compare ISO `YYYY-MM-DD` strings, whose order is their string order, and `toISOString` is taken to return the date unchanged.
- `Strings.Lower` models `toLowerCase` for ASCII and Latin-1 letters only, and string comparison uses character order. Full Unicode case mapping and UTF-16 surrogate order are not modelled.
- Column values are strings. Numeric cells and the `String(value)` conversions are not modelled.
- For CSV export, filenames, the `Blob`, the object URL and the download click are not modelled. For values with commas, quotes or line breaks, only the missing quote escape is stated (`Dashboard.QuotesNotEscaped`).
- The merge of `filterOptions` into the returned `filters` object of `useFilters` is not modelled. It only adds display fields.
- Rendering details are not modelled: markup, CSS classes, icons, the click-outside listeners of the model pickers, and the retry button, whose `onClick={fetchAllData}` passes `undefined`, so React attaches no handler and a click does nothing. Row structure is modelled where the source decides it: clickable rows, chevrons, the empty-state text and the count.
- `loadingProgress` in `DPHUDashboard` is `undefined`, so the progress bar is not modelled.
- PivotTreeView.BuildCount: a parent's count is stated as the number of records under its path prefix. The children-sum equality that follows from this is not proved separately.
- PivotTreeView.RenderCollapsed: only the collapsed view is characterised. Expanded rows follow `Rows`, and no lemma counts them.
- PivotTree.ListingOrderFacts: states only that the listing is a permutation of the group keys. The exact order, array-index keys first for `{}` and first-seen for `Map`, is in the definition, and `JsObject.OwnKeysOrderFacts` states it. Under the stable sort, the order matters only when counts tie.

## Findings

| source | as written | input that shows it | evidently intended | confidence | as-written member | corrected member |
|---|---|---|---|---|---|---|
| src/hooks/usePivotTable.js:28-32 | groups in a `{}`: `if (!groups[key]) groups[key] = []` then `groups[key].push(item)` | a record with `MODELO` = `constructor`: `groups.constructor` is the inherited `Object` function, which is truthy and has no `push` | one node `constructor` with count 1 | not executed | PivotTree.InheritedModelThrows | PivotTree.UsePivotTable |
| src/components/pivot/PivotTreeView.jsx:20-31 | the nested count is kept in `{}` objects | a record with `MODELO` = `constructor`: the node is the inherited function and has no `children` | the record counted under a `constructor` node | not executed | PivotTreeView.DictBuildInheritedModel | PivotTreeView.HierarchyData |
| src/hooks/usePivotProcessor.js:9-18 | the rows are grouped by the fields joined with `\|\|\|` | `{ORIGEN: "a\|\|\|b", POSICION: "c"}` and `{ORIGEN: "a", POSICION: "b\|\|\|c"}` | two rows, one per combination of fields | not executed | PivotProcessor.CollidingKeys | PivotProcessor.ProcessorRowsFacts |
| src/components/pivot/AdvancedPivotTable.jsx:36 | the rows are grouped by the fields joined with `\|` | `{ORIGEN: "a\|a", POSICION: "a"}` and `{ORIGEN: "a", POSICION: "a\|a"}` | two rows, one per combination of fields | not executed | AdvancedPivot.CollidingKeys | AdvancedPivot.PivotRowsFacts |
| src/components/dashboard/DPHUDashboard.jsx:27-29 | the mount effect calls `fetchAllData()`, which the hook does not return | any mount: `TypeError: fetchAllData is not a function` | load the latest page through `fetchLatestData` | not executed | Dashboard.DashboardState.MountAsWritten | Dashboard.DashboardState.Mount |
| src/components/common/ModelSearch.jsx:48-52 | `handleSelect` closes the list and sets the term, which reruns the suggestion effect | models `["ABC-123"]`, typed `abc`, then `ABC-123` chosen: the effect finds the model again and reopens the list | the list stays closed after a choice | not executed | ModelSearch.ModelSearchState.HandleSelectAsWritten | ModelSearch.ModelSearchState.HandleSelect |
