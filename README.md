# Snapshot-restore split planner

This project models the planning core of BR's snapshot restore, in
`br/pkg/restore/snap_client/tikv_sender.go`. Before any data is
downloaded, `SortAndValidateFileRanges` does the following:

- turns the created tables (and their partitions) into physical tables
  sorted by their new ID;
- buckets the backup SST files by the table ID encoded in their keys;
- validates each table's files against its rewrite rules;
- merges the files into key ranges;
- walks the ranges in order. Along the way it chooses the region split
  keys, skips files that an earlier run already ingested (the checkpoint),
  reports the skipped files through `onProgress`, and groups the remaining
  files into batches of per-table file sets.

The model is written in the program's own form:

- Go loops that build slices and maps are Dafny methods with loop
  invariants.
- The in-place sort of the physical tables works on an `array`.
- The whole walk is specified by a forward fold over a `PlannerState`
  record, with one field per local variable of the Go function. Every
  method of the planning walk is proved equal to its specification
  function, and the properties of the planner are proved as lemmas about
  those functions. The methods that build the physical tables are proved
  to return a sorted permutation of the table and partition entries.

The Go code also calls four functions from other packages:
`tablecodec.DecodeTableID`, `restoreutils.ValidateFileRewriteRule`,
`restoreutils.MergeAndRewriteFileRanges` and
`restoreutils.GetPartitionIDMap`. Their code is not part of this model.
They are passed in as the total functions of a `Collaborators` value. The
`onProgress` callback becomes the returned list of the arguments it was
called with.

Outcomes:

- A `log.Panic` or `panic` becomes a `Fatal` stop.
- An `error` return becomes a `Failed` stop.

Modules, one per file:

| file | module | models |
|---|---|---|
| `wrappers.dfy` | `Wrappers` | Option and Result |
| `restore_types.dfy` | `RestoreTypes` | backup files, rewrite rules, created and physical tables, merged ranges, batches, collaborators |
| `range_keys.dfy` | `RangeKeys` | `getFileRangeKey` |
| `checkpoint_filter.dfy` | `CheckpointFilter` | `filterOutFiles` |
| `table_files.dfy` | `TableFiles` | `mapTableToFiles` |
| `physical_tables.dfy` | `PhysicalTables` | `getSortedPhysicalTables` |
| `split_planner.dfy` | `SplitPlanner` | `MergedRangeCountThreshold` and `SortAndValidateFileRanges` |
| `plan_properties.dfy` | `PlanProperties` | checkpoint independence, file accounting, stops |
| `plan_shape.dfy` | `PlanShape` | batch shape, split-on-table, thresholds, split-key origin |
| `batch_origin.dfy` | `BatchOrigin` | the table, rewrite rules and files behind each batch entry |

One might expect the batch boundaries, like the split keys, not to depend
on the checkpoint. The code does not guarantee that, and the model follows
the code:

- A group whose every file was skipped by the checkpoint leaves
  `lastFilesGroup` nil (lines 233-244), and the flush at lines 217-221
  emits no batch for a nil group.
- So the batch list can differ between runs with different checkpoints.
  `PlanProperties.CheckpointCanChangeBatches` shows it on one table with
  two ranges of size 6 and a size threshold of 10: without a checkpoint
  the plan has two batches, and with the first range's only file in the
  checkpoint it has one. The split keys are the same in both runs.
- What is independent of the checkpoint is the split keys and whether, and
  why, the plan stops (`PlanProperties.SplitKeysIgnoreCheckpoints`).

## Model

| member | source | states |
|---|---|---|
| RangeKeys.FileRangeKey | br/pkg/restore/snap_client/tikv_sender.go:353-362 | panics exactly when the name has no `_`; otherwise it returns the part of the name before an `_` that no later `_` follows, i.e. the name without its last `_`-separated segment |
| RangeKeys.RangeKeyDropsLastSegment | br/pkg/restore/snap_client/tikv_sender.go:353-362 | the range key of `prefix_suffix` is `prefix` whenever the suffix has no `_` |
| RangeKeys.SameRangeSameKey | br/pkg/restore/snap_client/tikv_sender.go:354-361 | the default-cf and write-cf files of one range (same name up to the last `_`) share one range key |
| CheckpointFilter.FirstNameFault | br/pkg/restore/snap_client/tikv_sender.go:97-99 | filtering panics exactly when some file name has no `_` |
| CheckpointFilter.ProgressReport | br/pkg/restore/snap_client/tikv_sender.go:109-111 | onProgress is called at most once, exactly when some file was skipped, and with the number skipped |
| CheckpointFilter.FilterOutFiles | br/pkg/restore/snap_client/tikv_sender.go:92-118 | the loop panics on the first bad name before any report; otherwise it returns the files whose range key is not in the checkpoint set, in order, and reports the count of the others |
| CheckpointFilter.KeptConcat | br/pkg/restore/snap_client/tikv_sender.go:97-108 | filtering a concatenation is the concatenation of the filtered parts |
| CheckpointFilter.KeptWithoutCheckpoint | br/pkg/restore/snap_client/tikv_sender.go:97-108 | an empty checkpoint set keeps every file |
| CheckpointFilter.KeptSkippedPartition | br/pkg/restore/snap_client/tikv_sender.go:97-108 | kept and skipped files together are the input, as a multiset |
| CheckpointFilter.KeptSkippedCount | br/pkg/restore/snap_client/tikv_sender.go:97-108 | the number kept plus the number skipped is the number of input files |
| CheckpointFilter.FirstNameFaultIsFirst | br/pkg/restore/snap_client/tikv_sender.go:97-99 | the reported fault is that of the first file without `_`, all earlier files being well named |
| CheckpointFilter.KeptMembers | br/pkg/restore/snap_client/tikv_sender.go:99-106 | a file is kept iff it is an input whose range key is not in the checkpoint |
| CheckpointFilter.SkippedMembers | br/pkg/restore/snap_client/tikv_sender.go:99-102 | a file is skipped iff it is an input whose range key is in the checkpoint |
| TableFiles.FileFault | br/pkg/restore/snap_client/tikv_sender.go:69-82 | a file is accepted exactly when its start and end keys decode to the same non-zero table ID |
| TableFiles.FirstFault | br/pkg/restore/snap_client/tikv_sender.go:68-82 | a reported fault belongs to some input file |
| TableFiles.MapTableToFiles | br/pkg/restore/snap_client/tikv_sender.go:64-89 | panics exactly when some file spans tables or decodes to table 0; otherwise each table ID maps to exactly its files in input order, the map holds exactly the IDs that have files, and the hint counts the write-cf files |
| TableFiles.BucketKeys | br/pkg/restore/snap_client/tikv_sender.go:83 | a table ID is a key of the bucket map iff some file belongs to it |
| TableFiles.BucketsGrow | br/pkg/restore/snap_client/tikv_sender.go:83 | appending a file to its bucket extends exactly that table's file list |
| TableFiles.FilesOfTableMembers | br/pkg/restore/snap_client/tikv_sender.go:69-83 | a file is in a table's bucket iff it is an input whose start key decodes to that table |
| TableFiles.FilesOfTableConcat | br/pkg/restore/snap_client/tikv_sender.go:68-83 | bucketing distributes over concatenation of the input |
| TableFiles.BucketsDisjoint | br/pkg/restore/snap_client/tikv_sender.go:83 | two distinct tables' buckets together hold no more files than the input: a file lands in one bucket only |
| TableFiles.FirstFaultIff | br/pkg/restore/snap_client/tikv_sender.go:68-82 | no panic iff every file's keys decode to one non-zero table |
| TableFiles.WriteCFCount | br/pkg/restore/snap_client/tikv_sender.go:84-86 | the split-key hint never exceeds the number of files |
| PhysicalTables.PartitionEntriesGrow | br/pkg/restore/snap_client/tikv_sender.go:46-53 | adding one partition adds exactly its entry |
| PhysicalTables.SwapDown | br/pkg/restore/snap_client/tikv_sender.go:55-58 | one exchange of neighbours keeps the multiset of tables |
| PhysicalTables.InsertIntoPrefix | br/pkg/restore/snap_client/tikv_sender.go:55-58 | inserting one table into a sorted prefix leaves the prefix one longer and sorted, the rest untouched, and the same multiset |
| PhysicalTables.SortByNewID | br/pkg/restore/snap_client/tikv_sender.go:55-58 | the array ends sorted by new physical ID and is a permutation of the original |
| PhysicalTables.PickKey | br/pkg/restore/snap_client/tikv_sender.go:47 | map iteration yields some remaining key |
| PhysicalTables.AppendPartitionEntries | br/pkg/restore/snap_client/tikv_sender.go:46-53 | every partition of the table is appended once, in whatever order the map yields |
| PhysicalTables.FlattenCreatedTables | br/pkg/restore/snap_client/tikv_sender.go:38-54 | the flat list holds one entry per created table and one per partition, as a multiset |
| PhysicalTables.GetSortedPhysicalTables | br/pkg/restore/snap_client/tikv_sender.go:37-60 | the result is sorted by new physical ID and holds exactly the table and partition entries |
| PhysicalTables.SortedTablesUnique | br/pkg/restore/snap_client/tikv_sender.go:55-58 | when new IDs are distinct, the sorted order is unique, so sort instability cannot change the result |
| PhysicalTables.EntriesCarryParentRules | br/pkg/restore/snap_client/tikv_sender.go:40-52 | every physical table comes from one created table, either as itself or as one of its partitions, and carries that table's rewrite rules |
| PhysicalTables.EntriesIncludeEveryPartition | br/pkg/restore/snap_client/tikv_sender.go:40-52 | every created table and every one of its partitions is among the physical tables |
| SplitPlanner.CheckpointOf | br/pkg/restore/snap_client/tikv_sender.go:183 | a table's checkpoint set is its map entry, or empty when it has none |
| SplitPlanner.FirstValidationError | br/pkg/restore/snap_client/tikv_sender.go:155-159 | a reported validation error is the error of some file of the table |
| SplitPlanner.FlushBefore | br/pkg/restore/snap_client/tikv_sender.go:203-221 | a range that does not fit closes the group: the candidate key, if any, becomes the last split key, the open group, if any, the last batch, and the range opens the next group with its own size and count |
| SplitPlanner.FlushAtTableEnd | br/pkg/restore/snap_client/tikv_sender.go:248-262 | the flush at table end adds no split key, drops the candidate key, emits the open group if any, and zeroes the counters |
| SplitPlanner.AppendToGroup | br/pkg/restore/snap_client/tikv_sender.go:234-244 | no new files leave the group unchanged; otherwise a new entry is opened exactly when the group is empty or its last entry is another table's, and it carries the table's new ID, the new files and the table's rewrite rules; otherwise the new files are appended to the last entry, whose ID and rules stay; earlier entries are untouched |
| SplitPlanner.GroupRange | br/pkg/restore/snap_client/tikv_sender.go:203-224 | a range that fits only adds its size and count to the group; one that does not empties the group and restarts the counters from the range |
| SplitPlanner.VisitRange | br/pkg/restore/snap_client/tikv_sender.go:201-244 | one range panics exactly when one of its file names has no `_`, with no report made for it; otherwise it only appends to the split keys, batches and reports, at most one each, and makes its end key the candidate key |
| SplitPlanner.VisitRanges | br/pkg/restore/snap_client/tikv_sender.go:201-245 | a run of ranges only appends to the split keys, batches and reports, and a stop keeps the reports made before it |
| SplitPlanner.VisitTable | br/pkg/restore/snap_client/tikv_sender.go:153-262 | a validation error stops the table before any of its reports; otherwise the table only appends, and with splitOnTable it ends with no candidate key and no open group |
| SplitPlanner.VisitTables | br/pkg/restore/snap_client/tikv_sender.go:153-263 | the table loop only appends to the split keys, batches and reports |
| SplitPlanner.Finish | br/pkg/restore/snap_client/tikv_sender.go:264-276 | the plan always succeeds after the loop: the candidate key, if any, becomes the last split key and the open group, if any, the last batch |
| SplitPlanner.Plan | br/pkg/restore/snap_client/tikv_sender.go:125-277 | a corrupt file makes the plan panic with no report; with no tables and no corrupt file the plan is empty; a successful plan had no corrupt file |
| CheckpointFilter.Kept | br/pkg/restore/snap_client/tikv_sender.go:97-108 | the filter never returns more files than it was given |
| TableFiles.FilesOfTable | br/pkg/restore/snap_client/tikv_sender.go:83 | a table's bucket never holds more files than the input |
| RangeKeys.LastIndex | br/pkg/restore/snap_client/tikv_sender.go:356 | the index found holds the separator and no later index does, or it is -1 when no index does |
| SplitPlanner.ValidateFiles | br/pkg/restore/snap_client/tikv_sender.go:155-159 | the loop returns the first rewrite-rule error in file order, or none |
| SplitPlanner.GenerateSplitKey | br/pkg/restore/snap_client/tikv_sender.go:201-229 | the split-key step: a group that would exceed the size, key-count or merged-count threshold is closed (its last key becomes a split key, its files a batch); the range then becomes the candidate key |
| SplitPlanner.AppendNewFiles | br/pkg/restore/snap_client/tikv_sender.go:234-244 | surviving files join the open group, coalesced into its last entry when that entry is for the same table |
| SplitPlanner.VisitRangeStep | br/pkg/restore/snap_client/tikv_sender.go:201-244 | one range: split-key step, checkpoint filter (which may panic), then grouping |
| SplitPlanner.VisitTableStep | br/pkg/restore/snap_client/tikv_sender.go:153-262 | one table: validation error or merge error stops the plan; otherwise all its ranges are walked and, with splitOnTable, the group is closed without a split key |
| SplitPlanner.VisitSortedTables | br/pkg/restore/snap_client/tikv_sender.go:153-263 | the table loop equals the specification fold over the sorted tables |
| SplitPlanner.SortAndValidateFileRanges | br/pkg/restore/snap_client/tikv_sender.go:125-277 | the tables are walked sorted by new ID and with all partitions; the outcome and the onProgress calls are those of the specification `Plan`; a corrupt file makes the result the panic of the first such file with no progress reported; with no tables and no corrupt file the plan is empty |
| PlanProperties.VisitRangeIgnoresCheckpoint | br/pkg/restore/snap_client/tikv_sender.go:225-233 | one range moves the split state the same whatever the checkpoint |
| PlanProperties.VisitRangesIgnoreCheckpoint | br/pkg/restore/snap_client/tikv_sender.go:201-245 | so does a run of ranges |
| PlanProperties.VisitTableIgnoresCheckpoint | br/pkg/restore/snap_client/tikv_sender.go:180-262 | and one table |
| PlanProperties.VisitTablesIgnoreCheckpoint | br/pkg/restore/snap_client/tikv_sender.go:153-263 | and all tables |
| PlanProperties.SplitKeysIgnoreCheckpoints | br/pkg/restore/snap_client/tikv_sender.go:180-233 | two runs with any two checkpoints both succeed or both stop, with the same split keys or the same stop |
| PlanProperties.AppendToGroupFiles | br/pkg/restore/snap_client/tikv_sender.go:235-244 | grouping appends exactly the new files to the group's files |
| PlanProperties.EmitKeepsPlacedFiles | br/pkg/restore/snap_client/tikv_sender.go:217-221 | closing a group moves its files into the batches, losing none |
| PlanProperties.GroupRangeKeepsPlaced | br/pkg/restore/snap_client/tikv_sender.go:203-224 | the split-key step neither loses files nor reports progress |
| PlanProperties.VisitRangePlaces | br/pkg/restore/snap_client/tikv_sender.go:201-244 | one range places exactly its surviving files |
| PlanProperties.VisitRangeAccounts | br/pkg/restore/snap_client/tikv_sender.go:229-244 | one range's files are each either placed or reported |
| PlanProperties.ReportSum | br/pkg/restore/snap_client/tikv_sender.go:109-111 | the reported total equals the number skipped |
| PlanProperties.VisitRangesPlace | br/pkg/restore/snap_client/tikv_sender.go:201-245 | a run of ranges places exactly its surviving files, in order |
| PlanProperties.VisitRangesAccount | br/pkg/restore/snap_client/tikv_sender.go:201-245 | a run of ranges places or reports every one of its files |
| PlanProperties.KeptOfRangesIsKept | br/pkg/restore/snap_client/tikv_sender.go:201-233 | filtering range by range equals filtering all files of the ranges |
| PlanProperties.OccurrencesIsMultiplicity | br/pkg/restore/snap_client/tikv_sender.go:97-108 | the counting function agrees with multiset multiplicity |
| PlanProperties.KeptOccurrences | br/pkg/restore/snap_client/tikv_sender.go:97-108 | a file outside the checkpoint is kept as often as it occurs |
| PlanProperties.KeptRespectsMultiset | br/pkg/restore/snap_client/tikv_sender.go:97-108 | the checkpoint filter's result, as a multiset, depends only on the input's multiset, so the merge may reorder files |
| PlanProperties.FlushAtTableEndKeepsPlaced | br/pkg/restore/snap_client/tikv_sender.go:248-262 | closing a group at table end loses no file and reports nothing |
| PlanProperties.VisitTablePlaces | br/pkg/restore/snap_client/tikv_sender.go:153-262 | one table places exactly its surviving files and places or reports all of them |
| PlanProperties.VisitTablesPlace | br/pkg/restore/snap_client/tikv_sender.go:153-263 | the same over all tables |
| PlanProperties.FinishPlaces | br/pkg/restore/snap_client/tikv_sender.go:264-276 | the final flush turns every placed file into a batch file |
| PlanProperties.PlanIngestsSurvivingFiles | br/pkg/restore/snap_client/tikv_sender.go:125-277 | a successful plan batches exactly the files of the restored tables that the checkpoint does not skip, and reports all the others through onProgress |
| PlanProperties.SurvivingFilesWithoutCheckpoint | br/pkg/restore/snap_client/tikv_sender.go:183 | with the empty checkpoint map, every table keeps all its files |
| PlanProperties.NoCheckpointIngestsEverything | br/pkg/restore/snap_client/tikv_sender.go:125-277 | without a checkpoint, every file of every restored table is batched and nothing is reported |
| PlanProperties.CorruptFileStopsPlan | br/pkg/restore/snap_client/tikv_sender.go:135 | a file spanning two tables or decoding to table 0 makes the plan panic before any progress report |
| PlanProperties.FirstValidationErrorIff | br/pkg/restore/snap_client/tikv_sender.go:155-159 | validation passes iff every file passes the rewrite-rule check |
| PlanProperties.InvalidRewriteRuleStopsPlan | br/pkg/restore/snap_client/tikv_sender.go:153-159 | a bad file of the first table stops the plan with no progress report; when no file panics first, the stop is the first table's first validation error |
| PlanProperties.VisitTablesPrefix | br/pkg/restore/snap_client/tikv_sender.go:153-263 | walking the tables is walking a prefix, then the rest from the state the prefix left |
| PlanProperties.InvalidRewriteRuleStopsPlanAt | br/pkg/restore/snap_client/tikv_sender.go:153-159 | when the tables before table k pass, a failed validation of table k stops the plan with its first validation error, after exactly the progress reports of the earlier tables |
| PlanProperties.VisitRangesNamesFiles | br/pkg/restore/snap_client/tikv_sender.go:201-233 | a run of ranges that does not panic only saw files whose names contain `_` |
| PlanProperties.VisitTablesNameFiles | br/pkg/restore/snap_client/tikv_sender.go:153-263 | the same over all tables, for every file the merge returned |
| PlanProperties.PlannedFilesHaveRangeKeys | br/pkg/restore/snap_client/tikv_sender.go:97-99 | when the merge returns the files it was given, a successful plan means every file of the restored tables has a range key |
| PlanProperties.PlanOfOneTable | br/pkg/restore/snap_client/tikv_sender.go:125-277 | a plan over one table that passes validation and merging is the final flush of the walk over that table's ranges; with splitOnTable the table-end flush, which drops the candidate key, comes first |
| PlanProperties.ExampleFirstFile | br/pkg/restore/snap_client/tikv_sender.go:353-362 | the file `a_write` has range key `a` and is skipped by the checkpoint `{a}` |
| PlanProperties.ExampleSecondFile | br/pkg/restore/snap_client/tikv_sender.go:353-362 | the file `b_write` is not in the checkpoint `{a}` |
| PlanProperties.ExampleFilter | br/pkg/restore/snap_client/tikv_sender.go:97-108 | filtering `[a_write, b_write]` with the checkpoint `{a}` leaves `[b_write]`; the empty checkpoint keeps both |
| PlanProperties.KeptOne | br/pkg/restore/snap_client/tikv_sender.go:97-108 | a one-file range keeps its file exactly when the checkpoint does not hold it |
| PlanProperties.ExampleFirstMarked | br/pkg/restore/snap_client/tikv_sender.go:203-229 | the first range of size 6 fits an empty group of threshold 10 and becomes the candidate key |
| PlanProperties.ExampleFirstRange | br/pkg/restore/snap_client/tikv_sender.go:201-244 | the first range's file starts the open group, unless the checkpoint skips it, in which case it is reported and the group stays nil |
| PlanProperties.ExampleSecondMarked | br/pkg/restore/snap_client/tikv_sender.go:203-229 | the second range overflows the size threshold: the candidate key becomes a split key and the open group, if any, a batch |
| PlanProperties.ExampleSecondRange | br/pkg/restore/snap_client/tikv_sender.go:201-244 | the second range's file then starts a new open group |
| PlanProperties.VisitTwoRanges | br/pkg/restore/snap_client/tikv_sender.go:201-245 | walking two ranges is visiting one, then the other |
| PlanProperties.TwoRangesWalk | br/pkg/restore/snap_client/tikv_sender.go:201-245 | after both ranges the split keys are the same with or without the first file in the checkpoint; a closed batch exists only without it |
| PlanProperties.CheckpointCanChangeBatches | br/pkg/restore/snap_client/tikv_sender.go:125-277 | two runs differing only in the checkpoint plan the same split keys but two batches against one |
| PlanShape.AppendToGroupWellFormed | br/pkg/restore/snap_client/tikv_sender.go:235-244 | grouping keeps the open group free of empty entries and of adjacent entries for one table |
| PlanShape.VisitRangeWellFormed | br/pkg/restore/snap_client/tikv_sender.go:201-244 | one range keeps every batch and the open group well formed |
| PlanShape.VisitRangesWellFormed | br/pkg/restore/snap_client/tikv_sender.go:201-245 | so does a run of ranges |
| PlanShape.VisitTableWellFormed | br/pkg/restore/snap_client/tikv_sender.go:153-262 | and one table |
| PlanShape.VisitTablesWellFormed | br/pkg/restore/snap_client/tikv_sender.go:153-263 | and all tables |
| PlanShape.PlannedBatchesWellFormed | br/pkg/restore/snap_client/tikv_sender.go:125-277 | no planned batch is empty, no entry is empty, and neighbouring entries of a batch belong to different tables |
| PlanShape.FirstRangeEmitsNothing | br/pkg/restore/snap_client/tikv_sender.go:213-221 | the first range of the walk emits neither a split key nor a batch |
| PlanShape.AppendToGroupAscending | br/pkg/restore/snap_client/tikv_sender.go:234-244 | grouping a table whose ID is at least the open group's last ID keeps the group's table IDs strictly ascending, a same-ID file set being coalesced |
| PlanShape.VisitRangeAscending | br/pkg/restore/snap_client/tikv_sender.go:201-244 | one range keeps every batch and the open group ascending, with IDs at most the current table's |
| PlanShape.VisitRangesAscending | br/pkg/restore/snap_client/tikv_sender.go:201-245 | so does a run of ranges |
| PlanShape.VisitTableAscending | br/pkg/restore/snap_client/tikv_sender.go:153-262 | and one table |
| PlanShape.VisitTablesAscending | br/pkg/restore/snap_client/tikv_sender.go:153-263 | and tables walked in new-ID order |
| PlanShape.PlannedBatchesAscending | br/pkg/restore/snap_client/tikv_sender.go:234-244 | when the tables are walked sorted by new ID, the table IDs of every planned batch are strictly ascending, so each table has at most one entry per batch |
| PlanShape.VisitRangeIsolated | br/pkg/restore/snap_client/tikv_sender.go:234-244 | when batches hold one entry and the open group holds only this table's entry, one range of the table keeps it so |
| PlanShape.VisitRangesIsolated | br/pkg/restore/snap_client/tikv_sender.go:201-245 | so does a run of ranges |
| PlanShape.VisitTableIsolated | br/pkg/restore/snap_client/tikv_sender.go:246-262 | with splitOnTable, every table ends with no open group, no candidate key and zero counters |
| PlanShape.VisitTablesIsolated | br/pkg/restore/snap_client/tikv_sender.go:153-263 | so every batch emitted holds one entry |
| PlanShape.SplitOnTableIsolatesTables | br/pkg/restore/snap_client/tikv_sender.go:246-262 | with splitOnTable, every planned batch holds the files of exactly one table |
| PlanShape.GroupWithinThresholds | br/pkg/restore/snap_client/tikv_sender.go:201-229 | after a run of ranges the open group is within the size and key-count thresholds unless it is the last range alone, and it folded at most MergedRangeCountThreshold files before that range's |
| PlanShape.VisitRangesKeys | br/pkg/restore/snap_client/tikv_sender.go:213-226 | every split key and the candidate key of a run of ranges is an end key of those ranges |
| PlanShape.VisitTablesKeys | br/pkg/restore/snap_client/tikv_sender.go:153-263 | the same over all tables |
| BatchOrigin.KeptFileSurvives | br/pkg/restore/snap_client/tikv_sender.go:229-233 | a file of a table's merged range that the checkpoint keeps is one of that table's survivors |
| BatchOrigin.AppendToGroupFromTables | br/pkg/restore/snap_client/tikv_sender.go:234-244 | grouping a restored table's survivors keeps every entry of the open group tied to a restored table: its ID and rules are that table's, its files survivors of a table with that ID |
| BatchOrigin.VisitRangeFromTables | br/pkg/restore/snap_client/tikv_sender.go:201-244 | one range keeps every batch entry and every open-group entry tied to a restored table |
| BatchOrigin.VisitRangesFromTables | br/pkg/restore/snap_client/tikv_sender.go:201-245 | so does a run of ranges |
| BatchOrigin.VisitTableFromTables | br/pkg/restore/snap_client/tikv_sender.go:153-262 | and one table, when the merge returns the files it was given |
| BatchOrigin.VisitTablesFromTables | br/pkg/restore/snap_client/tikv_sender.go:153-263 | and all tables |
| BatchOrigin.PlannedEntriesFromTables | br/pkg/restore/snap_client/tikv_sender.go:236-243 | every entry of every planned batch names a restored table's new ID, carries that table's rewrite rules, and holds only files that survived the checkpoint for a table with that ID |
| PlanShape.SplitKeysAreRangeEnds | br/pkg/restore/snap_client/tikv_sender.go:264-267 | every split key is the end key of some merged range: regions are never split inside a range |

## Left out

- `RestoreTables`, `SplitPoints`, `RestoreSSTFiles` and the rest of the
  file. They do I/O against the cluster and are not part of this model.
- Logging, the `summary` counters, and the `totalKvs`/`totalBytes` and
  merge statistics. These are only reported, never decided on.
- The internals of `DecodeTableID`, `ValidateFileRewriteRule`,
  `MergeAndRewriteFileRanges` and `GetPartitionIDMap`. They are parameters.
  The file-accounting and batch-origin lemmas assume that the merge
  returns the files it was given (`PlanProperties.MergeKeepsFiles`). Nothing else about the
  merge is assumed.
- SplitPlanner.SortAndValidateFileRanges: does not model the `uint64`
  wrap-around of `groupSize + rg.Size` and `groupCount + rg.Count`. The
  sums are unbounded integers.
- CheckpointFilter.ProgressReport: reports `progress` itself, because
  `int64(progress) * 2 / 2` equals `progress` without overflow. `int64`
  overflow is not modelled.
- The capacity hints of `make` only pre-size slices. The hint returned by
  `mapTableToFiles` is modelled; its use as a capacity is not.
- The Go map iteration order in `getSortedPhysicalTables` is an arbitrary
  choice, and `sort.Slice` is unstable. PhysicalTables.GetSortedPhysicalTables
  states only that the result is sorted and a permutation of the entries.
  When new IDs are distinct that determines the result
  (`SortedTablesUnique`).
- Nil and empty byte slices are not distinguished. A merged range's end
  key always becomes the candidate split key, whereas Go skips a nil
  `lastKey`.
- PlanShape.SplitKeysAreRangeEnds: states where the split keys come from,
  not that they are ascending. Ordering depends on the merge and on the
  table ID encoding, which are outside the model.
- Reference identity of the returned `*PhysicalTable` and `*backuppb.File`
  values: files are compared by value.
