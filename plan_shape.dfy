/**
 * The shape of the split plan: batches are non-empty runs of per-table
 * entries, splitOnTable keeps every batch to one table, a group stays
 * within its thresholds unless one range alone exceeds them, and regions
 * are split only at the end key of a merged range.
 */
module PlanShape {
  import opened Wrappers
  import opened RestoreTypes
  import opened CheckpointFilter
  import opened TableFiles
  import opened PhysicalTables
  import opened SplitPlanner

  // ---------------------------------------------------------------------
  // Well-formed batches

  /** A batch holds at least one entry, no entry is empty, and neighbouring entries belong to different tables. */
  predicate WellFormedBatch(batch: Batch) {
    && batch != []
    && (forall k :: 0 <= k < |batch| ==> batch[k].sstFiles != [])
    && (forall k :: 0 < k < |batch| ==> batch[k - 1].tableID != batch[k].tableID)
  }

  predicate WellFormedState(st: PlannerState) {
    && (forall k :: 0 <= k < |st.tableIDWithFilesGroup| ==> WellFormedBatch(st.tableIDWithFilesGroup[k]))
    && (st.lastFilesGroup == [] || WellFormedBatch(st.lastFilesGroup))
  }

  lemma AppendToGroupWellFormed(group: Batch, table: PhysicalTable, newFiles: seq<BackupFile>)
    requires group == [] || WellFormedBatch(group)
    ensures AppendToGroup(group, table, newFiles) == [] || WellFormedBatch(AppendToGroup(group, table, newFiles))
  {
    if newFiles != [] && group != [] && group[|group| - 1].tableID == table.newPhysicalID {
      var grown := AppendToGroup(group, table, newFiles);
      assert forall k :: 0 <= k < |group| - 1 ==> grown[k] == group[k];
    }
  }

  lemma VisitRangeWellFormed(st: PlannerState, rg: MergedRange, table: PhysicalTable, checkpointSet: set<string>, cfg: SplitConfig)
    requires WellFormedState(st)
    requires VisitRange(st, rg, table, checkpointSet, cfg).Ok?
    ensures WellFormedState(VisitRange(st, rg, table, checkpointSet, cfg).value)
  {
    var marked := MarkRange(GroupRange(st, rg, cfg), rg);
    assert WellFormedState(marked);
    AppendToGroupWellFormed(marked.lastFilesGroup, table, Kept(checkpointSet, rg.files));
  }

  lemma {:induction false} VisitRangesWellFormed(
    st: PlannerState, ranges: seq<MergedRange>, table: PhysicalTable, checkpointSet: set<string>, cfg: SplitConfig)
    requires WellFormedState(st)
    requires VisitRanges(st, ranges, table, checkpointSet, cfg).Ok?
    ensures WellFormedState(VisitRanges(st, ranges, table, checkpointSet, cfg).value)
    decreases |ranges|
  {
    if ranges != [] {
      VisitRangeWellFormed(st, ranges[0], table, checkpointSet, cfg);
      VisitRangesWellFormed(VisitRange(st, ranges[0], table, checkpointSet, cfg).value, ranges[1..], table, checkpointSet, cfg);
    }
  }

  lemma VisitTableWellFormed(
    st: PlannerState, table: PhysicalTable, allFiles: seq<BackupFile>,
    checkpointSetWithTableID: map<int, set<string>>, cfg: SplitConfig, env: Collaborators)
    requires WellFormedState(st)
    requires VisitTable(st, table, allFiles, checkpointSetWithTableID, cfg, env).Ok?
    ensures WellFormedState(VisitTable(st, table, allFiles, checkpointSetWithTableID, cfg, env).value)
  {
    var files := FilesOfTable(allFiles, env.decodeTableID, table.oldPhysicalID);
    var sortedRanges := env.mergeAndRewriteFileRanges(files, table.rewriteRules, cfg.splitSizeBytes, cfg.splitKeyCount).value;
    VisitRangesWellFormed(st, sortedRanges, table, CheckpointOf(checkpointSetWithTableID, table.newPhysicalID), cfg);
  }

  lemma {:induction false} VisitTablesWellFormed(
    st: PlannerState, tables: seq<PhysicalTable>, allFiles: seq<BackupFile>,
    checkpointSetWithTableID: map<int, set<string>>, cfg: SplitConfig, env: Collaborators)
    requires WellFormedState(st)
    requires VisitTables(st, tables, allFiles, checkpointSetWithTableID, cfg, env).Ok?
    ensures WellFormedState(VisitTables(st, tables, allFiles, checkpointSetWithTableID, cfg, env).value)
    decreases |tables|
  {
    if tables != [] {
      VisitTableWellFormed(st, tables[0], allFiles, checkpointSetWithTableID, cfg, env);
      VisitTablesWellFormed(
        VisitTable(st, tables[0], allFiles, checkpointSetWithTableID, cfg, env).value, tables[1..],
        allFiles, checkpointSetWithTableID, cfg, env);
    }
  }

  /**
   * No planned batch is empty, no entry of a batch is empty, and
   * neighbouring entries of a batch belong to different tables. When the
   * tables are walked sorted by new ID, PlannedBatchesAscending gives more:
   * one table has at most one entry per batch.
   */
  lemma PlannedBatchesWellFormed(
    tables: seq<PhysicalTable>, allFiles: seq<BackupFile>,
    checkpointSetWithTableID: map<int, set<string>>, cfg: SplitConfig, env: Collaborators)
    requires Plan(tables, allFiles, checkpointSetWithTableID, cfg, env).outcome.Planned?
    ensures var batches := Plan(tables, allFiles, checkpointSetWithTableID, cfg, env).outcome.tableIDWithFilesGroup;
      forall k :: 0 <= k < |batches| ==> WellFormedBatch(batches[k])
  {
    VisitTablesWellFormed(Initial, tables, allFiles, checkpointSetWithTableID, cfg, env);
  }

  // ---------------------------------------------------------------------
  // Tables walked in new-ID order give each table one entry per batch

  /** The entries of a batch strictly ascend by table ID, so no table has two entries in it. */
  predicate AscendingBatch(batch: Batch) {
    forall i, j :: 0 <= i < j < |batch| ==> batch[i].tableID < batch[j].tableID
  }

  predicate AscendingBatches(st: PlannerState) {
    && (forall k :: 0 <= k < |st.tableIDWithFilesGroup| ==> AscendingBatch(st.tableIDWithFilesGroup[k]))
    && AscendingBatch(st.lastFilesGroup)
  }

  /** The pending batch ends with a table no later than `bound`. */
  predicate PendingAtMost(st: PlannerState, bound: int) {
    st.lastFilesGroup != [] ==> st.lastFilesGroup[|st.lastFilesGroup| - 1].tableID <= bound
  }

  lemma AppendToGroupAscending(group: Batch, table: PhysicalTable, newFiles: seq<BackupFile>)
    requires AscendingBatch(group)
    requires group != [] ==> group[|group| - 1].tableID <= table.newPhysicalID
    ensures var grown := AppendToGroup(group, table, newFiles);
      && AscendingBatch(grown)
      && (grown != [] ==> grown[|grown| - 1].tableID <= table.newPhysicalID)
  {
    var grown := AppendToGroup(group, table, newFiles);
    if newFiles != [] {
      if group == [] || group[|group| - 1].tableID != table.newPhysicalID {
        assert forall k :: 0 <= k < |group| ==> grown[k] == group[k];
        assert forall k :: 0 <= k < |group| ==> group[k].tableID <= group[|group| - 1].tableID;
      } else {
        assert forall k :: 0 <= k < |group| - 1 ==> grown[k] == group[k];
        assert grown[|group| - 1].tableID == group[|group| - 1].tableID;
      }
    }
  }

  lemma VisitRangeAscending(st: PlannerState, rg: MergedRange, table: PhysicalTable, checkpointSet: set<string>, cfg: SplitConfig)
    requires AscendingBatches(st) && PendingAtMost(st, table.newPhysicalID)
    requires VisitRange(st, rg, table, checkpointSet, cfg).Ok?
    ensures var next := VisitRange(st, rg, table, checkpointSet, cfg).value;
      AscendingBatches(next) && PendingAtMost(next, table.newPhysicalID)
  {
    var marked := MarkRange(GroupRange(st, rg, cfg), rg);
    assert AscendingBatches(marked) && PendingAtMost(marked, table.newPhysicalID);
    AppendToGroupAscending(marked.lastFilesGroup, table, Kept(checkpointSet, rg.files));
  }

  lemma {:induction false} VisitRangesAscending(
    st: PlannerState, ranges: seq<MergedRange>, table: PhysicalTable, checkpointSet: set<string>, cfg: SplitConfig)
    requires AscendingBatches(st) && PendingAtMost(st, table.newPhysicalID)
    requires VisitRanges(st, ranges, table, checkpointSet, cfg).Ok?
    ensures var next := VisitRanges(st, ranges, table, checkpointSet, cfg).value;
      AscendingBatches(next) && PendingAtMost(next, table.newPhysicalID)
    decreases |ranges|
  {
    if ranges != [] {
      VisitRangeAscending(st, ranges[0], table, checkpointSet, cfg);
      VisitRangesAscending(VisitRange(st, ranges[0], table, checkpointSet, cfg).value, ranges[1..], table, checkpointSet, cfg);
    }
  }

  lemma VisitTableAscending(
    st: PlannerState, table: PhysicalTable, allFiles: seq<BackupFile>,
    checkpointSetWithTableID: map<int, set<string>>, cfg: SplitConfig, env: Collaborators)
    requires AscendingBatches(st) && PendingAtMost(st, table.newPhysicalID)
    requires VisitTable(st, table, allFiles, checkpointSetWithTableID, cfg, env).Ok?
    ensures var next := VisitTable(st, table, allFiles, checkpointSetWithTableID, cfg, env).value;
      AscendingBatches(next) && PendingAtMost(next, table.newPhysicalID)
  {
    var files := FilesOfTable(allFiles, env.decodeTableID, table.oldPhysicalID);
    var sortedRanges := env.mergeAndRewriteFileRanges(files, table.rewriteRules, cfg.splitSizeBytes, cfg.splitKeyCount).value;
    VisitRangesAscending(st, sortedRanges, table, CheckpointOf(checkpointSetWithTableID, table.newPhysicalID), cfg);
  }

  lemma {:induction false} VisitTablesAscending(
    st: PlannerState, tables: seq<PhysicalTable>, allFiles: seq<BackupFile>,
    checkpointSetWithTableID: map<int, set<string>>, cfg: SplitConfig, env: Collaborators)
    requires SortedByNewID(tables)
    requires AscendingBatches(st) && (tables != [] ==> PendingAtMost(st, tables[0].newPhysicalID))
    requires VisitTables(st, tables, allFiles, checkpointSetWithTableID, cfg, env).Ok?
    ensures AscendingBatches(VisitTables(st, tables, allFiles, checkpointSetWithTableID, cfg, env).value)
    decreases |tables|
  {
    if tables != [] {
      VisitTableAscending(st, tables[0], allFiles, checkpointSetWithTableID, cfg, env);
      var next := VisitTable(st, tables[0], allFiles, checkpointSetWithTableID, cfg, env).value;
      if |tables| > 1 {
        assert tables[0].newPhysicalID <= tables[1].newPhysicalID;
      }
      assert SortedByNewID(tables[1..]) by {
        assert forall i :: 0 <= i < |tables[1..]| ==> tables[1..][i] == tables[i + 1];
      }
      VisitTablesAscending(next, tables[1..], allFiles, checkpointSetWithTableID, cfg, env);
    }
  }

  /**
   * When the tables are walked in new-ID order, as SortAndValidateFileRanges
   * does, the entries of every planned batch strictly ascend by table ID:
   * the files of one table that fall in one batch form one entry.
   */
  lemma PlannedBatchesAscending(
    tables: seq<PhysicalTable>, allFiles: seq<BackupFile>,
    checkpointSetWithTableID: map<int, set<string>>, cfg: SplitConfig, env: Collaborators)
    requires SortedByNewID(tables)
    requires Plan(tables, allFiles, checkpointSetWithTableID, cfg, env).outcome.Planned?
    ensures var batches := Plan(tables, allFiles, checkpointSetWithTableID, cfg, env).outcome.tableIDWithFilesGroup;
      forall k :: 0 <= k < |batches| ==> AscendingBatch(batches[k])
  {
    VisitTablesAscending(Initial, tables, allFiles, checkpointSetWithTableID, cfg, env);
  }

  /** The very first range starts from no candidate key and no pending batch, so it emits neither. */
  lemma FirstRangeEmitsNothing(rg: MergedRange, table: PhysicalTable, checkpointSet: set<string>, cfg: SplitConfig)
    requires VisitRange(Initial, rg, table, checkpointSet, cfg).Ok?
    ensures VisitRange(Initial, rg, table, checkpointSet, cfg).value.sortedSplitKeys == []
    ensures VisitRange(Initial, rg, table, checkpointSet, cfg).value.tableIDWithFilesGroup == []
  {
  }

  // ---------------------------------------------------------------------
  // splitOnTable keeps every batch to one table

  predicate SingleEntryBatches(batches: seq<Batch>) {
    forall k :: 0 <= k < |batches| ==> |batches[k]| == 1
  }

  /** The pending batch is empty or one entry of the given table. */
  predicate PendingOnly(group: Batch, tableID: int) {
    group == [] || (|group| == 1 && group[0].tableID == tableID)
  }

  lemma VisitRangeIsolated(st: PlannerState, rg: MergedRange, table: PhysicalTable, checkpointSet: set<string>, cfg: SplitConfig)
    requires SingleEntryBatches(st.tableIDWithFilesGroup) && PendingOnly(st.lastFilesGroup, table.newPhysicalID)
    requires VisitRange(st, rg, table, checkpointSet, cfg).Ok?
    ensures var next := VisitRange(st, rg, table, checkpointSet, cfg).value;
      SingleEntryBatches(next.tableIDWithFilesGroup) && PendingOnly(next.lastFilesGroup, table.newPhysicalID)
  {
    var marked := MarkRange(GroupRange(st, rg, cfg), rg);
    assert SingleEntryBatches(marked.tableIDWithFilesGroup) && PendingOnly(marked.lastFilesGroup, table.newPhysicalID);
  }

  lemma {:induction false} VisitRangesIsolated(
    st: PlannerState, ranges: seq<MergedRange>, table: PhysicalTable, checkpointSet: set<string>, cfg: SplitConfig)
    requires SingleEntryBatches(st.tableIDWithFilesGroup) && PendingOnly(st.lastFilesGroup, table.newPhysicalID)
    requires VisitRanges(st, ranges, table, checkpointSet, cfg).Ok?
    ensures var next := VisitRanges(st, ranges, table, checkpointSet, cfg).value;
      SingleEntryBatches(next.tableIDWithFilesGroup) && PendingOnly(next.lastFilesGroup, table.newPhysicalID)
    decreases |ranges|
  {
    if ranges != [] {
      VisitRangeIsolated(st, ranges[0], table, checkpointSet, cfg);
      VisitRangesIsolated(VisitRange(st, ranges[0], table, checkpointSet, cfg).value, ranges[1..], table, checkpointSet, cfg);
    }
  }

  /** Under splitOnTable a table starts and leaves an empty group with no candidate split key. */
  lemma VisitTableIsolated(
    st: PlannerState, table: PhysicalTable, allFiles: seq<BackupFile>,
    checkpointSetWithTableID: map<int, set<string>>, cfg: SplitConfig, env: Collaborators)
    requires cfg.splitOnTable
    requires SingleEntryBatches(st.tableIDWithFilesGroup) && st.lastFilesGroup == []
    requires VisitTable(st, table, allFiles, checkpointSetWithTableID, cfg, env).Ok?
    ensures var next := VisitTable(st, table, allFiles, checkpointSetWithTableID, cfg, env).value;
      && SingleEntryBatches(next.tableIDWithFilesGroup) && next.lastFilesGroup == []
      && next.lastKey.None? && next.groupSize == 0 && next.groupCount == 0 && next.mergedRangeCount == 0
  {
    var files := FilesOfTable(allFiles, env.decodeTableID, table.oldPhysicalID);
    var sortedRanges := env.mergeAndRewriteFileRanges(files, table.rewriteRules, cfg.splitSizeBytes, cfg.splitKeyCount).value;
    VisitRangesIsolated(st, sortedRanges, table, CheckpointOf(checkpointSetWithTableID, table.newPhysicalID), cfg);
  }

  lemma {:induction false} VisitTablesIsolated(
    st: PlannerState, tables: seq<PhysicalTable>, allFiles: seq<BackupFile>,
    checkpointSetWithTableID: map<int, set<string>>, cfg: SplitConfig, env: Collaborators)
    requires cfg.splitOnTable
    requires SingleEntryBatches(st.tableIDWithFilesGroup) && st.lastFilesGroup == []
    requires VisitTables(st, tables, allFiles, checkpointSetWithTableID, cfg, env).Ok?
    ensures var next := VisitTables(st, tables, allFiles, checkpointSetWithTableID, cfg, env).value;
      SingleEntryBatches(next.tableIDWithFilesGroup) && next.lastFilesGroup == []
    decreases |tables|
  {
    if tables != [] {
      VisitTableIsolated(st, tables[0], allFiles, checkpointSetWithTableID, cfg, env);
      VisitTablesIsolated(
        VisitTable(st, tables[0], allFiles, checkpointSetWithTableID, cfg, env).value, tables[1..],
        allFiles, checkpointSetWithTableID, cfg, env);
    }
  }

  /** With splitOnTable, every planned batch holds the files of exactly one table. */
  lemma SplitOnTableIsolatesTables(
    tables: seq<PhysicalTable>, allFiles: seq<BackupFile>,
    checkpointSetWithTableID: map<int, set<string>>, cfg: SplitConfig, env: Collaborators)
    requires cfg.splitOnTable
    requires Plan(tables, allFiles, checkpointSetWithTableID, cfg, env).outcome.Planned?
    ensures SingleEntryBatches(Plan(tables, allFiles, checkpointSetWithTableID, cfg, env).outcome.tableIDWithFilesGroup)
  {
    VisitTablesIsolated(Initial, tables, allFiles, checkpointSetWithTableID, cfg, env);
  }

  // ---------------------------------------------------------------------
  // Group thresholds

  /**
   * After a run of ranges, the open group is within the size and key-count
   * thresholds unless it is the last range alone, and it has folded at most
   * MergedRangeCountThreshold files before that range's.
   */
  lemma {:induction false} GroupWithinThresholds(
    st: PlannerState, ranges: seq<MergedRange>, table: PhysicalTable, checkpointSet: set<string>, cfg: SplitConfig)
    requires ranges != []
    requires VisitRanges(st, ranges, table, checkpointSet, cfg).Ok?
    ensures var next := VisitRanges(st, ranges, table, checkpointSet, cfg).value;
      var last := ranges[|ranges| - 1];
      && (next.groupSize <= cfg.splitSizeBytes || next.groupSize == last.size)
      && (next.groupCount <= cfg.splitKeyCount || next.groupCount == last.count)
      && next.mergedRangeCount <= MergedRangeCountThreshold + |last.files|
    decreases |ranges|
  {
    var next := VisitRange(st, ranges[0], table, checkpointSet, cfg).value;
    if |ranges| == 1 {
      assert VisitRanges(next, ranges[1..], table, checkpointSet, cfg) == Ok(next);
    } else {
      GroupWithinThresholds(next, ranges[1..], table, checkpointSet, cfg);
    }
  }

  // ---------------------------------------------------------------------
  // Split keys are range end keys

  /** Every split key, and the candidate key, is one of the given end keys. */
  predicate KeysFrom(st: PlannerState, ends: set<Key>) {
    && (forall k :: 0 <= k < |st.sortedSplitKeys| ==> st.sortedSplitKeys[k] in ends)
    && (st.lastKey.Some? ==> st.lastKey.value in ends)
  }

  function EndKeys(ranges: seq<MergedRange>): set<Key> {
    set k | 0 <= k < |ranges| :: ranges[k].endKey
  }

  /** The end keys of the merged ranges of every table whose merge succeeds. */
  function TablesEndKeys(tables: seq<PhysicalTable>, allFiles: seq<BackupFile>, cfg: SplitConfig, env: Collaborators): set<Key> {
    if tables == [] then {}
    else
      var files := FilesOfTable(allFiles, env.decodeTableID, tables[0].oldPhysicalID);
      var merged := env.mergeAndRewriteFileRanges(files, tables[0].rewriteRules, cfg.splitSizeBytes, cfg.splitKeyCount);
      (if merged.Ok? then EndKeys(merged.value) else {}) + TablesEndKeys(tables[1..], allFiles, cfg, env)
  }

  lemma {:induction false} VisitRangesKeys(
    st: PlannerState, ranges: seq<MergedRange>, table: PhysicalTable, checkpointSet: set<string>, cfg: SplitConfig, ends: set<Key>)
    requires KeysFrom(st, ends) && EndKeys(ranges) <= ends
    requires VisitRanges(st, ranges, table, checkpointSet, cfg).Ok?
    ensures KeysFrom(VisitRanges(st, ranges, table, checkpointSet, cfg).value, ends)
    decreases |ranges|
  {
    if ranges != [] {
      var next := VisitRange(st, ranges[0], table, checkpointSet, cfg).value;
      assert ranges[0].endKey in EndKeys(ranges);
      assert KeysFrom(next, ends);
      assert EndKeys(ranges[1..]) <= EndKeys(ranges) by {
        forall k | 0 <= k < |ranges[1..]| ensures ranges[1..][k].endKey in EndKeys(ranges) {
          assert ranges[1..][k] == ranges[k + 1];
        }
      }
      VisitRangesKeys(next, ranges[1..], table, checkpointSet, cfg, ends);
    }
  }

  lemma {:induction false} VisitTablesKeys(
    st: PlannerState, tables: seq<PhysicalTable>, allFiles: seq<BackupFile>,
    checkpointSetWithTableID: map<int, set<string>>, cfg: SplitConfig, env: Collaborators, ends: set<Key>)
    requires KeysFrom(st, ends) && TablesEndKeys(tables, allFiles, cfg, env) <= ends
    requires VisitTables(st, tables, allFiles, checkpointSetWithTableID, cfg, env).Ok?
    ensures KeysFrom(VisitTables(st, tables, allFiles, checkpointSetWithTableID, cfg, env).value, ends)
    decreases |tables|
  {
    if tables != [] {
      var table := tables[0];
      var files := FilesOfTable(allFiles, env.decodeTableID, table.oldPhysicalID);
      var sortedRanges := env.mergeAndRewriteFileRanges(files, table.rewriteRules, cfg.splitSizeBytes, cfg.splitKeyCount).value;
      VisitRangesKeys(st, sortedRanges, table, CheckpointOf(checkpointSetWithTableID, table.newPhysicalID), cfg, ends);
      var next := VisitTable(st, table, allFiles, checkpointSetWithTableID, cfg, env).value;
      assert KeysFrom(next, ends);
      VisitTablesKeys(next, tables[1..], allFiles, checkpointSetWithTableID, cfg, env, ends);
    }
  }

  /** Regions are split only at the end key of a merged range: no range is ever cut in two. */
  lemma SplitKeysAreRangeEnds(
    tables: seq<PhysicalTable>, allFiles: seq<BackupFile>,
    checkpointSetWithTableID: map<int, set<string>>, cfg: SplitConfig, env: Collaborators)
    requires Plan(tables, allFiles, checkpointSetWithTableID, cfg, env).outcome.Planned?
    ensures var keys := Plan(tables, allFiles, checkpointSetWithTableID, cfg, env).outcome.sortedSplitKeys;
      forall k :: 0 <= k < |keys| ==> keys[k] in TablesEndKeys(tables, allFiles, cfg, env)
  {
    var ends := TablesEndKeys(tables, allFiles, cfg, env);
    VisitTablesKeys(Initial, tables, allFiles, checkpointSetWithTableID, cfg, env, ends);
  }
}
