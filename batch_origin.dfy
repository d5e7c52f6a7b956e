/**
 * Where the entries of a batch come from: every BackupFileSet names a
 * restored table by its new ID, carries that table's rewrite rules, and
 * holds only files of a table with that new ID that the checkpoint did not
 * skip.
 */
module BatchOrigin {
  import opened Wrappers
  import opened RestoreTypes
  import opened CheckpointFilter
  import opened TableFiles
  import opened SplitPlanner
  import opened PlanProperties

  /** A surviving file of some restored table whose new ID is `tableID`. */
  predicate SurvivorOf(
    f: BackupFile, tableID: int, tables: seq<PhysicalTable>, allFiles: seq<BackupFile>,
    checkpointSetWithTableID: map<int, set<string>>, decode: Key -> int)
  {
    exists t :: t in tables && t.newPhysicalID == tableID && f in TableSurvivors(t, allFiles, checkpointSetWithTableID, decode)
  }

  /** The entry carries the ID and rules of one restored table, and only survivors of tables with that ID. */
  predicate EntryFromTables(
    e: BackupFileSet, tables: seq<PhysicalTable>, allFiles: seq<BackupFile>,
    checkpointSetWithTableID: map<int, set<string>>, decode: Key -> int)
  {
    && (exists t :: t in tables && t.newPhysicalID == e.tableID && t.rewriteRules == e.rewriteRules)
    && (forall f :: f in e.sstFiles ==> SurvivorOf(f, e.tableID, tables, allFiles, checkpointSetWithTableID, decode))
  }

  predicate BatchFromTables(
    batch: Batch, tables: seq<PhysicalTable>, allFiles: seq<BackupFile>,
    checkpointSetWithTableID: map<int, set<string>>, decode: Key -> int)
  {
    forall i :: 0 <= i < |batch| ==> EntryFromTables(batch[i], tables, allFiles, checkpointSetWithTableID, decode)
  }

  /** Every emitted batch and the open group are made of entries from the tables. */
  predicate StateFromTables(
    st: PlannerState, tables: seq<PhysicalTable>, allFiles: seq<BackupFile>,
    checkpointSetWithTableID: map<int, set<string>>, decode: Key -> int)
  {
    && (forall k :: 0 <= k < |st.tableIDWithFilesGroup| ==>
          BatchFromTables(st.tableIDWithFilesGroup[k], tables, allFiles, checkpointSetWithTableID, decode))
    && BatchFromTables(st.lastFilesGroup, tables, allFiles, checkpointSetWithTableID, decode)
  }

  /** A file of a merged range that the checkpoint keeps survives for the table, when the range came from its files. */
  lemma KeptFileSurvives(
    f: BackupFile, rg: MergedRange, table: PhysicalTable, allFiles: seq<BackupFile>,
    checkpointSetWithTableID: map<int, set<string>>, decode: Key -> int)
    requires forall g :: g in rg.files ==> g in FilesOfTable(allFiles, decode, table.oldPhysicalID)
    requires f in Kept(CheckpointOf(checkpointSetWithTableID, table.newPhysicalID), rg.files)
    ensures f in TableSurvivors(table, allFiles, checkpointSetWithTableID, decode)
  {
    var checkpointSet := CheckpointOf(checkpointSetWithTableID, table.newPhysicalID);
    KeptMembers(checkpointSet, rg.files, f);
    KeptMembers(checkpointSet, FilesOfTable(allFiles, decode, table.oldPhysicalID), f);
  }

  /** Grouping a restored table's survivors keeps every entry of the open group from the tables. */
  lemma AppendToGroupFromTables(
    group: Batch, table: PhysicalTable, newFiles: seq<BackupFile>, tables: seq<PhysicalTable>, allFiles: seq<BackupFile>,
    checkpointSetWithTableID: map<int, set<string>>, decode: Key -> int)
    requires BatchFromTables(group, tables, allFiles, checkpointSetWithTableID, decode)
    requires table in tables
    requires forall f :: f in newFiles ==> f in TableSurvivors(table, allFiles, checkpointSetWithTableID, decode)
    ensures BatchFromTables(AppendToGroup(group, table, newFiles), tables, allFiles, checkpointSetWithTableID, decode)
  {
    var grown := AppendToGroup(group, table, newFiles);
    if newFiles != [] {
      var last := grown[|grown| - 1];
      assert EntryFromTables(last, tables, allFiles, checkpointSetWithTableID, decode) by {
        if |grown| == |group| + 1 {
          assert last == BackupFileSet(table.newPhysicalID, newFiles, table.rewriteRules);
          assert forall f :: f in last.sstFiles ==> SurvivorOf(f, last.tableID, tables, allFiles, checkpointSetWithTableID, decode);
        } else {
          var previous := group[|group| - 1];
          assert EntryFromTables(previous, tables, allFiles, checkpointSetWithTableID, decode);
          assert last.tableID == previous.tableID == table.newPhysicalID;
          forall f | f in last.sstFiles
            ensures SurvivorOf(f, last.tableID, tables, allFiles, checkpointSetWithTableID, decode)
          {
            assert f in previous.sstFiles || f in newFiles;
          }
        }
      }
      assert forall i :: 0 <= i < |grown| - 1 ==> grown[i] == group[i];
    }
  }

  /** One range of a restored table keeps every batch and the open group made of entries from the tables. */
  lemma VisitRangeFromTables(
    st: PlannerState, rg: MergedRange, table: PhysicalTable, cfg: SplitConfig, tables: seq<PhysicalTable>,
    allFiles: seq<BackupFile>, checkpointSetWithTableID: map<int, set<string>>, decode: Key -> int)
    requires StateFromTables(st, tables, allFiles, checkpointSetWithTableID, decode)
    requires table in tables
    requires forall f :: f in rg.files ==> f in FilesOfTable(allFiles, decode, table.oldPhysicalID)
    requires VisitRange(st, rg, table, CheckpointOf(checkpointSetWithTableID, table.newPhysicalID), cfg).Ok?
    ensures StateFromTables(
      VisitRange(st, rg, table, CheckpointOf(checkpointSetWithTableID, table.newPhysicalID), cfg).value,
      tables, allFiles, checkpointSetWithTableID, decode)
  {
    var checkpointSet := CheckpointOf(checkpointSetWithTableID, table.newPhysicalID);
    var marked := MarkRange(GroupRange(st, rg, cfg), rg);
    assert StateFromTables(marked, tables, allFiles, checkpointSetWithTableID, decode);
    var newFiles := Kept(checkpointSet, rg.files);
    forall f | f in newFiles ensures f in TableSurvivors(table, allFiles, checkpointSetWithTableID, decode) {
      KeptFileSurvives(f, rg, table, allFiles, checkpointSetWithTableID, decode);
    }
    AppendToGroupFromTables(marked.lastFilesGroup, table, newFiles, tables, allFiles, checkpointSetWithTableID, decode);
  }

  /** A run of ranges of a restored table keeps the state made of entries from the tables. */
  lemma {:induction false} VisitRangesFromTables(
    st: PlannerState, ranges: seq<MergedRange>, table: PhysicalTable, cfg: SplitConfig, tables: seq<PhysicalTable>,
    allFiles: seq<BackupFile>, checkpointSetWithTableID: map<int, set<string>>, decode: Key -> int)
    requires StateFromTables(st, tables, allFiles, checkpointSetWithTableID, decode)
    requires table in tables
    requires forall f :: f in RangeFiles(ranges) ==> f in FilesOfTable(allFiles, decode, table.oldPhysicalID)
    requires VisitRanges(st, ranges, table, CheckpointOf(checkpointSetWithTableID, table.newPhysicalID), cfg).Ok?
    ensures StateFromTables(
      VisitRanges(st, ranges, table, CheckpointOf(checkpointSetWithTableID, table.newPhysicalID), cfg).value,
      tables, allFiles, checkpointSetWithTableID, decode)
    decreases |ranges|
  {
    if ranges != [] {
      var checkpointSet := CheckpointOf(checkpointSetWithTableID, table.newPhysicalID);
      assert RangeFiles(ranges) == ranges[0].files + RangeFiles(ranges[1..]);
      VisitRangeFromTables(st, ranges[0], table, cfg, tables, allFiles, checkpointSetWithTableID, decode);
      var next := VisitRange(st, ranges[0], table, checkpointSet, cfg).value;
      VisitRangesFromTables(next, ranges[1..], table, cfg, tables, allFiles, checkpointSetWithTableID, decode);
    }
  }

  /** One restored table keeps the state made of entries from the tables, when the merge keeps its files. */
  lemma VisitTableFromTables(
    st: PlannerState, table: PhysicalTable, tables: seq<PhysicalTable>, allFiles: seq<BackupFile>,
    checkpointSetWithTableID: map<int, set<string>>, cfg: SplitConfig, env: Collaborators)
    requires MergeKeepsFiles(env)
    requires StateFromTables(st, tables, allFiles, checkpointSetWithTableID, env.decodeTableID)
    requires table in tables
    requires VisitTable(st, table, allFiles, checkpointSetWithTableID, cfg, env).Ok?
    ensures StateFromTables(
      VisitTable(st, table, allFiles, checkpointSetWithTableID, cfg, env).value,
      tables, allFiles, checkpointSetWithTableID, env.decodeTableID)
  {
    var files := FilesOfTable(allFiles, env.decodeTableID, table.oldPhysicalID);
    var sortedRanges := env.mergeAndRewriteFileRanges(files, table.rewriteRules, cfg.splitSizeBytes, cfg.splitKeyCount).value;
    assert multiset(RangeFiles(sortedRanges)) == multiset(files);
    forall f | f in RangeFiles(sortedRanges) ensures f in files {
      assert f in multiset(RangeFiles(sortedRanges));
    }
    VisitRangesFromTables(st, sortedRanges, table, cfg, tables, allFiles, checkpointSetWithTableID, env.decodeTableID);
  }

  /** A run of restored tables keeps the state made of entries from the tables. */
  lemma {:induction false} VisitTablesFromTables(
    st: PlannerState, rest: seq<PhysicalTable>, tables: seq<PhysicalTable>, allFiles: seq<BackupFile>,
    checkpointSetWithTableID: map<int, set<string>>, cfg: SplitConfig, env: Collaborators)
    requires MergeKeepsFiles(env)
    requires StateFromTables(st, tables, allFiles, checkpointSetWithTableID, env.decodeTableID)
    requires forall t :: t in rest ==> t in tables
    requires VisitTables(st, rest, allFiles, checkpointSetWithTableID, cfg, env).Ok?
    ensures StateFromTables(
      VisitTables(st, rest, allFiles, checkpointSetWithTableID, cfg, env).value,
      tables, allFiles, checkpointSetWithTableID, env.decodeTableID)
    decreases |rest|
  {
    if rest != [] {
      VisitTableFromTables(st, rest[0], tables, allFiles, checkpointSetWithTableID, cfg, env);
      var next := VisitTable(st, rest[0], allFiles, checkpointSetWithTableID, cfg, env).value;
      assert forall t :: t in rest[1..] ==> t in rest;
      VisitTablesFromTables(next, rest[1..], tables, allFiles, checkpointSetWithTableID, cfg, env);
    }
  }

  /**
   * Every entry of every planned batch is one restored table's
   * contribution: its table ID is that table's new ID, its rewrite rules
   * are that table's rules, and each of its files survived the checkpoint
   * for a table with that new ID.
   */
  lemma PlannedEntriesFromTables(
    tables: seq<PhysicalTable>, allFiles: seq<BackupFile>,
    checkpointSetWithTableID: map<int, set<string>>, cfg: SplitConfig, env: Collaborators)
    requires MergeKeepsFiles(env)
    requires Plan(tables, allFiles, checkpointSetWithTableID, cfg, env).outcome.Planned?
    ensures var batches := Plan(tables, allFiles, checkpointSetWithTableID, cfg, env).outcome.tableIDWithFilesGroup;
      forall k, i :: 0 <= k < |batches| && 0 <= i < |batches[k]| ==>
        && (exists t :: t in tables && t.newPhysicalID == batches[k][i].tableID && t.rewriteRules == batches[k][i].rewriteRules)
        && (forall f :: f in batches[k][i].sstFiles ==>
              SurvivorOf(f, batches[k][i].tableID, tables, allFiles, checkpointSetWithTableID, env.decodeTableID))
  {
    VisitTablesFromTables(Initial, tables, tables, allFiles, checkpointSetWithTableID, cfg, env);
    var st := VisitTables(Initial, tables, allFiles, checkpointSetWithTableID, cfg, env).value;
    var batches := Plan(tables, allFiles, checkpointSetWithTableID, cfg, env).outcome.tableIDWithFilesGroup;
    assert forall k :: 0 <= k < |batches| ==> BatchFromTables(batches[k], tables, allFiles, checkpointSetWithTableID, env.decodeTableID);
  }
}
