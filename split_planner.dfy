/**
 * SortAndValidateFileRanges: one pass over the sorted physical tables and
 * their merged ranges that chooses the region split keys and groups the
 * files into ingestion batches, skipping files already restored by a
 * previous attempt without moving any split key.
 */
module SplitPlanner {
  import opened Wrappers
  import opened RestoreTypes
  import opened CheckpointFilter
  import opened TableFiles
  import opened PhysicalTables

  /** Cap on the files folded into one split group, whatever their size. */
  const MergedRangeCountThreshold: nat := 1536

  datatype SplitConfig = SplitConfig(splitSizeBytes: nat, splitKeyCount: nat, splitOnTable: bool)

  /**
   * The running variables of the pass. `lastFilesGroup == []` is the nil
   * batch; `onProgressCalls` logs the calls made to onProgress.
   */
  datatype PlannerState = PlannerState(
    groupSize: nat,
    groupCount: nat,
    mergedRangeCount: nat,
    lastKey: Option<Key>,
    sortedSplitKeys: seq<Key>,
    tableIDWithFilesGroup: seq<Batch>,
    lastFilesGroup: Batch,
    onProgressCalls: seq<nat>)

  const Initial: PlannerState := PlannerState(0, 0, 0, None, [], [], [], [])

  /** Why the pass stopped: a returned error, or a panic on corrupt metadata. */
  datatype Stop = Failed(error: string) | Fatal(fault: Fault)

  /** A stop, with the onProgress calls made before it. */
  datatype Halt = Halt(stop: Stop, onProgressCalls: seq<nat>)

  /** The result of SortAndValidateFileRanges: keys and batches, or nil, nil and the stop. */
  datatype PlanOutcome =
    | Planned(sortedSplitKeys: seq<Key>, tableIDWithFilesGroup: seq<Batch>)
    | Stopped(stop: Stop)

  datatype PlanRun = PlanRun(outcome: PlanOutcome, onProgressCalls: seq<nat>)

  /** The checkpoint set of a table; a missing entry reads as the empty (nil) set. */
  function CheckpointOf(checkpointSetWithTableID: map<int, set<string>>, tableID: int): (r: set<string>)
    ensures tableID in checkpointSetWithTableID ==> r == checkpointSetWithTableID[tableID]
    ensures tableID !in checkpointSetWithTableID ==> r == {}
  {
    if tableID in checkpointSetWithTableID then checkpointSetWithTableID[tableID] else {}
  }

  /** The first rewrite-rule validation error among the files, in order. */
  function FirstValidationError(
    files: seq<BackupFile>, rules: RewriteRules, validate: (BackupFile, RewriteRules) -> Option<string>): (r: Option<string>)
    ensures r.Some? ==> exists f :: f in files && validate(f, rules) == r
  {
    if files == [] then None
    else if validate(files[0], rules).Some? then validate(files[0], rules)
    else
      var r := FirstValidationError(files[1..], rules, validate);
      assert r.Some? ==> forall f :: f in files[1..] ==> f in files;
      r
  }

  /** Adding the range would exceed a threshold, or the group already folds too many files. */
  predicate ExceedsGroup(st: PlannerState, rg: MergedRange, cfg: SplitConfig) {
    || st.groupSize + rg.size > cfg.splitSizeBytes
    || st.groupCount + rg.count > cfg.splitKeyCount
    || st.mergedRangeCount > MergedRangeCountThreshold
  }

  /** Emits the pending batch if there is one: shared by both flush sites. */
  function EmitFilesGroup(st: PlannerState): PlannerState {
    if st.lastFilesGroup != [] then
      st.(tableIDWithFilesGroup := st.tableIDWithFilesGroup + [st.lastFilesGroup], lastFilesGroup := [])
    else st
  }

  /** The split keys after emitting the candidate key, if there is one. */
  function WithLastKey(keys: seq<Key>, lastKey: Option<Key>): seq<Key> {
    if lastKey.Some? then keys + [lastKey.value] else keys
  }

  /** The flush before a range that does not fit: the range starts the next group. */
  function FlushBefore(st: PlannerState, rg: MergedRange): (r: PlannerState)
    ensures st.sortedSplitKeys <= r.sortedSplitKeys && |r.sortedSplitKeys| == |st.sortedSplitKeys| + (if st.lastKey.Some? then 1 else 0)
    ensures st.lastKey.Some? ==> r.sortedSplitKeys[|r.sortedSplitKeys| - 1] == st.lastKey.value
    ensures r.tableIDWithFilesGroup == st.tableIDWithFilesGroup + (if st.lastFilesGroup != [] then [st.lastFilesGroup] else [])
    ensures r.lastFilesGroup == [] && r.lastKey == st.lastKey && r.onProgressCalls == st.onProgressCalls
    ensures r.groupSize == rg.size && r.groupCount == rg.count && r.mergedRangeCount == 0
  {
    EmitFilesGroup(st).(
      groupSize := rg.size, groupCount := rg.count, mergedRangeCount := 0,
      sortedSplitKeys := WithLastKey(st.sortedSplitKeys, st.lastKey))
  }

  /** The flush at the end of a table under splitOnTable: the candidate key is dropped. */
  function FlushAtTableEnd(st: PlannerState): (r: PlannerState)
    ensures r.sortedSplitKeys == st.sortedSplitKeys && r.lastKey.None?
    ensures r.tableIDWithFilesGroup == st.tableIDWithFilesGroup + (if st.lastFilesGroup != [] then [st.lastFilesGroup] else [])
    ensures r.lastFilesGroup == [] && r.onProgressCalls == st.onProgressCalls
    ensures r.groupSize == 0 && r.groupCount == 0 && r.mergedRangeCount == 0
  {
    EmitFilesGroup(st).(groupSize := 0, groupCount := 0, mergedRangeCount := 0, lastKey := None)
  }

  /** Appends a range's remaining files to the batch, coalescing with a trailing entry of the same table. */
  function AppendToGroup(group: Batch, table: PhysicalTable, newFiles: seq<BackupFile>): (r: Batch)
    ensures newFiles == [] ==> r == group
    ensures newFiles != [] ==> r != [] && r[|r| - 1].tableID == table.newPhysicalID
    ensures |group| <= |r| <= |group| + 1
    ensures forall i :: 0 <= i < |group| - 1 ==> r[i] == group[i]
    ensures newFiles != [] ==> (|r| == |group| + 1 <==> group == [] || group[|group| - 1].tableID != table.newPhysicalID)
    ensures newFiles != [] && |r| == |group| + 1 ==>
      r[|group|] == BackupFileSet(table.newPhysicalID, newFiles, table.rewriteRules) && (group != [] ==> r[|group| - 1] == group[|group| - 1])
    ensures newFiles != [] && |r| == |group| ==>
      && r[|r| - 1].tableID == group[|group| - 1].tableID
      && r[|r| - 1].rewriteRules == group[|group| - 1].rewriteRules
      && r[|r| - 1].sstFiles == group[|group| - 1].sstFiles + newFiles
  {
    if newFiles == [] then group
    else if group == [] || group[|group| - 1].tableID != table.newPhysicalID then
      group + [BackupFileSet(table.newPhysicalID, newFiles, table.rewriteRules)]
    else
      var last := group[|group| - 1];
      group[..|group| - 1] + [last.(sstFiles := last.sstFiles + newFiles)]
  }

  /** The group bookkeeping of one range: flush before it, or accumulate it. */
  function GroupRange(st: PlannerState, rg: MergedRange, cfg: SplitConfig): (r: PlannerState)
    ensures r.lastKey == st.lastKey && r.onProgressCalls == st.onProgressCalls
    ensures !ExceedsGroup(st, rg, cfg) ==>
      && r.sortedSplitKeys == st.sortedSplitKeys && r.tableIDWithFilesGroup == st.tableIDWithFilesGroup
      && r.lastFilesGroup == st.lastFilesGroup && r.mergedRangeCount == st.mergedRangeCount
      && r.groupSize == st.groupSize + rg.size && r.groupCount == st.groupCount + rg.count
    ensures ExceedsGroup(st, rg, cfg) ==>
      && r.lastFilesGroup == [] && r.mergedRangeCount == 0
      && r.groupSize == rg.size && r.groupCount == rg.count
  {
    if ExceedsGroup(st, rg, cfg) then FlushBefore(st, rg)
    else st.(groupSize := st.groupSize + rg.size, groupCount := st.groupCount + rg.count)
  }

  /** The range becomes the candidate split key; its file count is taken before the checkpoint filter. */
  function MarkRange(st: PlannerState, rg: MergedRange): PlannerState {
    st.(lastKey := Some(rg.endKey), mergedRangeCount := st.mergedRangeCount + |rg.files|)
  }

  /** The pass only ever appends to the split keys, the batches and the onProgress calls. */
  predicate Extends(st: PlannerState, next: PlannerState) {
    && st.sortedSplitKeys <= next.sortedSplitKeys
    && st.tableIDWithFilesGroup <= next.tableIDWithFilesGroup
    && st.onProgressCalls <= next.onProgressCalls
  }

  /** One iteration of the loop over a table's merged ranges. */
  function VisitRange(
    st: PlannerState, rg: MergedRange, table: PhysicalTable, checkpointSet: set<string>, cfg: SplitConfig): (r: Result<PlannerState, Halt>)
    ensures r.Ok? <==> FirstNameFault(rg.files).None?
    ensures r.Err? ==> r.error == Halt(Fatal(FirstNameFault(rg.files).value), st.onProgressCalls)
    ensures r.Ok? ==>
      && Extends(st, r.value) && r.value.lastKey == Some(rg.endKey)
      && |r.value.sortedSplitKeys| <= |st.sortedSplitKeys| + 1
      && |r.value.tableIDWithFilesGroup| <= |st.tableIDWithFilesGroup| + 1
      && |r.value.onProgressCalls| <= |st.onProgressCalls| + 1
  {
    var marked := MarkRange(GroupRange(st, rg, cfg), rg);
    match FirstNameFault(rg.files)
    case Some(fault) => Err(Halt(Fatal(fault), marked.onProgressCalls))
    case None =>
      var newFiles := Kept(checkpointSet, rg.files);
      Ok(marked.(
        onProgressCalls := marked.onProgressCalls + ProgressReport(|rg.files| - |newFiles|),
        lastFilesGroup := AppendToGroup(marked.lastFilesGroup, table, newFiles)))
  }

  function VisitRanges(
    st: PlannerState, ranges: seq<MergedRange>, table: PhysicalTable, checkpointSet: set<string>, cfg: SplitConfig): (r: Result<PlannerState, Halt>)
    ensures r.Ok? ==> Extends(st, r.value)
    ensures r.Err? ==> st.onProgressCalls <= r.error.onProgressCalls
    decreases |ranges|
  {
    if ranges == [] then Ok(st)
    else
      match VisitRange(st, ranges[0], table, checkpointSet, cfg)
      case Err(halt) => Err(halt)
      case Ok(next) => VisitRanges(next, ranges[1..], table, checkpointSet, cfg)
  }

  /** One iteration of the loop over the sorted physical tables. */
  function VisitTable(
    st: PlannerState, table: PhysicalTable, allFiles: seq<BackupFile>,
    checkpointSetWithTableID: map<int, set<string>>, cfg: SplitConfig, env: Collaborators): (r: Result<PlannerState, Halt>)
    ensures var error := FirstValidationError(
        FilesOfTable(allFiles, env.decodeTableID, table.oldPhysicalID), table.rewriteRules, env.validateFileRewriteRule);
      error.Some? ==> r == Err(Halt(Failed(error.value), st.onProgressCalls))
    ensures r.Ok? ==> Extends(st, r.value)
    ensures r.Ok? && cfg.splitOnTable ==> r.value.lastKey.None? && r.value.lastFilesGroup == []
    ensures r.Err? ==> st.onProgressCalls <= r.error.onProgressCalls
  {
    var files := FilesOfTable(allFiles, env.decodeTableID, table.oldPhysicalID);
    match FirstValidationError(files, table.rewriteRules, env.validateFileRewriteRule)
    case Some(error) => Err(Halt(Failed(error), st.onProgressCalls))
    case None =>
      match env.mergeAndRewriteFileRanges(files, table.rewriteRules, cfg.splitSizeBytes, cfg.splitKeyCount)
      case Err(error) => Err(Halt(Failed(error), st.onProgressCalls))
      case Ok(sortedRanges) =>
        match VisitRanges(st, sortedRanges, table, CheckpointOf(checkpointSetWithTableID, table.newPhysicalID), cfg)
        case Err(halt) => Err(halt)
        case Ok(visited) => Ok(if cfg.splitOnTable then FlushAtTableEnd(visited) else visited)
  }

  function VisitTables(
    st: PlannerState, tables: seq<PhysicalTable>, allFiles: seq<BackupFile>,
    checkpointSetWithTableID: map<int, set<string>>, cfg: SplitConfig, env: Collaborators): (r: Result<PlannerState, Halt>)
    ensures r.Ok? ==> Extends(st, r.value)
    ensures r.Err? ==> st.onProgressCalls <= r.error.onProgressCalls
    decreases |tables|
  {
    if tables == [] then Ok(st)
    else
      match VisitTable(st, tables[0], allFiles, checkpointSetWithTableID, cfg, env)
      case Err(halt) => Err(halt)
      case Ok(next) => VisitTables(next, tables[1..], allFiles, checkpointSetWithTableID, cfg, env)
  }

  /** After the loop: the last candidate key and the last batch are emitted anyway. */
  function Finish(st: PlannerState): (r: PlanOutcome)
    ensures r.Planned?
    ensures st.sortedSplitKeys <= r.sortedSplitKeys && st.tableIDWithFilesGroup <= r.tableIDWithFilesGroup
    ensures st.lastKey.None? ==> r.sortedSplitKeys == st.sortedSplitKeys
    ensures st.lastKey.Some? ==> r.sortedSplitKeys == st.sortedSplitKeys + [st.lastKey.value]
    ensures st.lastFilesGroup == [] ==> r.tableIDWithFilesGroup == st.tableIDWithFilesGroup
    ensures st.lastFilesGroup != [] ==> r.tableIDWithFilesGroup == st.tableIDWithFilesGroup + [st.lastFilesGroup]
  {
    Planned(
      WithLastKey(st.sortedSplitKeys, st.lastKey),
      st.tableIDWithFilesGroup + (if st.lastFilesGroup != [] then [st.lastFilesGroup] else []))
  }

  /** The whole of SortAndValidateFileRanges once the physical tables are sorted. */
  function Plan(
    tables: seq<PhysicalTable>, allFiles: seq<BackupFile>,
    checkpointSetWithTableID: map<int, set<string>>, cfg: SplitConfig, env: Collaborators): (r: PlanRun)
    ensures FirstFault(allFiles, env.decodeTableID).Some? ==>
      r == PlanRun(Stopped(Fatal(FirstFault(allFiles, env.decodeTableID).value)), [])
    ensures FirstFault(allFiles, env.decodeTableID).None? && tables == [] ==> r == PlanRun(Planned([], []), [])
    ensures r.outcome.Planned? ==> FirstFault(allFiles, env.decodeTableID).None?
  {
    match FirstFault(allFiles, env.decodeTableID)
    case Some(fault) => PlanRun(Stopped(Fatal(fault)), [])
    case None =>
      match VisitTables(Initial, tables, allFiles, checkpointSetWithTableID, cfg, env)
      case Err(halt) => PlanRun(Stopped(halt.stop), halt.onProgressCalls)
      case Ok(st) => PlanRun(Finish(st), st.onProgressCalls)
  }

  /** The validation loop: every file of the table is checked against its rewrite rules. */
  method ValidateFiles(files: seq<BackupFile>, rules: RewriteRules, validate: (BackupFile, RewriteRules) -> Option<string>)
    returns (err: Option<string>)
    ensures err == FirstValidationError(files, rules, validate)
  {
    var k := 0;
    while k < |files|
      invariant 0 <= k <= |files|
      invariant FirstValidationError(files, rules, validate) == FirstValidationError(files[k..], rules, validate)
    {
      err := validate(files[k], rules);
      if err.Some? {
        return;
      }
      assert files[k..][1..] == files[k + 1..];
      k := k + 1;
    }
    return None;
  }

  /** Split key generation for one range: close the group if the range does not fit, then make it the candidate key. */
  method GenerateSplitKey(st: PlannerState, rg: MergedRange, cfg: SplitConfig) returns (next: PlannerState)
    ensures next == MarkRange(GroupRange(st, rg, cfg), rg)
  {
    next := st;
    var afterMergedGroupSize := next.groupSize + rg.size;
    var afterMergedGroupCount := next.groupCount + rg.count;
    if afterMergedGroupSize > cfg.splitSizeBytes || afterMergedGroupCount > cfg.splitKeyCount
      || next.mergedRangeCount > MergedRangeCountThreshold
    {
      next := next.(groupSize := rg.size, groupCount := rg.count, mergedRangeCount := 0);
      if next.lastKey.Some? {
        next := next.(sortedSplitKeys := next.sortedSplitKeys + [next.lastKey.value]);
      }
      if next.lastFilesGroup != [] {
        next := next.(tableIDWithFilesGroup := next.tableIDWithFilesGroup + [next.lastFilesGroup], lastFilesGroup := []);
      }
    } else {
      next := next.(groupSize := afterMergedGroupSize, groupCount := afterMergedGroupCount);
    }
    assert next == GroupRange(st, rg, cfg);
    next := next.(lastKey := Some(rg.endKey));
    next := next.(mergedRangeCount := next.mergedRangeCount + |rg.files|);
  }

  /** Appends a range's remaining files to the pending batch. */
  method AppendNewFiles(lastFilesGroup: Batch, table: PhysicalTable, newFiles: seq<BackupFile>) returns (group: Batch)
    ensures group == AppendToGroup(lastFilesGroup, table, newFiles)
  {
    group := lastFilesGroup;
    if |newFiles| > 0 {
      if |group| == 0 || group[|group| - 1].tableID != table.newPhysicalID {
        group := group + [BackupFileSet(table.newPhysicalID, newFiles, table.rewriteRules)];
      } else {
        var n := |group| - 1;
        assert group[n := group[n].(sstFiles := group[n].sstFiles + newFiles)]
          == group[..n] + [group[n].(sstFiles := group[n].sstFiles + newFiles)];
        group := group[n := group[n].(sstFiles := group[n].sstFiles + newFiles)];
      }
    }
  }

  /** The body of the loop over a table's merged ranges, on the running variables. */
  method VisitRangeStep(st: PlannerState, rg: MergedRange, table: PhysicalTable, checkpointSet: set<string>, cfg: SplitConfig)
    returns (next: PlannerState, fault: Option<Fault>)
    ensures fault.None? ==> VisitRange(st, rg, table, checkpointSet, cfg) == Ok(next)
    ensures fault.Some? ==> VisitRange(st, rg, table, checkpointSet, cfg) == Err(Halt(Fatal(fault.value), next.onProgressCalls))
  {
    next := GenerateSplitKey(st, rg, cfg);
    var newFiles, calls;
    newFiles, calls, fault := FilterOutFiles(checkpointSet, rg.files);
    if fault.Some? {
      return;
    }
    var group := AppendNewFiles(next.lastFilesGroup, table, newFiles);
    next := next.(onProgressCalls := next.onProgressCalls + calls, lastFilesGroup := group);
  }

  /** The body of the loop over the sorted physical tables; `files` is the table's bucket. */
  method VisitTableStep(
    st: PlannerState, table: PhysicalTable, files: seq<BackupFile>, allFiles: seq<BackupFile>,
    checkpointSetWithTableID: map<int, set<string>>, cfg: SplitConfig, env: Collaborators)
    returns (next: PlannerState, halt: Option<Halt>)
    requires files == FilesOfTable(allFiles, env.decodeTableID, table.oldPhysicalID)
    ensures halt.None? ==> VisitTable(st, table, allFiles, checkpointSetWithTableID, cfg, env) == Ok(next)
    ensures halt.Some? ==> VisitTable(st, table, allFiles, checkpointSetWithTableID, cfg, env) == Err(halt.value)
  {
    var validationError := ValidateFiles(files, table.rewriteRules, env.validateFileRewriteRule);
    if validationError.Some? {
      return st, Some(Halt(Failed(validationError.value), st.onProgressCalls));
    }
    var merged := env.mergeAndRewriteFileRanges(files, table.rewriteRules, cfg.splitSizeBytes, cfg.splitKeyCount);
    if merged.Err? {
      return st, Some(Halt(Failed(merged.error), st.onProgressCalls));
    }
    var sortedRanges := merged.value;
    var checkpointSet := CheckpointOf(checkpointSetWithTableID, table.newPhysicalID);

    next := st;
    var j := 0;
    while j < |sortedRanges|
      invariant 0 <= j <= |sortedRanges|
      invariant VisitRanges(st, sortedRanges, table, checkpointSet, cfg) ==
        VisitRanges(next, sortedRanges[j..], table, checkpointSet, cfg)
    {
      var rg := sortedRanges[j];
      assert sortedRanges[j..][1..] == sortedRanges[j + 1..];
      var fault;
      next, fault := VisitRangeStep(next, rg, table, checkpointSet, cfg);
      if fault.Some? {
        return next, Some(Halt(Fatal(fault.value), next.onProgressCalls));
      }
      j := j + 1;
    }
    assert sortedRanges[j..] == [];

    if cfg.splitOnTable {
      next := next.(groupSize := 0, groupCount := 0, mergedRangeCount := 0, lastKey := None);
      if next.lastFilesGroup != [] {
        next := next.(tableIDWithFilesGroup := next.tableIDWithFilesGroup + [next.lastFilesGroup], lastFilesGroup := []);
      }
    }
    return next, None;
  }

  /** The loop over the sorted physical tables, reading each table's bucket from `fileOfTable`. */
  method VisitSortedTables(
    tables: seq<PhysicalTable>, fileOfTable: map<int, seq<BackupFile>>, allFiles: seq<BackupFile>,
    checkpointSetWithTableID: map<int, set<string>>, cfg: SplitConfig, env: Collaborators)
    returns (st: PlannerState, halt: Option<Halt>)
    requires forall id :: Bucket(fileOfTable, id) == FilesOfTable(allFiles, env.decodeTableID, id)
    ensures halt.None? ==> VisitTables(Initial, tables, allFiles, checkpointSetWithTableID, cfg, env) == Ok(st)
    ensures halt.Some? ==> VisitTables(Initial, tables, allFiles, checkpointSetWithTableID, cfg, env) == Err(halt.value)
  {
    st := Initial;
    var i := 0;
    while i < |tables|
      invariant 0 <= i <= |tables|
      invariant VisitTables(Initial, tables, allFiles, checkpointSetWithTableID, cfg, env) ==
        VisitTables(st, tables[i..], allFiles, checkpointSetWithTableID, cfg, env)
    {
      var table := tables[i];
      assert tables[i..][1..] == tables[i + 1..];
      var files := Bucket(fileOfTable, table.oldPhysicalID);
      st, halt := VisitTableStep(st, table, files, allFiles, checkpointSetWithTableID, cfg, env);
      if halt.Some? {
        return;
      }
      i := i + 1;
    }

    assert tables[i..] == [];
    halt := None;
  }

  /**
   * SortAndValidateFileRanges. The sorted physical tables are returned as a
   * ghost so that the plan can be stated in terms of them.
   */
  method SortAndValidateFileRanges(
    createdTables: seq<CreatedTable>,
    allFiles: seq<BackupFile>,
    checkpointSetWithTableID: map<int, set<string>>,
    splitSizeBytes: nat, splitKeyCount: nat,
    splitOnTable: bool,
    env: Collaborators)
    returns (outcome: PlanOutcome, onProgressCalls: seq<nat>, ghost sortedPhysicalTables: seq<PhysicalTable>)
    ensures SortedByNewID(sortedPhysicalTables)
    ensures multiset(sortedPhysicalTables) == AllEntries(createdTables, env.getPartitionIDMap)
    ensures PlanRun(outcome, onProgressCalls) ==
      Plan(sortedPhysicalTables, allFiles, checkpointSetWithTableID, SplitConfig(splitSizeBytes, splitKeyCount, splitOnTable), env)
    ensures FirstFault(allFiles, env.decodeTableID).Some? ==>
      outcome == Stopped(Fatal(FirstFault(allFiles, env.decodeTableID).value)) && onProgressCalls == []
    ensures createdTables == [] && FirstFault(allFiles, env.decodeTableID).None? ==>
      outcome == Planned([], []) && onProgressCalls == []
  {
    var cfg := SplitConfig(splitSizeBytes, splitKeyCount, splitOnTable);
    var tables := GetSortedPhysicalTables(createdTables, env.getPartitionIDMap);
    sortedPhysicalTables := tables;
    var mapped := MapTableToFiles(allFiles, env.decodeTableID);
    if mapped.Err? {
      return Stopped(Fatal(mapped.error)), [], sortedPhysicalTables;
    }
    var fileOfTable := mapped.value.fileOfTable;
    if createdTables == [] {
      assert |tables| == |multiset(tables)| == 0;
    }

    var st, halt := VisitSortedTables(tables, fileOfTable, allFiles, checkpointSetWithTableID, cfg, env);
    if halt.Some? {
      return Stopped(halt.value.stop), halt.value.onProgressCalls, sortedPhysicalTables;
    }
    assert FirstFault(allFiles, env.decodeTableID).None?;
    var sortedSplitKeys := st.sortedSplitKeys;
    if st.lastKey.Some? {
      sortedSplitKeys := sortedSplitKeys + [st.lastKey.value];
    }
    assert sortedSplitKeys == Finish(st).sortedSplitKeys;
    var tableIDWithFilesGroup := st.tableIDWithFilesGroup;
    if st.lastFilesGroup != [] {
      tableIDWithFilesGroup := tableIDWithFilesGroup + [st.lastFilesGroup];
    }
    assert tableIDWithFilesGroup == Finish(st).tableIDWithFilesGroup;
    assert Planned(sortedSplitKeys, tableIDWithFilesGroup) == Finish(st);
    return Planned(sortedSplitKeys, tableIDWithFilesGroup), st.onProgressCalls, sortedPhysicalTables;
  }
}
