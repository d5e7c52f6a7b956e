/**
 * What the split plan promises: the split keys do not depend on the
 * checkpoint, the batches hold exactly the files that survive the
 * checkpoint, every traversed file is ingested or reported, batches are
 * well formed and, under splitOnTable, never mix tables.
 */
module PlanProperties {
  import opened Wrappers
  import opened RestoreTypes
  import opened RangeKeys
  import opened CheckpointFilter
  import opened TableFiles
  import opened SplitPlanner

  // ---------------------------------------------------------------------
  // Split keys do not depend on the checkpoint

  /** The running variables that decide where regions are split. */
  datatype SplitView = SplitView(
    groupSize: nat, groupCount: nat, mergedRangeCount: nat, lastKey: Option<Key>, sortedSplitKeys: seq<Key>)

  function ViewOf(st: PlannerState): SplitView {
    SplitView(st.groupSize, st.groupCount, st.mergedRangeCount, st.lastKey, st.sortedSplitKeys)
  }

  /** Two runs agree on whether they stop, on the split view when they go on, and on the reason when they stop. */
  predicate Agree(r1: Result<PlannerState, Halt>, r2: Result<PlannerState, Halt>) {
    && (r1.Ok? <==> r2.Ok?)
    && (r1.Ok? && r2.Ok? ==> ViewOf(r1.value) == ViewOf(r2.value))
    && (r1.Err? && r2.Err? ==> r1.error.stop == r2.error.stop)
  }

  lemma VisitRangeIgnoresCheckpoint(
    s1: PlannerState, s2: PlannerState, rg: MergedRange, table: PhysicalTable,
    cp1: set<string>, cp2: set<string>, cfg: SplitConfig)
    requires ViewOf(s1) == ViewOf(s2)
    ensures Agree(VisitRange(s1, rg, table, cp1, cfg), VisitRange(s2, rg, table, cp2, cfg))
  {
  }

  lemma {:induction false} VisitRangesIgnoreCheckpoint(
    s1: PlannerState, s2: PlannerState, ranges: seq<MergedRange>, table: PhysicalTable,
    cp1: set<string>, cp2: set<string>, cfg: SplitConfig)
    requires ViewOf(s1) == ViewOf(s2)
    ensures Agree(VisitRanges(s1, ranges, table, cp1, cfg), VisitRanges(s2, ranges, table, cp2, cfg))
    decreases |ranges|
  {
    if ranges != [] {
      VisitRangeIgnoresCheckpoint(s1, s2, ranges[0], table, cp1, cp2, cfg);
      var r1 := VisitRange(s1, ranges[0], table, cp1, cfg);
      var r2 := VisitRange(s2, ranges[0], table, cp2, cfg);
      if r1.Ok? {
        VisitRangesIgnoreCheckpoint(r1.value, r2.value, ranges[1..], table, cp1, cp2, cfg);
      }
    }
  }

  lemma VisitTableIgnoresCheckpoint(
    s1: PlannerState, s2: PlannerState, table: PhysicalTable, allFiles: seq<BackupFile>,
    cps1: map<int, set<string>>, cps2: map<int, set<string>>, cfg: SplitConfig, env: Collaborators)
    requires ViewOf(s1) == ViewOf(s2)
    ensures Agree(VisitTable(s1, table, allFiles, cps1, cfg, env), VisitTable(s2, table, allFiles, cps2, cfg, env))
  {
    var files := FilesOfTable(allFiles, env.decodeTableID, table.oldPhysicalID);
    var merged := env.mergeAndRewriteFileRanges(files, table.rewriteRules, cfg.splitSizeBytes, cfg.splitKeyCount);
    if merged.Ok? {
      VisitRangesIgnoreCheckpoint(
        s1, s2, merged.value, table,
        CheckpointOf(cps1, table.newPhysicalID), CheckpointOf(cps2, table.newPhysicalID), cfg);
    }
  }

  lemma {:induction false} VisitTablesIgnoreCheckpoint(
    s1: PlannerState, s2: PlannerState, tables: seq<PhysicalTable>, allFiles: seq<BackupFile>,
    cps1: map<int, set<string>>, cps2: map<int, set<string>>, cfg: SplitConfig, env: Collaborators)
    requires ViewOf(s1) == ViewOf(s2)
    ensures Agree(VisitTables(s1, tables, allFiles, cps1, cfg, env), VisitTables(s2, tables, allFiles, cps2, cfg, env))
    decreases |tables|
  {
    if tables != [] {
      VisitTableIgnoresCheckpoint(s1, s2, tables[0], allFiles, cps1, cps2, cfg, env);
      var r1 := VisitTable(s1, tables[0], allFiles, cps1, cfg, env);
      var r2 := VisitTable(s2, tables[0], allFiles, cps2, cfg, env);
      if r1.Ok? {
        VisitTablesIgnoreCheckpoint(r1.value, r2.value, tables[1..], allFiles, cps1, cps2, cfg, env);
      }
    }
  }

  /**
   * Skipping already-restored files never moves a split key: two runs with
   * different checkpoints succeed or stop together, with the same split
   * keys or for the same reason.
   */
  lemma SplitKeysIgnoreCheckpoints(
    tables: seq<PhysicalTable>, allFiles: seq<BackupFile>,
    cps1: map<int, set<string>>, cps2: map<int, set<string>>, cfg: SplitConfig, env: Collaborators)
    ensures
      var p1 := Plan(tables, allFiles, cps1, cfg, env).outcome;
      var p2 := Plan(tables, allFiles, cps2, cfg, env).outcome;
      && (p1.Planned? <==> p2.Planned?)
      && (p1.Planned? && p2.Planned? ==> p1.sortedSplitKeys == p2.sortedSplitKeys)
      && (p1.Stopped? && p2.Stopped? ==> p1.stop == p2.stop)
  {
    VisitTablesIgnoreCheckpoint(Initial, Initial, tables, allFiles, cps1, cps2, cfg, env);
  }

  /**
   * A plan over one table that passes validation and merging is the final
   * flush of the walk over that table's ranges, after the table-end flush
   * when splitOnTable is set.
   */
  lemma PlanOfOneTable(
    table: PhysicalTable, allFiles: seq<BackupFile>,
    checkpointSetWithTableID: map<int, set<string>>, cfg: SplitConfig, env: Collaborators, ranges: seq<MergedRange>)
    requires FirstFault(allFiles, env.decodeTableID).None?
    requires FirstValidationError(
      FilesOfTable(allFiles, env.decodeTableID, table.oldPhysicalID), table.rewriteRules, env.validateFileRewriteRule).None?
    requires env.mergeAndRewriteFileRanges(
      FilesOfTable(allFiles, env.decodeTableID, table.oldPhysicalID), table.rewriteRules, cfg.splitSizeBytes, cfg.splitKeyCount) == Ok(ranges)
    requires VisitRanges(Initial, ranges, table, CheckpointOf(checkpointSetWithTableID, table.newPhysicalID), cfg).Ok?
    ensures var st := VisitRanges(Initial, ranges, table, CheckpointOf(checkpointSetWithTableID, table.newPhysicalID), cfg).value;
      Plan([table], allFiles, checkpointSetWithTableID, cfg, env) ==
        PlanRun(Finish(if cfg.splitOnTable then FlushAtTableEnd(st) else st), st.onProgressCalls)
  {
    var st := VisitRanges(Initial, ranges, table, CheckpointOf(checkpointSetWithTableID, table.newPhysicalID), cfg).value;
    var visited := if cfg.splitOnTable then FlushAtTableEnd(st) else st;
    assert VisitTable(Initial, table, allFiles, checkpointSetWithTableID, cfg, env) == Ok(visited);
    assert [table][0] == table && [table][1..] == [];
    assert VisitTables(Initial, [table], allFiles, checkpointSetWithTableID, cfg, env) == Ok(visited);
  }

  // A concrete pair of runs: two files of table 1, one per merged range.

  const firstFile: BackupFile := BackupFile("a_write", [1], [2], WriteCFName, 1, 6)
  const secondFile: BackupFile := BackupFile("b_write", [2], [3], WriteCFName, 1, 6)
  const firstRange: MergedRange := MergedRange([1], [2], 6, 1, [firstFile])
  const secondRange: MergedRange := MergedRange([2], [3], 6, 1, [secondFile])
  const oneTable: PhysicalTable := PhysicalTable(1, 1, [])
  const sizeTen: SplitConfig := SplitConfig(10, 100, false)
  const twoRangeEnv: Collaborators := Collaborators(
    (k: Key) => 1,
    (f: BackupFile, rules: RewriteRules) => None,
    (files: seq<BackupFile>, rules: RewriteRules, size: nat, count: nat) => Ok([firstRange, secondRange]),
    (t: TableInfo, o: TableInfo) => map[])

  /** The first file's range key is "a": the checkpoint {"a"} skips it. */
  lemma ExampleFirstFile()
    ensures InCheckpoint({"a"}, firstFile) && !InCheckpoint({}, firstFile)
    ensures FirstNameFault([firstFile]).None?
  {
    RangeKeyDropsLastSegment("a", "write");
    assert "a" + "_" + "write" == firstFile.name;
    assert firstFile.name[1] == '_';
  }

  /** The second file's range key is "b": the checkpoint {"a"} keeps it. */
  lemma ExampleSecondFile()
    ensures !InCheckpoint({"a"}, secondFile) && !InCheckpoint({}, secondFile)
    ensures FirstNameFault([secondFile]).None?
  {
    RangeKeyDropsLastSegment("b", "write");
    assert "b" + "_" + "write" == secondFile.name;
    assert secondFile.name[1] == '_';
  }

  /** A one-file range keeps its file exactly when the file is not in the checkpoint. */
  lemma KeptOne(checkpointSet: set<string>, f: BackupFile)
    ensures Kept(checkpointSet, [f]) == if InCheckpoint(checkpointSet, f) then [] else [f]
  {
    assert [f][..0] == [];
  }

  /** The checkpoint {"a"} removes the example's first file and keeps its second; the empty checkpoint keeps both. */
  lemma ExampleFilter()
    ensures Kept({"a"}, [firstFile, secondFile]) == [secondFile]
    ensures Kept({}, [firstFile, secondFile]) == [firstFile, secondFile]
  {
    ExampleFirstFile();
    ExampleSecondFile();
    assert [firstFile, secondFile] == [firstFile] + [secondFile];
    KeptConcat({"a"}, [firstFile], [secondFile]);
    KeptConcat({}, [firstFile], [secondFile]);
    KeptOne({"a"}, firstFile);
    KeptOne({"a"}, secondFile);
    KeptOne({}, firstFile);
    KeptOne({}, secondFile);
  }

  /** The first range fits the empty group and becomes the candidate split key. */
  lemma ExampleFirstMarked()
    ensures MarkRange(GroupRange(Initial, firstRange, sizeTen), firstRange) == PlannerState(6, 1, 1, Some([2]), [], [], [], [])
  {
    assert !ExceedsGroup(Initial, firstRange, sizeTen);
  }

  /** The first range's file starts the pending batch, unless the checkpoint skips it and it is reported. */
  lemma ExampleFirstRange(checkpointSet: set<string>)
    ensures VisitRange(Initial, firstRange, oneTable, checkpointSet, sizeTen) ==
      if InCheckpoint(checkpointSet, firstFile) then Ok(PlannerState(6, 1, 1, Some([2]), [], [], [], [1]))
      else Ok(PlannerState(6, 1, 1, Some([2]), [], [], [BackupFileSet(1, [firstFile], [])], []))
  {
    ExampleFirstMarked();
    ExampleFirstFile();
    KeptOne(checkpointSet, firstFile);
    if InCheckpoint(checkpointSet, firstFile) {
      assert [] + ProgressReport(1 - 0) == [1];
      assert AppendToGroup([], oneTable, []) == [];
    } else {
      assert [] + ProgressReport(1 - 1) == [];
      assert AppendToGroup([], oneTable, [firstFile]) == [BackupFileSet(1, [firstFile], [])];
    }
  }

  /** The second range overflows the size threshold: the candidate key [2] is emitted with the pending batch, if any. */
  lemma ExampleSecondMarked(group: Batch, onProgressCalls: seq<nat>)
    ensures var st := PlannerState(6, 1, 1, Some([2]), [], [], group, onProgressCalls);
      MarkRange(GroupRange(st, secondRange, sizeTen), secondRange) ==
        PlannerState(6, 1, 1, Some([3]), [[2]], if group != [] then [group] else [], [], onProgressCalls)
  {
    var st := PlannerState(6, 1, 1, Some([2]), [], [], group, onProgressCalls);
    assert ExceedsGroup(st, secondRange, sizeTen);
    assert WithLastKey([], Some([2])) == [[2]];
  }

  /** The second range, whose file the checkpoint does not hold, starts the next batch. */
  lemma ExampleSecondRange(group: Batch, onProgressCalls: seq<nat>, checkpointSet: set<string>)
    requires !InCheckpoint(checkpointSet, secondFile)
    ensures VisitRange(PlannerState(6, 1, 1, Some([2]), [], [], group, onProgressCalls), secondRange, oneTable, checkpointSet, sizeTen) ==
      Ok(PlannerState(6, 1, 1, Some([3]), [[2]], if group != [] then [group] else [], [BackupFileSet(1, [secondFile], [])], onProgressCalls))
  {
    ExampleSecondMarked(group, onProgressCalls);
    ExampleSecondFile();
    KeptOne(checkpointSet, secondFile);
    assert onProgressCalls + ProgressReport(0) == onProgressCalls;
    assert AppendToGroup([], oneTable, [secondFile]) == [BackupFileSet(1, [secondFile], [])];
  }

  /** Walking two ranges is visiting one and then the other. */
  lemma VisitTwoRanges(
    st: PlannerState, first: MergedRange, second: MergedRange, table: PhysicalTable, checkpointSet: set<string>, cfg: SplitConfig)
    requires VisitRange(st, first, table, checkpointSet, cfg).Ok?
    ensures VisitRanges(st, [first, second], table, checkpointSet, cfg) ==
      VisitRange(VisitRange(st, first, table, checkpointSet, cfg).value, second, table, checkpointSet, cfg)
  {
    var next := VisitRange(st, first, table, checkpointSet, cfg).value;
    assert [first, second][0] == first && [first, second][1..] == [second];
    assert VisitRanges(st, [first, second], table, checkpointSet, cfg) == VisitRanges(next, [second], table, checkpointSet, cfg);
    assert [second][0] == second && [second][1..] == [];
    match VisitRange(next, second, table, checkpointSet, cfg)
    case Err(halt) =>
    case Ok(last) => assert VisitRanges(last, [], table, checkpointSet, cfg) == Ok(last);
  }

  /** The example's two ranges: the first batch exists only when the first file is not in the checkpoint. */
  lemma TwoRangesWalk(checkpointSet: set<string>)
    requires !InCheckpoint(checkpointSet, secondFile)
    ensures VisitRanges(Initial, [firstRange, secondRange], oneTable, checkpointSet, sizeTen) ==
      if InCheckpoint(checkpointSet, firstFile) then
        Ok(PlannerState(6, 1, 1, Some([3]), [[2]], [], [BackupFileSet(1, [secondFile], [])], [1]))
      else
        Ok(PlannerState(6, 1, 1, Some([3]), [[2]], [[BackupFileSet(1, [firstFile], [])]], [BackupFileSet(1, [secondFile], [])], []))
  {
    ExampleFirstRange(checkpointSet);
    if InCheckpoint(checkpointSet, firstFile) {
      ExampleSecondRange([], [1], checkpointSet);
    } else {
      ExampleSecondRange([BackupFileSet(1, [firstFile], [])], [], checkpointSet);
    }
    VisitTwoRanges(Initial, firstRange, secondRange, oneTable, checkpointSet, sizeTen);
  }

  /**
   * The batches, unlike the split keys, can depend on the checkpoint: two
   * ranges of size 6 against a size threshold of 10 give two batches, but
   * when the first range's only file was already restored its group is
   * empty and no batch is emitted for it.
   */
  lemma CheckpointCanChangeBatches()
    ensures var firstRun := Plan([oneTable], [firstFile, secondFile], map[], sizeTen, twoRangeEnv).outcome;
      var resumedRun := Plan([oneTable], [firstFile, secondFile], map[1 := {"a"}], sizeTen, twoRangeEnv).outcome;
      && firstRun.Planned? && resumedRun.Planned?
      && firstRun.sortedSplitKeys == resumedRun.sortedSplitKeys
      && |firstRun.tableIDWithFilesGroup| == 2
      && |resumedRun.tableIDWithFilesGroup| == 1
  {
    var files := [firstFile, secondFile];
    assert FirstFault(files, twoRangeEnv.decodeTableID).None? by {
      assert files[1..] == [secondFile];
    }
    assert FilesOfTable(files, twoRangeEnv.decodeTableID, 1) == files by {
      assert files[..1] == [firstFile];
    }
    FirstValidationErrorIff(files, [], twoRangeEnv.validateFileRewriteRule);
    assert CheckpointOf(map[], 1) == {} && CheckpointOf(map[1 := {"a"}], 1) == {"a"};
    ExampleFirstFile();
    ExampleSecondFile();
    TwoRangesWalk({});
    TwoRangesWalk({"a"});
    PlanOfOneTable(oneTable, files, map[], sizeTen, twoRangeEnv, [firstRange, secondRange]);
    PlanOfOneTable(oneTable, files, map[1 := {"a"}], sizeTen, twoRangeEnv, [firstRange, secondRange]);
  }

  // ---------------------------------------------------------------------
  // Every traversed file is ingested or reported as skipped

  /** The files of a batch, entry by entry. */
  function BatchFiles(batch: Batch): seq<BackupFile> {
    if batch == [] then [] else BatchFiles(batch[..|batch| - 1]) + batch[|batch| - 1].sstFiles
  }

  function AllBatchFiles(batches: seq<Batch>): seq<BackupFile> {
    if batches == [] then [] else AllBatchFiles(batches[..|batches| - 1]) + BatchFiles(batches[|batches| - 1])
  }

  /** The files placed so far: in emitted batches, then in the pending one. */
  function PlacedFiles(st: PlannerState): seq<BackupFile> {
    AllBatchFiles(st.tableIDWithFilesGroup) + BatchFiles(st.lastFilesGroup)
  }

  function Sum(calls: seq<nat>): nat {
    if calls == [] then 0 else Sum(calls[..|calls| - 1]) + calls[|calls| - 1]
  }

  /** Files placed in a batch plus files reported to onProgress. */
  function Accounted(st: PlannerState): nat {
    Sum(st.onProgressCalls) + |PlacedFiles(st)|
  }

  /** The files of the merged ranges, in range order. */
  function RangeFiles(ranges: seq<MergedRange>): seq<BackupFile> {
    if ranges == [] then [] else ranges[0].files + RangeFiles(ranges[1..])
  }

  /** The files of the merged ranges that survive the checkpoint, range by range. */
  function KeptOfRanges(checkpointSet: set<string>, ranges: seq<MergedRange>): seq<BackupFile> {
    if ranges == [] then [] else Kept(checkpointSet, ranges[0].files) + KeptOfRanges(checkpointSet, ranges[1..])
  }

  lemma AppendToGroupFiles(group: Batch, table: PhysicalTable, newFiles: seq<BackupFile>)
    ensures BatchFiles(AppendToGroup(group, table, newFiles)) == BatchFiles(group) + newFiles
  {
    var grown := AppendToGroup(group, table, newFiles);
    if newFiles == [] {
    } else if group == [] || group[|group| - 1].tableID != table.newPhysicalID {
      assert grown[..|grown| - 1] == group;
    } else {
      assert grown[..|grown| - 1] == group[..|group| - 1];
    }
  }

  lemma EmitKeepsPlacedFiles(st: PlannerState)
    ensures PlacedFiles(EmitFilesGroup(st)) == PlacedFiles(st)
  {
    if st.lastFilesGroup != [] {
      var batches := st.tableIDWithFilesGroup + [st.lastFilesGroup];
      assert batches[..|batches| - 1] == st.tableIDWithFilesGroup;
    }
  }

  /** Regroups a concatenation; stated once so the file-accounting proofs need not search for the regrouping. */
  lemma ConcatAssoc(a: seq<BackupFile>, b: seq<BackupFile>, c: seq<BackupFile>)
    ensures (a + b) + c == a + (b + c)
  {
  }

  lemma SumAppend(calls: seq<nat>, more: seq<nat>)
    requires |more| <= 1
    ensures Sum(calls + more) == Sum(calls) + Sum(more)
  {
    if more != [] {
      assert (calls + more)[..|calls + more| - 1] == calls;
    } else {
      assert calls + more == calls;
    }
  }

  /** Grouping a range moves the pending batch to the emitted ones at most: no file moves. */
  lemma GroupRangeKeepsPlaced(st: PlannerState, rg: MergedRange, cfg: SplitConfig)
    ensures PlacedFiles(GroupRange(st, rg, cfg)) == PlacedFiles(st)
    ensures GroupRange(st, rg, cfg).onProgressCalls == st.onProgressCalls
  {
    if ExceedsGroup(st, rg, cfg) {
      EmitKeepsPlacedFiles(st);
    }
  }

  /** One range places its surviving files after the others. */
  lemma VisitRangePlaces(st: PlannerState, rg: MergedRange, table: PhysicalTable, checkpointSet: set<string>, cfg: SplitConfig)
    requires VisitRange(st, rg, table, checkpointSet, cfg).Ok?
    ensures PlacedFiles(VisitRange(st, rg, table, checkpointSet, cfg).value) == PlacedFiles(st) + Kept(checkpointSet, rg.files)
  {
    GroupRangeKeepsPlaced(st, rg, cfg);
    var marked := MarkRange(GroupRange(st, rg, cfg), rg);
    var newFiles := Kept(checkpointSet, rg.files);
    var next := VisitRange(st, rg, table, checkpointSet, cfg).value;
    assert next.tableIDWithFilesGroup == marked.tableIDWithFilesGroup;
    assert next.lastFilesGroup == AppendToGroup(marked.lastFilesGroup, table, newFiles);
    AppendToGroupFiles(marked.lastFilesGroup, table, newFiles);
    ConcatAssoc(AllBatchFiles(marked.tableIDWithFilesGroup), BatchFiles(marked.lastFilesGroup), newFiles);
  }

  /** One range accounts for each of its files: placed, or reported as skipped. */
  lemma VisitRangeAccounts(st: PlannerState, rg: MergedRange, table: PhysicalTable, checkpointSet: set<string>, cfg: SplitConfig)
    requires VisitRange(st, rg, table, checkpointSet, cfg).Ok?
    ensures Accounted(VisitRange(st, rg, table, checkpointSet, cfg).value) == Accounted(st) + |rg.files|
  {
    VisitRangePlaces(st, rg, table, checkpointSet, cfg);
    GroupRangeKeepsPlaced(st, rg, cfg);
    var marked := MarkRange(GroupRange(st, rg, cfg), rg);
    var skipped := |rg.files| - |Kept(checkpointSet, rg.files)|;
    SumAppend(marked.onProgressCalls, ProgressReport(skipped));
    ReportSum(skipped);
  }

  lemma ReportSum(skipped: nat)
    ensures Sum(ProgressReport(skipped)) == skipped
  {
    if skipped > 0 {
      assert [skipped][..0] == [];
    }
  }

  lemma {:induction false} VisitRangesPlace(
    st: PlannerState, ranges: seq<MergedRange>, table: PhysicalTable, checkpointSet: set<string>, cfg: SplitConfig)
    requires VisitRanges(st, ranges, table, checkpointSet, cfg).Ok?
    ensures PlacedFiles(VisitRanges(st, ranges, table, checkpointSet, cfg).value) == PlacedFiles(st) + KeptOfRanges(checkpointSet, ranges)
    decreases |ranges|
  {
    if ranges == [] {
      assert PlacedFiles(st) + [] == PlacedFiles(st);
    } else {
      var next := VisitRange(st, ranges[0], table, checkpointSet, cfg).value;
      VisitRangePlaces(st, ranges[0], table, checkpointSet, cfg);
      VisitRangesPlace(next, ranges[1..], table, checkpointSet, cfg);
      var placed, kept, rest := PlacedFiles(st), Kept(checkpointSet, ranges[0].files), KeptOfRanges(checkpointSet, ranges[1..]);
      ConcatAssoc(placed, kept, rest);
    }
  }

  lemma {:induction false} VisitRangesAccount(
    st: PlannerState, ranges: seq<MergedRange>, table: PhysicalTable, checkpointSet: set<string>, cfg: SplitConfig)
    requires VisitRanges(st, ranges, table, checkpointSet, cfg).Ok?
    ensures Accounted(VisitRanges(st, ranges, table, checkpointSet, cfg).value) == Accounted(st) + |RangeFiles(ranges)|
    decreases |ranges|
  {
    if ranges != [] {
      var next := VisitRange(st, ranges[0], table, checkpointSet, cfg).value;
      VisitRangeAccounts(st, ranges[0], table, checkpointSet, cfg);
      VisitRangesAccount(next, ranges[1..], table, checkpointSet, cfg);
    }
  }

  /**
   * The contract of MergeAndRewriteFileRanges relied on here: every file it
   * is given lands in exactly one merged range, in whatever order.
   */
  ghost predicate MergeKeepsFiles(env: Collaborators) {
    forall files, rules, sizeThreshold, countThreshold ::
      env.mergeAndRewriteFileRanges(files, rules, sizeThreshold, countThreshold).Ok? ==>
        multiset(RangeFiles(env.mergeAndRewriteFileRanges(files, rules, sizeThreshold, countThreshold).value)) == multiset(files)
  }

  lemma {:induction false} KeptOfRangesIsKept(checkpointSet: set<string>, ranges: seq<MergedRange>)
    ensures KeptOfRanges(checkpointSet, ranges) == Kept(checkpointSet, RangeFiles(ranges))
    decreases |ranges|
  {
    if ranges != [] {
      KeptOfRangesIsKept(checkpointSet, ranges[1..]);
      KeptConcat(checkpointSet, ranges[0].files, RangeFiles(ranges[1..]));
    }
  }

  /** The number of occurrences of `f` in `files`. */
  function Occurrences(files: seq<BackupFile>, f: BackupFile): nat {
    if files == [] then 0
    else Occurrences(files[..|files| - 1], f) + if files[|files| - 1] == f then 1 else 0
  }

  lemma {:induction false} OccurrencesIsMultiplicity(files: seq<BackupFile>, f: BackupFile)
    ensures Occurrences(files, f) == multiset(files)[f]
  {
    if files != [] {
      var init, last := files[..|files| - 1], files[|files| - 1];
      OccurrencesIsMultiplicity(init, f);
      assert files == init + [last];
      MultisetAppend(init, last);
    }
  }

  /** A file the checkpoint does not skip occurs as often among the kept files as in the input. */
  lemma {:induction false} KeptOccurrences(checkpointSet: set<string>, files: seq<BackupFile>, f: BackupFile)
    requires !InCheckpoint(checkpointSet, f)
    ensures Occurrences(Kept(checkpointSet, files), f) == Occurrences(files, f)
  {
    if files != [] {
      var init, last := files[..|files| - 1], files[|files| - 1];
      KeptOccurrences(checkpointSet, init, f);
      var kept := Kept(checkpointSet, init);
      if !InCheckpoint(checkpointSet, last) {
        assert (kept + [last])[..|kept|] == kept;
      } else {
        assert kept + [] == kept;
      }
    }
  }

  /** The checkpoint filter does not care about the order of its input. */
  lemma KeptRespectsMultiset(checkpointSet: set<string>, a: seq<BackupFile>, b: seq<BackupFile>)
    requires multiset(a) == multiset(b)
    ensures multiset(Kept(checkpointSet, a)) == multiset(Kept(checkpointSet, b))
  {
    forall f ensures multiset(Kept(checkpointSet, a))[f] == multiset(Kept(checkpointSet, b))[f] {
      if InCheckpoint(checkpointSet, f) {
        KeptMembers(checkpointSet, a, f);
        KeptMembers(checkpointSet, b, f);
      } else {
        KeptOccurrences(checkpointSet, a, f);
        KeptOccurrences(checkpointSet, b, f);
        OccurrencesIsMultiplicity(a, f);
        OccurrencesIsMultiplicity(b, f);
        OccurrencesIsMultiplicity(Kept(checkpointSet, a), f);
        OccurrencesIsMultiplicity(Kept(checkpointSet, b), f);
      }
    }
  }

  /** The files of a table that its checkpoint does not skip. */
  function TableSurvivors(
    table: PhysicalTable, allFiles: seq<BackupFile>, checkpointSetWithTableID: map<int, set<string>>, decode: Key -> int): seq<BackupFile>
  {
    Kept(CheckpointOf(checkpointSetWithTableID, table.newPhysicalID), FilesOfTable(allFiles, decode, table.oldPhysicalID))
  }

  function SurvivingFiles(
    tables: seq<PhysicalTable>, allFiles: seq<BackupFile>, checkpointSetWithTableID: map<int, set<string>>, decode: Key -> int): seq<BackupFile>
  {
    if tables == [] then []
    else TableSurvivors(tables[0], allFiles, checkpointSetWithTableID, decode) + SurvivingFiles(tables[1..], allFiles, checkpointSetWithTableID, decode)
  }

  /** All the files of the tables, table by table. */
  function TablesFiles(tables: seq<PhysicalTable>, allFiles: seq<BackupFile>, decode: Key -> int): seq<BackupFile> {
    if tables == [] then []
    else FilesOfTable(allFiles, decode, tables[0].oldPhysicalID) + TablesFiles(tables[1..], allFiles, decode)
  }

  lemma FlushAtTableEndKeepsPlaced(st: PlannerState)
    ensures PlacedFiles(FlushAtTableEnd(st)) == PlacedFiles(st)
    ensures FlushAtTableEnd(st).onProgressCalls == st.onProgressCalls
  {
    EmitKeepsPlacedFiles(st);
  }

  lemma VisitTablePlaces(
    st: PlannerState, table: PhysicalTable, allFiles: seq<BackupFile>,
    checkpointSetWithTableID: map<int, set<string>>, cfg: SplitConfig, env: Collaborators)
    requires MergeKeepsFiles(env)
    requires VisitTable(st, table, allFiles, checkpointSetWithTableID, cfg, env).Ok?
    ensures multiset(PlacedFiles(VisitTable(st, table, allFiles, checkpointSetWithTableID, cfg, env).value)) ==
      multiset(PlacedFiles(st)) + multiset(TableSurvivors(table, allFiles, checkpointSetWithTableID, env.decodeTableID))
    ensures Accounted(VisitTable(st, table, allFiles, checkpointSetWithTableID, cfg, env).value) ==
      Accounted(st) + |FilesOfTable(allFiles, env.decodeTableID, table.oldPhysicalID)|
  {
    var files := FilesOfTable(allFiles, env.decodeTableID, table.oldPhysicalID);
    var checkpointSet := CheckpointOf(checkpointSetWithTableID, table.newPhysicalID);
    var sortedRanges := env.mergeAndRewriteFileRanges(files, table.rewriteRules, cfg.splitSizeBytes, cfg.splitKeyCount).value;
    assert multiset(RangeFiles(sortedRanges)) == multiset(files);
    assert |RangeFiles(sortedRanges)| == |files| by {
      assert |multiset(RangeFiles(sortedRanges))| == |multiset(files)|;
    }
    var visited := VisitRanges(st, sortedRanges, table, checkpointSet, cfg).value;
    VisitRangesPlace(st, sortedRanges, table, checkpointSet, cfg);
    VisitRangesAccount(st, sortedRanges, table, checkpointSet, cfg);
    KeptOfRangesIsKept(checkpointSet, sortedRanges);
    KeptRespectsMultiset(checkpointSet, RangeFiles(sortedRanges), files);
    FlushAtTableEndKeepsPlaced(visited);
  }

  lemma {:induction false} VisitTablesPlace(
    st: PlannerState, tables: seq<PhysicalTable>, allFiles: seq<BackupFile>,
    checkpointSetWithTableID: map<int, set<string>>, cfg: SplitConfig, env: Collaborators)
    requires MergeKeepsFiles(env)
    requires VisitTables(st, tables, allFiles, checkpointSetWithTableID, cfg, env).Ok?
    ensures multiset(PlacedFiles(VisitTables(st, tables, allFiles, checkpointSetWithTableID, cfg, env).value)) ==
      multiset(PlacedFiles(st)) + multiset(SurvivingFiles(tables, allFiles, checkpointSetWithTableID, env.decodeTableID))
    ensures Accounted(VisitTables(st, tables, allFiles, checkpointSetWithTableID, cfg, env).value) ==
      Accounted(st) + |TablesFiles(tables, allFiles, env.decodeTableID)|
    decreases |tables|
  {
    if tables != [] {
      var next := VisitTable(st, tables[0], allFiles, checkpointSetWithTableID, cfg, env).value;
      VisitTablePlaces(st, tables[0], allFiles, checkpointSetWithTableID, cfg, env);
      VisitTablesPlace(next, tables[1..], allFiles, checkpointSetWithTableID, cfg, env);
    }
  }

  lemma FinishPlaces(st: PlannerState)
    ensures AllBatchFiles(Finish(st).tableIDWithFilesGroup) == PlacedFiles(st)
  {
    var batches := Finish(st).tableIDWithFilesGroup;
    if st.lastFilesGroup != [] {
      assert batches[..|batches| - 1] == st.tableIDWithFilesGroup;
    } else {
      assert batches == st.tableIDWithFilesGroup;
      assert PlacedFiles(st) == AllBatchFiles(st.tableIDWithFilesGroup) + [];
    }
  }

  /**
   * A successful plan ingests, file for file, exactly the files of the
   * restored tables that the checkpoint does not skip, and every other
   * file of those tables is counted in an onProgress call.
   */
  lemma PlanIngestsSurvivingFiles(
    tables: seq<PhysicalTable>, allFiles: seq<BackupFile>,
    checkpointSetWithTableID: map<int, set<string>>, cfg: SplitConfig, env: Collaborators)
    requires MergeKeepsFiles(env)
    requires Plan(tables, allFiles, checkpointSetWithTableID, cfg, env).outcome.Planned?
    ensures var run := Plan(tables, allFiles, checkpointSetWithTableID, cfg, env);
      && multiset(AllBatchFiles(run.outcome.tableIDWithFilesGroup)) ==
        multiset(SurvivingFiles(tables, allFiles, checkpointSetWithTableID, env.decodeTableID))
      && Sum(run.onProgressCalls) + |AllBatchFiles(run.outcome.tableIDWithFilesGroup)| ==
        |TablesFiles(tables, allFiles, env.decodeTableID)|
  {
    var st := VisitTables(Initial, tables, allFiles, checkpointSetWithTableID, cfg, env).value;
    VisitTablesPlace(Initial, tables, allFiles, checkpointSetWithTableID, cfg, env);
    FinishPlaces(st);
  }

  lemma {:induction false} SurvivingFilesWithoutCheckpoint(tables: seq<PhysicalTable>, allFiles: seq<BackupFile>, decode: Key -> int)
    ensures SurvivingFiles(tables, allFiles, map[], decode) == TablesFiles(tables, allFiles, decode)
    decreases |tables|
  {
    if tables != [] {
      SurvivingFilesWithoutCheckpoint(tables[1..], allFiles, decode);
      KeptWithoutCheckpoint(FilesOfTable(allFiles, decode, tables[0].oldPhysicalID));
    }
  }

  /** Without a checkpoint, every file of every restored table is ingested and onProgress reports nothing. */
  lemma NoCheckpointIngestsEverything(
    tables: seq<PhysicalTable>, allFiles: seq<BackupFile>, cfg: SplitConfig, env: Collaborators)
    requires MergeKeepsFiles(env)
    requires Plan(tables, allFiles, map[], cfg, env).outcome.Planned?
    ensures var run := Plan(tables, allFiles, map[], cfg, env);
      && multiset(AllBatchFiles(run.outcome.tableIDWithFilesGroup)) == multiset(TablesFiles(tables, allFiles, env.decodeTableID))
      && Sum(run.onProgressCalls) == 0
  {
    PlanIngestsSurvivingFiles(tables, allFiles, map[], cfg, env);
    SurvivingFilesWithoutCheckpoint(tables, allFiles, env.decodeTableID);
    var run := Plan(tables, allFiles, map[], cfg, env);
    assert |AllBatchFiles(run.outcome.tableIDWithFilesGroup)| == |TablesFiles(tables, allFiles, env.decodeTableID)| by {
      assert |multiset(AllBatchFiles(run.outcome.tableIDWithFilesGroup))| == |multiset(TablesFiles(tables, allFiles, env.decodeTableID))|;
    }
  }

  // ---------------------------------------------------------------------
  // Stops

  /**
   * A file whose keys decode to two tables, or to table 0, makes the whole
   * plan panic before any table is visited or any progress is reported.
   */
  lemma CorruptFileStopsPlan(
    tables: seq<PhysicalTable>, allFiles: seq<BackupFile>,
    checkpointSetWithTableID: map<int, set<string>>, cfg: SplitConfig, env: Collaborators, i: nat)
    requires i < |allFiles|
    requires env.decodeTableID(allFiles[i].startKey) != env.decodeTableID(allFiles[i].endKey)
      || env.decodeTableID(allFiles[i].startKey) == 0
    ensures var run := Plan(tables, allFiles, checkpointSetWithTableID, cfg, env);
      run.outcome.Stopped? && run.outcome.stop.Fatal? && run.onProgressCalls == []
  {
    FirstFaultIff(allFiles, env.decodeTableID);
  }

  /** Validation passes exactly when every file passes its rewrite-rule check. */
  lemma {:induction false} FirstValidationErrorIff(
    files: seq<BackupFile>, rules: RewriteRules, validate: (BackupFile, RewriteRules) -> Option<string>)
    ensures FirstValidationError(files, rules, validate).None? <==>
      forall i :: 0 <= i < |files| ==> validate(files[i], rules).None?
    decreases |files|
  {
    if files != [] {
      FirstValidationErrorIff(files[1..], rules, validate);
      assert forall i :: 1 <= i < |files| ==> files[i] == files[1..][i - 1];
    }
  }

  /**
   * A file of the first table that fails its rewrite-rule check stops the
   * plan before any progress is reported; the stop is that error unless a
   * corrupt file already made the plan panic.
   */
  lemma InvalidRewriteRuleStopsPlan(
    tables: seq<PhysicalTable>, allFiles: seq<BackupFile>,
    checkpointSetWithTableID: map<int, set<string>>, cfg: SplitConfig, env: Collaborators, i: nat)
    requires tables != []
    requires i < |FilesOfTable(allFiles, env.decodeTableID, tables[0].oldPhysicalID)|
    requires env.validateFileRewriteRule(FilesOfTable(allFiles, env.decodeTableID, tables[0].oldPhysicalID)[i], tables[0].rewriteRules).Some?
    ensures var run := Plan(tables, allFiles, checkpointSetWithTableID, cfg, env);
      && run.outcome.Stopped?
      && run.onProgressCalls == []
      && (FirstFault(allFiles, env.decodeTableID).None? ==>
            && run.outcome.stop.Failed?
            && Some(run.outcome.stop.error) == FirstValidationError(
              FilesOfTable(allFiles, env.decodeTableID, tables[0].oldPhysicalID), tables[0].rewriteRules,
              env.validateFileRewriteRule))
  {
    FirstValidationErrorIff(
      FilesOfTable(allFiles, env.decodeTableID, tables[0].oldPhysicalID), tables[0].rewriteRules, env.validateFileRewriteRule);
  }

  /** Walking the tables is walking a prefix of them, then the rest from where the prefix left off. */
  lemma {:induction false} VisitTablesPrefix(
    st: PlannerState, tables: seq<PhysicalTable>, k: nat, allFiles: seq<BackupFile>,
    checkpointSetWithTableID: map<int, set<string>>, cfg: SplitConfig, env: Collaborators)
    requires k <= |tables|
    requires VisitTables(st, tables[..k], allFiles, checkpointSetWithTableID, cfg, env).Ok?
    ensures VisitTables(st, tables, allFiles, checkpointSetWithTableID, cfg, env) ==
      VisitTables(VisitTables(st, tables[..k], allFiles, checkpointSetWithTableID, cfg, env).value, tables[k..],
        allFiles, checkpointSetWithTableID, cfg, env)
    decreases k
  {
    if k == 0 {
      assert tables[k..] == tables;
    } else {
      assert tables[..k][0] == tables[0] && tables[..k][1..] == tables[1..][..k - 1];
      var next := VisitTable(st, tables[0], allFiles, checkpointSetWithTableID, cfg, env).value;
      VisitTablesPrefix(next, tables[1..], k - 1, allFiles, checkpointSetWithTableID, cfg, env);
      assert tables[1..][k - 1..] == tables[k..];
    }
  }

  /**
   * Once the tables before table k have been walked, a file of table k that
   * fails its rewrite-rule check stops the plan with the first such error,
   * and only the progress reported for the earlier tables has been made.
   */
  lemma InvalidRewriteRuleStopsPlanAt(
    tables: seq<PhysicalTable>, k: nat, allFiles: seq<BackupFile>,
    checkpointSetWithTableID: map<int, set<string>>, cfg: SplitConfig, env: Collaborators)
    requires k < |tables|
    requires FirstFault(allFiles, env.decodeTableID).None?
    requires VisitTables(Initial, tables[..k], allFiles, checkpointSetWithTableID, cfg, env).Ok?
    requires FirstValidationError(
      FilesOfTable(allFiles, env.decodeTableID, tables[k].oldPhysicalID), tables[k].rewriteRules, env.validateFileRewriteRule).Some?
    ensures var run := Plan(tables, allFiles, checkpointSetWithTableID, cfg, env);
      && run.outcome == Stopped(Failed(FirstValidationError(
           FilesOfTable(allFiles, env.decodeTableID, tables[k].oldPhysicalID), tables[k].rewriteRules,
           env.validateFileRewriteRule).value))
      && run.onProgressCalls == VisitTables(Initial, tables[..k], allFiles, checkpointSetWithTableID, cfg, env).value.onProgressCalls
  {
    VisitTablesPrefix(Initial, tables, k, allFiles, checkpointSetWithTableID, cfg, env);
    assert tables[k..][0] == tables[k];
  }

  /** Every file of a run of ranges that was walked without a panic has a range key. */
  lemma {:induction false} VisitRangesNamesFiles(
    st: PlannerState, ranges: seq<MergedRange>, table: PhysicalTable, checkpointSet: set<string>, cfg: SplitConfig)
    requires VisitRanges(st, ranges, table, checkpointSet, cfg).Ok?
    ensures forall f :: f in RangeFiles(ranges) ==> '_' in f.name
    decreases |ranges|
  {
    if ranges != [] {
      var next := VisitRange(st, ranges[0], table, checkpointSet, cfg).value;
      VisitRangesNamesFiles(next, ranges[1..], table, checkpointSet, cfg);
      assert forall f :: f in ranges[0].files ==> '_' in f.name by {
        assert FirstNameFault(ranges[0].files).None?;
      }
    }
  }

  /** Every file of tables walked without a stop has a range key, when the merge keeps its files. */
  lemma {:induction false} VisitTablesNameFiles(
    st: PlannerState, tables: seq<PhysicalTable>, allFiles: seq<BackupFile>,
    checkpointSetWithTableID: map<int, set<string>>, cfg: SplitConfig, env: Collaborators)
    requires MergeKeepsFiles(env)
    requires VisitTables(st, tables, allFiles, checkpointSetWithTableID, cfg, env).Ok?
    ensures forall f :: f in TablesFiles(tables, allFiles, env.decodeTableID) ==> '_' in f.name
    decreases |tables|
  {
    if tables != [] {
      var table := tables[0];
      var files := FilesOfTable(allFiles, env.decodeTableID, table.oldPhysicalID);
      var sortedRanges := env.mergeAndRewriteFileRanges(files, table.rewriteRules, cfg.splitSizeBytes, cfg.splitKeyCount).value;
      VisitRangesNamesFiles(st, sortedRanges, table, CheckpointOf(checkpointSetWithTableID, table.newPhysicalID), cfg);
      assert multiset(RangeFiles(sortedRanges)) == multiset(files);
      forall f | f in files ensures '_' in f.name {
        assert f in multiset(RangeFiles(sortedRanges));
      }
      var next := VisitTable(st, table, allFiles, checkpointSetWithTableID, cfg, env).value;
      VisitTablesNameFiles(next, tables[1..], allFiles, checkpointSetWithTableID, cfg, env);
    }
  }

  /**
   * A plan that succeeds has met no file name without `_`: a file of a
   * restored table whose name has no range key always makes the plan panic.
   */
  lemma PlannedFilesHaveRangeKeys(
    tables: seq<PhysicalTable>, allFiles: seq<BackupFile>,
    checkpointSetWithTableID: map<int, set<string>>, cfg: SplitConfig, env: Collaborators)
    requires MergeKeepsFiles(env)
    requires Plan(tables, allFiles, checkpointSetWithTableID, cfg, env).outcome.Planned?
    ensures forall f :: f in TablesFiles(tables, allFiles, env.decodeTableID) ==> '_' in f.name
  {
    VisitTablesNameFiles(Initial, tables, allFiles, checkpointSetWithTableID, cfg, env);
  }
}
