/** filterOutFiles: drop the files a previous restore attempt already ingested. */
module CheckpointFilter {
  import opened Wrappers
  import opened RestoreTypes
  import opened RangeKeys

  /** The file's range key is recorded as done; a file without a key never is. */
  predicate InCheckpoint(checkpointSet: set<string>, f: BackupFile) {
    match FileRangeKey(f.name)
    case Some(k) => k in checkpointSet
    case None => false
  }

  /** The fault of the first file whose name has no range key. */
  function FirstNameFault(files: seq<BackupFile>): (r: Option<Fault>)
    ensures r.None? <==> forall i :: 0 <= i < |files| ==> '_' in files[i].name
  {
    if files == [] then None
    else if '_' !in files[0].name then Some(InvalidFileName(files[0].name))
    else
      var r := FirstNameFault(files[1..]);
      assert forall i :: 1 <= i < |files| ==> files[i] == files[1..][i - 1];
      r
  }

  /** The files still to restore, in input order. */
  function Kept(checkpointSet: set<string>, files: seq<BackupFile>): (r: seq<BackupFile>)
    ensures |r| <= |files|
  {
    if files == [] then []
    else
      var last := files[|files| - 1];
      assert files == files[..|files| - 1] + [last];
      Kept(checkpointSet, files[..|files| - 1]) + (if InCheckpoint(checkpointSet, last) then [] else [last])
  }

  /** The files a previous attempt already restored, in input order. */
  function Skipped(checkpointSet: set<string>, files: seq<BackupFile>): (r: seq<BackupFile>)
  {
    if files == [] then []
    else
      var last := files[|files| - 1];
      assert files == files[..|files| - 1] + [last];
      Skipped(checkpointSet, files[..|files| - 1]) + (if InCheckpoint(checkpointSet, last) then [last] else [])
  }

  /** The calls made to onProgress for `skipped` dropped files: one call, only when some were dropped. */
  function ProgressReport(skipped: nat): (calls: seq<nat>)
    ensures |calls| <= 1
    ensures calls != [] <==> skipped > 0
    ensures forall c :: c in calls ==> c == skipped
  {
    if skipped > 0 then [skipped] else []
  }

  /**
   * filterOutFiles. The onProgress calls are returned in `onProgressCalls`;
   * `fault` is the panic of getFileRangeKey on a name without `_`.
   */
  method FilterOutFiles(checkpointSet: set<string>, files: seq<BackupFile>)
    returns (newFiles: seq<BackupFile>, onProgressCalls: seq<nat>, fault: Option<Fault>)
    ensures fault == FirstNameFault(files)
    ensures fault.Some? ==> onProgressCalls == []
    ensures fault.None? ==> newFiles == Kept(checkpointSet, files)
    ensures fault.None? ==> onProgressCalls == ProgressReport(|files| - |newFiles|)
  {
    var progress := 0;
    newFiles := [];
    onProgressCalls := [];
    fault := None;
    var i := 0;
    while i < |files|
      invariant 0 <= i <= |files|
      invariant FirstNameFault(files) == FirstNameFault(files[i..])
      invariant newFiles == Kept(checkpointSet, files[..i])
      invariant progress == i - |newFiles|
    {
      var file := files[i];
      var rangeKey := FileRangeKey(file.name);
      if rangeKey.None? {
        assert files[i..][0] == file;
        fault := Some(InvalidFileName(file.name));
        return;
      }
      NameFaultStep(files, i);
      KeptStep(checkpointSet, files, i);
      if rangeKey.value in checkpointSet {
        assert Kept(checkpointSet, files[..i + 1]) == newFiles + [];
        progress := progress + 1;
      } else {
        newFiles := newFiles + [file];
      }
      i := i + 1;
    }
    assert files[..i] == files;
    if progress > 0 {
      // Each skipped file stands for two restore stages and is one of two
      // column-family files of its range, so the two factors cancel.
      onProgressCalls := [progress * 2 / 2];
    }
  }

  /** Past a well-named file, the first name fault is that of the rest. */
  lemma NameFaultStep(files: seq<BackupFile>, i: nat)
    requires i < |files| && '_' in files[i].name
    ensures FirstNameFault(files[i..]) == FirstNameFault(files[i + 1..])
  {
    assert files[i..][0] == files[i] && files[i..][1..] == files[i + 1..];
  }

  /** Keeping one more file. */
  lemma KeptStep(checkpointSet: set<string>, files: seq<BackupFile>, i: nat)
    requires i < |files|
    ensures Kept(checkpointSet, files[..i + 1]) ==
      Kept(checkpointSet, files[..i]) + if InCheckpoint(checkpointSet, files[i]) then [] else [files[i]]
  {
    assert files[..i + 1][..i] == files[..i];
  }

  /** Keeping is applied file by file, so it distributes over concatenation. */
  lemma {:induction false} KeptConcat(checkpointSet: set<string>, a: seq<BackupFile>, b: seq<BackupFile>)
    ensures Kept(checkpointSet, a + b) == Kept(checkpointSet, a) + Kept(checkpointSet, b)
  {
    if b != [] {
      var b' := b[..|b| - 1];
      assert (a + b)[..|a + b| - 1] == a + b';
      KeptConcat(checkpointSet, a, b');
    } else {
      assert a + b == a;
    }
  }

  /** Without a checkpoint every file is kept. */
  lemma {:induction false} KeptWithoutCheckpoint(files: seq<BackupFile>)
    ensures Kept({}, files) == files
  {
    if files != [] {
      KeptWithoutCheckpoint(files[..|files| - 1]);
      assert files == files[..|files| - 1] + [files[|files| - 1]];
    }
  }

  /** Every file is either kept or skipped, never both, and none is lost. */
  lemma {:induction false} KeptSkippedPartition(checkpointSet: set<string>, files: seq<BackupFile>)
    ensures multiset(Kept(checkpointSet, files)) + multiset(Skipped(checkpointSet, files)) == multiset(files)
  {
    if files != [] {
      var init, last := files[..|files| - 1], files[|files| - 1];
      KeptSkippedPartition(checkpointSet, init);
      assert multiset(files) == multiset(init) + multiset{last} by {
        assert files == init + [last];
        MultisetAppend(init, last);
      }
      var kept, skipped := Kept(checkpointSet, init), Skipped(checkpointSet, init);
      if InCheckpoint(checkpointSet, last) {
        assert Kept(checkpointSet, files) == kept + [];
        assert Skipped(checkpointSet, files) == skipped + [last];
        MultisetAppend(skipped, last);
      } else {
        assert Kept(checkpointSet, files) == kept + [last];
        assert Skipped(checkpointSet, files) == skipped + [];
        MultisetAppend(kept, last);
      }
    }
  }

  lemma MultisetAppend(s: seq<BackupFile>, x: BackupFile)
    ensures multiset(s + [x]) == multiset(s) + multiset{x}
  {
  }

  /** The kept and the skipped files together are as many as the input. */
  lemma {:induction false} KeptSkippedCount(checkpointSet: set<string>, files: seq<BackupFile>)
    ensures |Kept(checkpointSet, files)| + |Skipped(checkpointSet, files)| == |files|
  {
    if files != [] {
      KeptSkippedCount(checkpointSet, files[..|files| - 1]);
    }
  }

  /** The fault names the first badly named file. */
  lemma {:induction false} FirstNameFaultIsFirst(files: seq<BackupFile>)
    requires FirstNameFault(files).Some?
    ensures exists i ::
      && 0 <= i < |files|
      && '_' !in files[i].name
      && FirstNameFault(files) == Some(InvalidFileName(files[i].name))
      && forall j :: 0 <= j < i ==> '_' in files[j].name
  {
    if '_' in files[0].name {
      FirstNameFaultIsFirst(files[1..]);
      var i :| && 0 <= i < |files[1..]|
               && '_' !in files[1..][i].name
               && FirstNameFault(files[1..]) == Some(InvalidFileName(files[1..][i].name))
               && forall j :: 0 <= j < i ==> '_' in files[1..][j].name;
      assert forall j :: 1 <= j < i + 1 ==> files[j] == files[1..][j - 1];
      assert files[i + 1] == files[1..][i];
    }
  }

  /** A file is kept exactly when it is an input file whose range key is not done. */
  lemma {:induction false} KeptMembers(checkpointSet: set<string>, files: seq<BackupFile>, f: BackupFile)
    ensures f in Kept(checkpointSet, files) <==> f in files && !InCheckpoint(checkpointSet, f)
  {
    if files != [] {
      var init, last := files[..|files| - 1], files[|files| - 1];
      KeptMembers(checkpointSet, init, f);
      assert files == init + [last];
    }
  }

  /** A file is skipped exactly when it is an input file whose range key is done. */
  lemma {:induction false} SkippedMembers(checkpointSet: set<string>, files: seq<BackupFile>, f: BackupFile)
    ensures f in Skipped(checkpointSet, files) <==> f in files && InCheckpoint(checkpointSet, f)
  {
    if files != [] {
      var init, last := files[..|files| - 1], files[|files| - 1];
      SkippedMembers(checkpointSet, init, f);
      assert files == init + [last];
    }
  }
}
