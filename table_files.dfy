/** mapTableToFiles: bucket the backup files by the table their keys belong to. */
module TableFiles {
  import opened Wrappers
  import opened RestoreTypes

  /** The integrity fault of one file, if any; the span check comes first. */
  function FileFault(f: BackupFile, decode: Key -> int): (r: Option<Fault>)
    ensures r.None? <==> decode(f.startKey) == decode(f.endKey) != 0
  {
    var tableID := decode(f.startKey);
    if tableID != decode(f.endKey) then Some(KeyRangeSpansTables(f.name))
    else if tableID == 0 then Some(InvalidTableKey(f.name))
    else None
  }

  /** The fault of the first faulty file: the panic that stops mapTableToFiles. */
  function FirstFault(files: seq<BackupFile>, decode: Key -> int): (r: Option<Fault>)
    ensures r.Some? ==> exists f :: f in files && r == FileFault(f, decode)
  {
    if files == [] then None
    else if FileFault(files[0], decode).Some? then FileFault(files[0], decode)
    else FirstFault(files[1..], decode)
  }

  /** The files whose start key decodes to `tableID`, in input order. */
  function FilesOfTable(files: seq<BackupFile>, decode: Key -> int, tableID: int): (r: seq<BackupFile>)
    ensures |r| <= |files|
  {
    if files == [] then []
    else
      var last := files[|files| - 1];
      FilesOfTable(files[..|files| - 1], decode, tableID) + (if decode(last.startKey) == tableID then [last] else [])
  }

  /** Appending the next file to its table's bucket keeps every bucket equal to FilesOfTable. */
  lemma BucketsGrow(fileOfTable: map<int, seq<BackupFile>>, files: seq<BackupFile>, i: nat, decode: Key -> int)
    requires i < |files|
    requires forall id :: id in fileOfTable ==> fileOfTable[id] != []
    requires forall id :: Bucket(fileOfTable, id) == FilesOfTable(files[..i], decode, id)
    ensures var tableID := decode(files[i].startKey);
      var grown := fileOfTable[tableID := Bucket(fileOfTable, tableID) + [files[i]]];
      && (forall id :: id in grown ==> grown[id] != [])
      && (forall id :: Bucket(grown, id) == FilesOfTable(files[..i + 1], decode, id))
  {
    assert files[..i + 1][..i] == files[..i];
  }

  /** Past an accepted file, the first fault is that of the rest. */
  lemma FirstFaultStep(files: seq<BackupFile>, i: nat, decode: Key -> int)
    requires i < |files| && FileFault(files[i], decode).None?
    ensures FirstFault(files[i..], decode) == FirstFault(files[i + 1..], decode)
  {
    assert files[i..][0] == files[i] && files[i..][1..] == files[i + 1..];
  }

  /** The write-cf count of one more file. */
  lemma WriteCFCountStep(files: seq<BackupFile>, i: nat)
    requires i < |files|
    ensures WriteCFCount(files[..i + 1]) == WriteCFCount(files[..i]) + if files[i].cf == WriteCFName then 1 else 0
  {
    assert files[..i + 1][..i] == files[..i];
  }

  /** When no bucket is empty, a table has a bucket exactly when it has files. */
  lemma BucketKeys(fileOfTable: map<int, seq<BackupFile>>, files: seq<BackupFile>, decode: Key -> int)
    requires forall id :: id in fileOfTable ==> fileOfTable[id] != []
    requires forall id :: Bucket(fileOfTable, id) == FilesOfTable(files, decode, id)
    ensures forall id :: id in fileOfTable <==> FilesOfTable(files, decode, id) != []
  {
    forall id ensures id in fileOfTable <==> FilesOfTable(files, decode, id) != [] {
      assert Bucket(fileOfTable, id) == FilesOfTable(files, decode, id);
    }
  }

  /** The number of files of the write column family. */
  function WriteCFCount(files: seq<BackupFile>): (n: nat)
    ensures n <= |files|
  {
    if files == [] then 0
    else WriteCFCount(files[..|files| - 1]) + (if files[|files| - 1].cf == WriteCFName then 1 else 0)
  }

  /** What mapTableToFiles returns: the buckets and the split-key capacity hint. */
  datatype TableFileMap = TableFileMap(fileOfTable: map<int, seq<BackupFile>>, hintSplitKeyCount: nat)

  /** The bucket of a table; a table without files gets the nil slice. */
  function Bucket(fileOfTable: map<int, seq<BackupFile>>, tableID: int): seq<BackupFile> {
    if tableID in fileOfTable then fileOfTable[tableID] else []
  }

  /**
   * mapTableToFiles. `Err` is the log.Panic on a file whose start and end
   * keys decode to different tables or to table 0.
   */
  method MapTableToFiles(files: seq<BackupFile>, decode: Key -> int) returns (r: Result<TableFileMap, Fault>)
    ensures r.Err? <==> FirstFault(files, decode).Some?
    ensures r.Err? ==> Some(r.error) == FirstFault(files, decode)
    ensures r.Ok? ==> forall id :: id in r.value.fileOfTable <==> FilesOfTable(files, decode, id) != []
    ensures r.Ok? ==> forall id :: Bucket(r.value.fileOfTable, id) == FilesOfTable(files, decode, id)
    ensures r.Ok? ==> r.value.hintSplitKeyCount == WriteCFCount(files)
  {
    var result: map<int, seq<BackupFile>> := map[];
    var maxSplitKeyCount := 0;
    var i := 0;
    while i < |files|
      invariant 0 <= i <= |files|
      invariant FirstFault(files, decode) == FirstFault(files[i..], decode)
      invariant forall id :: id in result ==> result[id] != []
      invariant forall id :: Bucket(result, id) == FilesOfTable(files[..i], decode, id)
      invariant maxSplitKeyCount == WriteCFCount(files[..i])
    {
      var file := files[i];
      var tableID := decode(file.startKey);
      var tableEndID := decode(file.endKey);
      assert files[i..][0] == file;
      if tableID != tableEndID {
        assert FirstFault(files[i..], decode) == Some(KeyRangeSpansTables(file.name));
        return Err(KeyRangeSpansTables(file.name));
      }
      if tableID == 0 {
        assert FirstFault(files[i..], decode) == Some(InvalidTableKey(file.name));
        return Err(InvalidTableKey(file.name));
      }
      FirstFaultStep(files, i, decode);
      BucketsGrow(result, files, i, decode);
      WriteCFCountStep(files, i);
      result := result[tableID := Bucket(result, tableID) + [file]];
      if file.cf == WriteCFName {
        maxSplitKeyCount := maxSplitKeyCount + 1;
      }
      i := i + 1;
    }
    assert files[..i] == files;
    BucketKeys(result, files, decode);
    return Ok(TableFileMap(result, maxSplitKeyCount));
  }

  /** A file lies in the bucket of exactly the table its start key decodes to. */
  lemma {:induction false} FilesOfTableMembers(files: seq<BackupFile>, decode: Key -> int, tableID: int, f: BackupFile)
    ensures f in FilesOfTable(files, decode, tableID) <==> f in files && decode(f.startKey) == tableID
  {
    if files != [] {
      var init, last := files[..|files| - 1], files[|files| - 1];
      FilesOfTableMembers(init, decode, tableID, f);
      assert files == init + [last];
    }
  }

  /** Bucketing keeps input order: it distributes over concatenation. */
  lemma {:induction false} FilesOfTableConcat(a: seq<BackupFile>, b: seq<BackupFile>, decode: Key -> int, tableID: int)
    ensures FilesOfTable(a + b, decode, tableID) == FilesOfTable(a, decode, tableID) + FilesOfTable(b, decode, tableID)
  {
    if b == [] {
      assert a + b == a;
    } else {
      var b' := b[..|b| - 1];
      assert (a + b)[..|a + b| - 1] == a + b';
      FilesOfTableConcat(a, b', decode, tableID);
    }
  }

  /** The buckets of a table and of any other table together never hold more files than the input. */
  lemma {:induction false} BucketsDisjoint(files: seq<BackupFile>, decode: Key -> int, id1: int, id2: int)
    requires id1 != id2
    ensures |FilesOfTable(files, decode, id1)| + |FilesOfTable(files, decode, id2)| <= |files|
  {
    if files != [] {
      BucketsDisjoint(files[..|files| - 1], decode, id1, id2);
    }
  }

  /** mapTableToFiles aborts exactly when some file spans two tables or decodes to table 0. */
  lemma {:induction false} FirstFaultIff(files: seq<BackupFile>, decode: Key -> int)
    ensures FirstFault(files, decode).None? <==>
      forall i :: 0 <= i < |files| ==> decode(files[i].startKey) == decode(files[i].endKey) != 0
  {
    if files != [] {
      FirstFaultIff(files[1..], decode);
      assert forall i :: 1 <= i < |files| ==> files[i] == files[1..][i - 1];
    }
  }
}
