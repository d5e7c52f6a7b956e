/**
 * The values the snapshot restore sender works on: backup file metadata,
 * the tables created for the restore, the merged key ranges and the
 * ingestion batches, plus the collaborators whose code is not part of
 * this model, given as total functions.
 */
module RestoreTypes {
  import opened Wrappers

  newtype Byte = x: int | 0 <= x < 256

  /** A key of the destination key-value store. */
  type Key = seq<Byte>

  /** Name of the column family whose files carry the committed rows. */
  const WriteCFName: string := "write"

  /** Metadata of one immutable SST file of the backup. */
  datatype BackupFile = BackupFile(
    name: string,
    startKey: Key,
    endKey: Key,
    cf: string,
    totalKvs: nat,
    totalBytes: nat)

  /** One key-prefix rewrite from the backed-up table to the created one. */
  datatype RewriteRule = RewriteRule(oldKeyPrefix: Key, newKeyPrefix: Key, newTimestamp: nat)

  type RewriteRules = seq<RewriteRule>

  /** One partition of a partitioned table, as the table schema lists it. */
  datatype PartitionDefinition = PartitionDefinition(id: int, name: string)

  /**
   * The parts of a table schema the sender and GetPartitionIDMap look at:
   * the ID, read directly, and the name and partition list, which
   * GetPartitionIDMap matches between the old and the new table.
   */
  datatype TableInfo = TableInfo(id: int, name: string, partitions: seq<PartitionDefinition>)

  /** A table created for the restore, paired with the table it restores. */
  datatype CreatedTable = CreatedTable(table: TableInfo, oldTable: TableInfo, rewriteRule: RewriteRules)

  /** A table or one partition of a partitioned table. */
  datatype PhysicalTable = PhysicalTable(newPhysicalID: int, oldPhysicalID: int, rewriteRules: RewriteRules)

  /** A coalesced key range of one table, built from one or more backup files. */
  datatype MergedRange = MergedRange(startKey: Key, endKey: Key, size: nat, count: nat, files: seq<BackupFile>)

  /** One table's contribution to an ingestion batch. */
  datatype BackupFileSet = BackupFileSet(tableID: int, sstFiles: seq<BackupFile>, rewriteRules: RewriteRules)

  /** One ingestion batch; a nil batch is the empty sequence. */
  type Batch = seq<BackupFileSet>

  /** Corrupt backup metadata: the source terminates the process on these. */
  datatype Fault =
    | KeyRangeSpansTables(fileName: string)
    | InvalidTableKey(fileName: string)
    | InvalidFileName(fileName: string)

  /**
   * The functions the sender calls but whose code is not modelled:
   * tablecodec.DecodeTableID, restoreutils.ValidateFileRewriteRule
   * (None when the file passes), restoreutils.MergeAndRewriteFileRanges
   * (its statistics are only logged, so only the ranges are kept) and
   * restoreutils.GetPartitionIDMap (old partition ID to new partition ID).
   */
  datatype Collaborators = Collaborators(
    decodeTableID: Key -> int,
    validateFileRewriteRule: (BackupFile, RewriteRules) -> Option<string>,
    mergeAndRewriteFileRanges: (seq<BackupFile>, RewriteRules, nat, nat) -> Result<seq<MergedRange>, string>,
    getPartitionIDMap: (TableInfo, TableInfo) -> map<int, int>)
}
