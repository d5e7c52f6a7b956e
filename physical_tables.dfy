/** getSortedPhysicalTables: flatten created tables and their partitions, sorted by new ID. */
module PhysicalTables {
  import opened RestoreTypes

  /** The entry of the table itself. */
  function SelfEntry(ct: CreatedTable): PhysicalTable {
    PhysicalTable(ct.table.id, ct.oldTable.id, ct.rewriteRule)
  }

  /** The entry of the partition whose old ID is `oldID`; it carries the parent's rewrite rules. */
  function PartitionEntry(ct: CreatedTable, partitionIDMap: map<int, int>, oldID: int): PhysicalTable
    requires oldID in partitionIDMap
  {
    PhysicalTable(partitionIDMap[oldID], oldID, ct.rewriteRule)
  }

  /** The entries of the partitions whose old IDs are in `oldIDs`. */
  function PartitionEntries(ct: CreatedTable, partitionIDMap: map<int, int>, oldIDs: set<int>): set<PhysicalTable>
    requires oldIDs <= partitionIDMap.Keys
  {
    set oldID | oldID in oldIDs :: PartitionEntry(ct, partitionIDMap, oldID)
  }

  /** The entries of one created table: itself and every pair of its partition ID map. */
  function EntriesOf(ct: CreatedTable, getPartitionIDMap: (TableInfo, TableInfo) -> map<int, int>): multiset<PhysicalTable> {
    var partitionIDMap := getPartitionIDMap(ct.table, ct.oldTable);
    multiset{SelfEntry(ct)} + multiset(PartitionEntries(ct, partitionIDMap, partitionIDMap.Keys))
  }

  /** The entries of all created tables, whatever order they are listed in. */
  function AllEntries(createdTables: seq<CreatedTable>, getPartitionIDMap: (TableInfo, TableInfo) -> map<int, int>): multiset<PhysicalTable> {
    if createdTables == [] then multiset{}
    else
      AllEntries(createdTables[..|createdTables| - 1], getPartitionIDMap)
      + EntriesOf(createdTables[|createdTables| - 1], getPartitionIDMap)
  }

  predicate SortedByNewID(s: seq<PhysicalTable>) {
    forall i, j :: 0 <= i < j < |s| ==> s[i].newPhysicalID <= s[j].newPhysicalID
  }

  predicate DistinctNewIDs(s: seq<PhysicalTable>) {
    forall i, j :: 0 <= i < j < |s| ==> s[i].newPhysicalID != s[j].newPhysicalID
  }

  /** Adding one more partition to the enumerated ones adds exactly its entry. */
  lemma PartitionEntriesGrow(ct: CreatedTable, partitionIDMap: map<int, int>, oldIDs: set<int>, oldID: int)
    requires oldIDs <= partitionIDMap.Keys && oldID in partitionIDMap && oldID !in oldIDs
    ensures multiset(PartitionEntries(ct, partitionIDMap, oldIDs + {oldID})) ==
      multiset(PartitionEntries(ct, partitionIDMap, oldIDs)) + multiset{PartitionEntry(ct, partitionIDMap, oldID)}
  {
    var entry := PartitionEntry(ct, partitionIDMap, oldID);
    var before := PartitionEntries(ct, partitionIDMap, oldIDs);
    assert PartitionEntries(ct, partitionIDMap, oldIDs + {oldID}) == before + {entry};
    assert entry !in before;
  }

  /** Exchanges a[j - 1] and a[j]. */
  method SwapDown(a: array<PhysicalTable>, j: int)
    requires 0 < j < a.Length
    modifies a
    ensures a[..] == old(a[..])[j - 1 := old(a[j])][j := old(a[j - 1])]
    ensures multiset(a[..]) == multiset(old(a[..]))
  {
    a[j - 1], a[j] := a[j], a[j - 1];
  }

  /** Moves a[i] down into the sorted prefix a[..i]. */
  method InsertIntoPrefix(a: array<PhysicalTable>, i: int)
    requires 0 <= i < a.Length
    requires SortedByNewID(a[..i])
    modifies a
    ensures SortedByNewID(a[..i + 1])
    ensures a[i + 1..] == old(a[i + 1..])
    ensures multiset(a[..]) == multiset(old(a[..]))
  {
    var j := i;
    while j > 0 && a[j - 1].newPhysicalID > a[j].newPhysicalID
      invariant 0 <= j <= i
      invariant forall k, l :: 0 <= k < l <= i && k != j && l != j ==> a[k].newPhysicalID <= a[l].newPhysicalID
      invariant forall l :: j < l <= i ==> a[j].newPhysicalID < a[l].newPhysicalID
      invariant a[i + 1..] == old(a[i + 1..])
      invariant multiset(a[..]) == multiset(old(a[..]))
    {
      SwapDown(a, j);
      j := j - 1;
    }
  }

  /** sort.Slice by NewPhysicalID, as an in-place insertion sort. */
  method SortByNewID(a: array<PhysicalTable>)
    modifies a
    ensures SortedByNewID(a[..])
    ensures multiset(a[..]) == multiset(old(a[..]))
  {
    var i := 0;
    while i < a.Length
      invariant 0 <= i <= a.Length
      invariant SortedByNewID(a[..i])
      invariant multiset(a[..]) == multiset(old(a[..]))
    {
      InsertIntoPrefix(a, i);
      i := i + 1;
    }
    assert a[..i] == a[..];
  }

  /** One step of ranging over a Go map: any key not yet visited. */
  method PickKey(keys: set<int>) returns (key: int)
    requires keys != {}
    ensures key in keys
  {
    NonEmptyHasKey(keys);
    key :| key in keys;
  }

  lemma NonEmptyHasKey(keys: set<int>)
    requires keys != {}
    ensures exists key :: key in keys
  {
    if forall key :: key !in keys {
      assert false;
    }
  }

  /** The inner loop of getSortedPhysicalTables: one entry per pair of the map, in map iteration order. */
  method AppendPartitionEntries(flat: seq<PhysicalTable>, ct: CreatedTable, partitionIDMap: map<int, int>)
    returns (appended: seq<PhysicalTable>)
    ensures multiset(appended) == multiset(flat) + multiset(PartitionEntries(ct, partitionIDMap, partitionIDMap.Keys))
  {
    appended := flat;
    var remaining := partitionIDMap.Keys;
    ghost var visited: set<int> := {};
    while remaining != {}
      invariant remaining <= partitionIDMap.Keys
      invariant visited == partitionIDMap.Keys - remaining
      invariant multiset(appended) == multiset(flat) + multiset(PartitionEntries(ct, partitionIDMap, visited))
      decreases remaining
    {
      var oldID := PickKey(remaining);
      PartitionEntriesGrow(ct, partitionIDMap, visited, oldID);
      appended := appended + [PhysicalTable(partitionIDMap[oldID], oldID, ct.rewriteRule)];
      remaining := remaining - {oldID};
      visited := visited + {oldID};
    }
    assert visited == partitionIDMap.Keys;
  }

  /** The loop of getSortedPhysicalTables that appends the entries of every created table. */
  method FlattenCreatedTables(createdTables: seq<CreatedTable>, getPartitionIDMap: (TableInfo, TableInfo) -> map<int, int>)
    returns (flat: seq<PhysicalTable>)
    ensures multiset(flat) == AllEntries(createdTables, getPartitionIDMap)
  {
    flat := [];
    for i := 0 to |createdTables|
      invariant multiset(flat) == AllEntries(createdTables[..i], getPartitionIDMap)
    {
      var createdTable := createdTables[i];
      assert createdTables[..i + 1][..i] == createdTables[..i];
      flat := flat + [SelfEntry(createdTable)];
      var partitionIDMap := getPartitionIDMap(createdTable.table, createdTable.oldTable);
      flat := AppendPartitionEntries(flat, createdTable, partitionIDMap);
    }
    assert createdTables[..|createdTables|] == createdTables;
  }

  /**
   * getSortedPhysicalTables. The partition ID map is a Go map, so its pairs
   * are appended in an arbitrary order; the result is sorted by new ID.
   */
  method GetSortedPhysicalTables(createdTables: seq<CreatedTable>, getPartitionIDMap: (TableInfo, TableInfo) -> map<int, int>)
    returns (physicalTables: seq<PhysicalTable>)
    ensures SortedByNewID(physicalTables)
    ensures multiset(physicalTables) == AllEntries(createdTables, getPartitionIDMap)
  {
    var flat := FlattenCreatedTables(createdTables, getPartitionIDMap);
    var a := new PhysicalTable[|flat|](k requires 0 <= k < |flat| => flat[k]);
    assert a[..] == flat;
    SortByNewID(a);
    physicalTables := a[..];
  }

  /**
   * With distinct new IDs the sorted order is unique: whatever order the
   * partition maps were ranged over, every run yields the same list.
   */
  lemma {:induction false} SortedTablesUnique(s1: seq<PhysicalTable>, s2: seq<PhysicalTable>)
    requires SortedByNewID(s1) && SortedByNewID(s2)
    requires DistinctNewIDs(s1)
    requires multiset(s1) == multiset(s2)
    ensures s1 == s2
  {
    assert |s1| == |multiset(s1)| == |multiset(s2)| == |s2|;
    if s1 != [] {
      SameFirstEntry(s1, s2);
      DropFirst(s1);
      DropFirst(s2);
      SortedTablesUnique(s1[1..], s2[1..]);
      assert s1 == [s1[0]] + s1[1..] && s2 == [s2[0]] + s2[1..];
    }
  }

  /** The entry with the least new ID comes first in both lists. */
  lemma SameFirstEntry(s1: seq<PhysicalTable>, s2: seq<PhysicalTable>)
    requires SortedByNewID(s1) && SortedByNewID(s2)
    requires DistinctNewIDs(s1)
    requires multiset(s1) == multiset(s2)
    requires s1 != [] && s2 != []
    ensures s1[0] == s2[0]
  {
    var x, y := s1[0], s2[0];
    assert x in multiset(s2) && y in multiset(s1);
    var k :| 0 <= k < |s2| && s2[k] == x;
    var m :| 0 <= m < |s1| && s1[m] == y;
    assert s1[0].newPhysicalID <= s1[m].newPhysicalID;
    assert s2[0].newPhysicalID <= s2[k].newPhysicalID;
  }

  lemma DropFirst(s: seq<PhysicalTable>)
    requires s != []
    ensures multiset(s[1..]) == multiset(s) - multiset{s[0]}
  {
    assert s == [s[0]] + s[1..];
  }

  /** What an entry of a created table is: the table itself or one of its partitions. */
  ghost predicate EntryOfTable(ct: CreatedTable, getPartitionIDMap: (TableInfo, TableInfo) -> map<int, int>, p: PhysicalTable) {
    var partitionIDMap := getPartitionIDMap(ct.table, ct.oldTable);
    && p.rewriteRules == ct.rewriteRule
    && (|| (p.newPhysicalID == ct.table.id && p.oldPhysicalID == ct.oldTable.id)
        || (p.oldPhysicalID in partitionIDMap && p.newPhysicalID == partitionIDMap[p.oldPhysicalID]))
  }

  /** Every entry comes from some created table and carries that table's rewrite rules. */
  lemma {:induction false} EntriesCarryParentRules(
    createdTables: seq<CreatedTable>, getPartitionIDMap: (TableInfo, TableInfo) -> map<int, int>, p: PhysicalTable)
    requires p in AllEntries(createdTables, getPartitionIDMap)
    ensures exists i :: 0 <= i < |createdTables| && EntryOfTable(createdTables[i], getPartitionIDMap, p)
  {
    var n := |createdTables| - 1;
    var init, last := createdTables[..n], createdTables[n];
    if p in AllEntries(init, getPartitionIDMap) {
      EntriesCarryParentRules(init, getPartitionIDMap, p);
      var i :| 0 <= i < |init| && EntryOfTable(init[i], getPartitionIDMap, p);
      assert createdTables[i] == init[i];
    } else {
      assert p in EntriesOf(last, getPartitionIDMap);
      assert EntryOfTable(createdTables[n], getPartitionIDMap, p);
    }
  }

  /** Both the table and each of its partitions appear among the entries. */
  lemma {:induction false} EntriesIncludeEveryPartition(
    createdTables: seq<CreatedTable>, getPartitionIDMap: (TableInfo, TableInfo) -> map<int, int>, i: nat, oldID: int)
    requires i < |createdTables|
    ensures SelfEntry(createdTables[i]) in AllEntries(createdTables, getPartitionIDMap)
    ensures var ct := createdTables[i];
      var partitionIDMap := getPartitionIDMap(ct.table, ct.oldTable);
      oldID in partitionIDMap ==> PartitionEntry(ct, partitionIDMap, oldID) in AllEntries(createdTables, getPartitionIDMap)
  {
    var n := |createdTables| - 1;
    if i < n {
      EntriesIncludeEveryPartition(createdTables[..n], getPartitionIDMap, i, oldID);
      assert createdTables[..n][i] == createdTables[i];
    } else {
      var ct := createdTables[i];
      var partitionIDMap := getPartitionIDMap(ct.table, ct.oldTable);
      if oldID in partitionIDMap {
        assert PartitionEntry(ct, partitionIDMap, oldID) in PartitionEntries(ct, partitionIDMap, partitionIDMap.Keys);
      }
    }
  }
}
