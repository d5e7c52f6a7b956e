/** getFileRangeKey: the checkpoint key of a backup data file name. */
module RangeKeys {
  import opened Wrappers

  /** strings.LastIndex for a single character: -1 when `c` does not occur. */
  function LastIndex(s: string, c: char): (r: int)
    ensures -1 <= r < |s|
    ensures 0 <= r ==> s[r] == c
    ensures forall j :: r < j < |s| ==> s[j] != c
  {
    if |s| == 0 then -1
    else if s[|s| - 1] == c then |s| - 1
    else LastIndex(s[..|s| - 1], c)
  }

  /**
   * A data file is named `{store}_{region}_{epoch}_{key}_{ts}_{cf}.sst`; its
   * range key drops the `_{cf}.sst` suffix so that the write and default
   * column-family files of one range share a key. A name without `_` is a
   * corrupt backup (None: the source panics).
   */
  function FileRangeKey(name: string): (r: Option<string>)
    ensures r.None? <==> '_' !in name
    ensures r.Some? ==>
      && |r.value| < |name|
      && name[..|r.value|] == r.value
      && name[|r.value|] == '_'
      && forall j :: |r.value| < j < |name| ==> name[j] != '_'
  {
    var idx := LastIndex(name, '_');
    if idx < 0 then None else Some(name[..idx])
  }

  /** The key of `prefix_suffix` is `prefix` whenever the suffix has no `_`. */
  lemma RangeKeyDropsLastSegment(prefix: string, suffix: string)
    requires '_' !in suffix
    ensures FileRangeKey(prefix + "_" + suffix) == Some(prefix)
  {
    var name := prefix + "_" + suffix;
    assert name[|prefix|] == '_';
    assert name[..|prefix|] == prefix;
  }

  /** Files of one range that differ only in their last segment share a key. */
  lemma SameRangeSameKey(prefix: string, cf1: string, cf2: string)
    requires '_' !in cf1 && '_' !in cf2
    ensures FileRangeKey(prefix + "_" + cf1) == FileRangeKey(prefix + "_" + cf2)
  {
    RangeKeyDropsLastSegment(prefix, cf1);
    RangeKeyDropsLastSegment(prefix, cf2);
  }
}
