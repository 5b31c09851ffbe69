/*
 * Cache keys (src/Cache/CacheKey.php): a fixed prefix, the table name,
 * '_' and one or two FNV-1 64 digests, the last of them taken over the
 * `print_r` rendering of a flat array of scalars.
 */
module CacheKey {
  import opened Php
  import Fnv

  const EntityPrefix: string := "ORM-ENTITY_"
  const QueryPrefix: string := "ORM-SQL-RESULTS_"

  /** The `print_r` line of one array entry: `    [key] => value`. */
  function PrintRLine(e: (Key, Scalar)): string
  {
    "    [" + KeyString(e.0) + "] => " + ScalarToString(e.1) + "\n"
  }

  function PrintRLines(a: seq<(Key, Scalar)>): (r: string)
    ensures |r| >= 11 * |a|
  {
    if a == [] then "" else PrintRLines(a[..|a| - 1]) + PrintRLine(a[|a| - 1])
  }

  /** `print_r($a, true)` for a flat array of scalars. */
  function PrintR(a: seq<(Key, Scalar)>): (r: string)
    ensures |r| >= 10 + 11 * |a|
  {
    "Array\n(\n" + PrintRLines(a) + ")\n"
  }

  /** Arrays whose entries render alike render alike, whatever the scalar types. */
  lemma {:induction false} PrintRLinesByRendering(a: seq<(Key, Scalar)>, b: seq<(Key, Scalar)>)
    requires |a| == |b|
    requires forall i :: 0 <= i < |a| ==> a[i].0 == b[i].0 && ScalarToString(a[i].1) == ScalarToString(b[i].1)
    ensures PrintRLines(a) == PrintRLines(b)
    decreases |a|
  {
    if a != [] {
      PrintRLinesByRendering(a[..|a| - 1], b[..|b| - 1]);
      assert PrintRLine(a[|a| - 1]) == PrintRLine(b[|b| - 1]);
    }
  }

  /** A key laid out as prefix, table name, '_' and a digest part. */
  function Compose(prefix: string, tableName: string, digest: string): string
  {
    prefix + tableName + "_" + digest
  }

  /** `getEntityCacheKey($tableName, $primaryKeyValues)`. */
  function EntityKey(tableName: string, primaryKeyValues: seq<(Key, Scalar)>): (r: string)
    ensures |r| == |EntityPrefix| + |tableName| + 1 + 16
  {
    Compose(EntityPrefix, tableName, Fnv.Fnv164(PrintR(primaryKeyValues)))
  }

  /** `getQueryResultCacheKey($tableName, $sqlQuery, $sqlParams)`: two digests, no separator. */
  function QueryKey(tableName: string, sqlQuery: string, sqlParams: seq<(Key, Scalar)>): (r: string)
    ensures |r| == |QueryPrefix| + |tableName| + 1 + 32
  {
    Compose(QueryPrefix, tableName, Fnv.Fnv164(sqlQuery) + Fnv.Fnv164(PrintR(sqlParams)))
  }

  predicate AllHex(s: string) { forall i :: 0 <= i < |s| ==> Fnv.IsHexDigit(s[i]) }

  /**
   * Reads the table name back out of a key with the given prefix and a
   * digest part of `digestLength` hexadecimal digits after the last '_'.
   */
  function TableOf(key: string, prefix: string, digestLength: nat): Option<string>
  {
    if |key| >= |prefix| + 1 + digestLength && key[..|prefix|] == prefix
       && key[|key| - digestLength - 1] == '_' && AllHex(key[|key| - digestLength..])
    then Some(key[|prefix|..|key| - digestLength - 1])
    else None
  }

  lemma ComposeTable(prefix: string, tableName: string, digest: string)
    requires AllHex(digest)
    ensures TableOf(Compose(prefix, tableName, digest), prefix, |digest|) == Some(tableName)
  {
    var key := Compose(prefix, tableName, digest);
    assert key[|key| - |digest|..] == digest;
    assert key[..|prefix|] == prefix;
    assert key[|prefix|..|key| - |digest| - 1] == tableName;
  }

  /** The table name can be recovered from an entity key, so keys of different tables differ. */
  lemma EntityKeyTable(tableName: string, primaryKeyValues: seq<(Key, Scalar)>)
    ensures TableOf(EntityKey(tableName, primaryKeyValues), EntityPrefix, 16) == Some(tableName)
  {
    ComposeTable(EntityPrefix, tableName, Fnv.Fnv164(PrintR(primaryKeyValues)));
  }

  /** The table name can be recovered from a query key (32 digest digits). */
  lemma QueryKeyTable(tableName: string, sqlQuery: string, sqlParams: seq<(Key, Scalar)>)
    ensures TableOf(QueryKey(tableName, sqlQuery, sqlParams), QueryPrefix, 32) == Some(tableName)
  {
    var d1, d2 := Fnv.Fnv164(sqlQuery), Fnv.Fnv164(PrintR(sqlParams));
    assert AllHex(d1 + d2);
    ComposeTable(QueryPrefix, tableName, d1 + d2);
  }

  lemma EntityKeysOfDifferentTablesDiffer(t1: string, p1: seq<(Key, Scalar)>, t2: string, p2: seq<(Key, Scalar)>)
    requires t1 != t2
    ensures EntityKey(t1, p1) != EntityKey(t2, p2)
  {
    EntityKeyTable(t1, p1);
    EntityKeyTable(t2, p2);
  }

  lemma QueryKeysOfDifferentTablesDiffer(t1: string, q1: string, p1: seq<(Key, Scalar)>, t2: string, q2: string, p2: seq<(Key, Scalar)>)
    requires t1 != t2
    ensures QueryKey(t1, q1, p1) != QueryKey(t2, q2, p2)
  {
    QueryKeyTable(t1, q1, p1);
    QueryKeyTable(t2, q2, p2);
  }

  lemma ComposeAt(prefix: string, tableName: string, digest: string, i: nat)
    requires i < |prefix|
    ensures Compose(prefix, tableName, digest)[i] == prefix[i]
  {
  }

  /** An entity key is never a query key: the prefixes differ at their fifth character. */
  lemma EntityAndQueryKeysDiffer(t1: string, p1: seq<(Key, Scalar)>, t2: string, q2: string, p2: seq<(Key, Scalar)>)
    ensures EntityKey(t1, p1) != QueryKey(t2, q2, p2)
  {
    ComposeAt(EntityPrefix, t1, Fnv.Fnv164(PrintR(p1)), 4);
    ComposeAt(QueryPrefix, t2, Fnv.Fnv164(q2) + Fnv.Fnv164(PrintR(p2)), 4);
  }

  /** Primary keys that render alike share an entity key: `[1]`, `["1"]` and `[true]` hit the same entry. */
  lemma EntityKeyByRendering(tableName: string, a: seq<(Key, Scalar)>, b: seq<(Key, Scalar)>)
    requires |a| == |b|
    requires forall i :: 0 <= i < |a| ==> a[i].0 == b[i].0 && ScalarToString(a[i].1) == ScalarToString(b[i].1)
    ensures EntityKey(tableName, a) == EntityKey(tableName, b)
  {
    PrintRLinesByRendering(a, b);
  }
}
