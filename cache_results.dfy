/*
 * The cache helper of src/Cache/CacheResults.php. It stands between the
 * ORM and a PSR-16 cache, which the model sees as the map of what the
 * cache holds. Every lookup records the key it hashed, so that a write
 * that follows can reuse that key instead of hashing again.
 */
module CacheResults {
  import opened Php
  import CacheKey
  import Fnv

  /** What the helper reads from an entity: its class's TABLENAME and `extractPrimaryKeyValues()`. */
  datatype EntityRef = EntityRef(tableName: string, primaryKeyValues: seq<(Key, Scalar)>)

  /** PSR-16 `get($key)` with its default: the stored value, or null when the key is absent. */
  function CacheGet(store: map<string, Value>, key: string): Value
  {
    if key in store then store[key] else Sc(Null)
  }

  /** `$useLastHashedKey && $this->lastHashedKey`: a recorded key is reused only when it is truthy. */
  predicate ReusesLastKey(lastHashedKey: Option<string>, useLastHashedKey: bool)
  {
    useLastHashedKey && lastHashedKey.Some? && Truthy(Str(lastHashedKey.value))
  }

  /** The key `setEntityCache` writes under. */
  function EntityWriteKey(lastHashedKey: Option<string>, useLastHashedKey: bool, entity: EntityRef): string
  {
    if ReusesLastKey(lastHashedKey, useLastHashedKey) then lastHashedKey.value
    else CacheKey.EntityKey(entity.tableName, entity.primaryKeyValues)
  }

  /**
   * The key `setQueryResultsCache` writes under, as written: its fallback
   * calls `getEntityCacheKey($tableName, $sqlQuery, $sqlParams)`, handing
   * the SQL string to a parameter declared `array`, which is a TypeError
   * whatever the SQL is.
   */
  function QueryWriteKeyAsWritten(lastHashedKey: Option<string>, useLastHashedKey: bool): (r: Outcome<string>)
    ensures r.Ok? <==> ReusesLastKey(lastHashedKey, useLastHashedKey)
    ensures r.Ok? ==> lastHashedKey == Some(r.value)
    ensures r.Thrown? ==> r.error == TypeError
  {
    if ReusesLastKey(lastHashedKey, useLastHashedKey) then Ok(lastHashedKey.value) else Thrown(TypeError)
  }

  /** The key `setQueryResultsCache` evidently means: the query key that `getQueryResultCachedData` reads. */
  function QueryWriteKey(lastHashedKey: Option<string>, useLastHashedKey: bool,
                         tableName: string, sqlQuery: string, sqlParams: seq<(Key, Scalar)>): string
  {
    if ReusesLastKey(lastHashedKey, useLastHashedKey) then lastHashedKey.value
    else CacheKey.QueryKey(tableName, sqlQuery, sqlParams)
  }

  class CacheResults {
    /** The contents of the PSR-16 cache. */
    var store: map<string, Value>
    /** The key of the most recent get*, `null` before the first. */
    var lastHashedKey: Option<string>

    constructor(store: map<string, Value>)
      ensures this.store == store && lastHashedKey == None
    {
      this.store := store;
      lastHashedKey := None;
    }

    /**
     * `getEntityCachedData`, as written: the key is recorded first, then
     * the cached value goes through the method's `: bool` return type.
     */
    method GetEntityCachedData(tableName: string, primaryKeyValues: seq<(Key, Scalar)>) returns (r: Outcome<bool>)
      modifies this`lastHashedKey
      ensures lastHashedKey == Some(CacheKey.EntityKey(tableName, primaryKeyValues))
      ensures r == BoolReturn(CacheGet(store, CacheKey.EntityKey(tableName, primaryKeyValues)))
    {
      var key := CacheKey.EntityKey(tableName, primaryKeyValues);
      lastHashedKey := Some(key);
      r := BoolReturn(CacheGet(store, key));
    }

    /** `getEntityCachedData` with the return type it evidently means (mixed): the cached value itself. */
    method GetEntityCachedValue(tableName: string, primaryKeyValues: seq<(Key, Scalar)>) returns (v: Value)
      modifies this`lastHashedKey
      ensures lastHashedKey == Some(CacheKey.EntityKey(tableName, primaryKeyValues))
      ensures v == CacheGet(store, CacheKey.EntityKey(tableName, primaryKeyValues))
    {
      var key := CacheKey.EntityKey(tableName, primaryKeyValues);
      lastHashedKey := Some(key);
      v := CacheGet(store, key);
    }

    /** `getQueryResultCachedData`: records the query key and returns what is cached under it. */
    method GetQueryResultCachedData(tableName: string, sqlQuery: string, sqlParams: seq<(Key, Scalar)>) returns (v: Value)
      modifies this`lastHashedKey
      ensures lastHashedKey == Some(CacheKey.QueryKey(tableName, sqlQuery, sqlParams))
      ensures v == CacheGet(store, CacheKey.QueryKey(tableName, sqlQuery, sqlParams))
    {
      var key := CacheKey.QueryKey(tableName, sqlQuery, sqlParams);
      lastHashedKey := Some(key);
      v := CacheGet(store, key);
    }

    /** `setEntityCache`: stores `data` under the reused or the recomputed entity key. */
    method SetEntityCache(entity: EntityRef, data: seq<(Key, Value)>, useLastHashedKey: bool) returns (ok: bool)
      modifies this`store
      ensures store == old(store)[EntityWriteKey(lastHashedKey, useLastHashedKey, entity) := Arr(data)]
      ensures ok
    {
      var key;
      if useLastHashedKey && lastHashedKey.Some? && Truthy(Str(lastHashedKey.value)) {
        key := lastHashedKey.value;
      } else {
        key := CacheKey.EntityKey(entity.tableName, entity.primaryKeyValues);
      }
      store := store[key := Arr(data)];
      ok := true;
    }

    /** `setQueryResultsCache`, as written: without a reusable key it throws and stores nothing. */
    method SetQueryResultsCacheAsWritten(tableName: string, sqlQuery: string, sqlParams: string,
                                         data: seq<(Key, Value)>, useLastHashedKey: bool) returns (r: Outcome<bool>)
      modifies this`store
      ensures r.Thrown? <==> QueryWriteKeyAsWritten(lastHashedKey, useLastHashedKey).Thrown?
      ensures r.Thrown? ==> r.error == TypeError && store == old(store)
      ensures r.Ok? ==> r.value && store == old(store)[lastHashedKey.value := Arr(data)]
    {
      if useLastHashedKey && lastHashedKey.Some? && Truthy(Str(lastHashedKey.value)) {
        store := store[lastHashedKey.value := Arr(data)];
        r := Ok(true);
      } else {
        r := Thrown(TypeError);
      }
    }

    /** `setQueryResultsCache` with its fallback computing the query key from an array of parameters. */
    method SetQueryResultsCache(tableName: string, sqlQuery: string, sqlParams: seq<(Key, Scalar)>,
                                data: seq<(Key, Value)>, useLastHashedKey: bool) returns (ok: bool)
      modifies this`store
      ensures store == old(store)[QueryWriteKey(lastHashedKey, useLastHashedKey, tableName, sqlQuery, sqlParams) := Arr(data)]
      ensures ok
    {
      var key;
      if useLastHashedKey && lastHashedKey.Some? && Truthy(Str(lastHashedKey.value)) {
        key := lastHashedKey.value;
      } else {
        key := CacheKey.QueryKey(tableName, sqlQuery, sqlParams);
      }
      store := store[key := Arr(data)];
      ok := true;
    }

    /** `getLastHashedKey`. */
    method GetLastHashedKey() returns (k: Option<string>)
      ensures k == lastHashedKey
    {
      k := lastHashedKey;
    }
  }

  /** Every key the helper computes starts with "ORM-", so it is truthy and can be reused. */
  lemma ComputedKeysAreTruthy(tableName: string, sqlQuery: string, params: seq<(Key, Scalar)>)
    ensures Truthy(Str(CacheKey.EntityKey(tableName, params)))
    ensures Truthy(Str(CacheKey.QueryKey(tableName, sqlQuery, params)))
  {
    CacheKey.ComposeAt(CacheKey.EntityPrefix, tableName, Fnv.Fnv164(CacheKey.PrintR(params)), 0);
    CacheKey.ComposeAt(CacheKey.QueryPrefix, tableName,
                       Fnv.Fnv164(sqlQuery) + Fnv.Fnv164(CacheKey.PrintR(params)), 0);
  }

  /**
   * Reusing the key of a preceding `getEntityCachedData` for the same
   * entity writes exactly where recomputing the key would.
   */
  lemma EntityKeyReuseAgrees(entity: EntityRef)
    ensures EntityWriteKey(Some(CacheKey.EntityKey(entity.tableName, entity.primaryKeyValues)), true, entity)
         == EntityWriteKey(None, false, entity)
  {
    ComputedKeysAreTruthy(entity.tableName, "", entity.primaryKeyValues);
  }

  /** Likewise for a query: the reused key is the key the lookup read. */
  lemma QueryKeyReuseAgrees(tableName: string, sqlQuery: string, sqlParams: seq<(Key, Scalar)>)
    ensures QueryWriteKey(Some(CacheKey.QueryKey(tableName, sqlQuery, sqlParams)), true, tableName, sqlQuery, sqlParams)
         == CacheKey.QueryKey(tableName, sqlQuery, sqlParams)
  {
    ComputedKeysAreTruthy(tableName, sqlQuery, sqlParams);
  }

  /**
   * Entity and query entries live apart: an entity write under a computed
   * key, or under the reused key of a lookup of the same entity, leaves
   * every query's cached results as they were.
   */
  lemma EntityWriteKeepsQueryEntries(store: map<string, Value>, entity: EntityRef, data: seq<(Key, Value)>,
                                     lastHashedKey: Option<string>, useLastHashedKey: bool,
                                     tableName: string, sqlQuery: string, sqlParams: seq<(Key, Scalar)>)
    requires lastHashedKey == None || lastHashedKey == Some(CacheKey.EntityKey(entity.tableName, entity.primaryKeyValues))
    ensures var q := CacheKey.QueryKey(tableName, sqlQuery, sqlParams);
            CacheGet(store[EntityWriteKey(lastHashedKey, useLastHashedKey, entity) := Arr(data)], q) == CacheGet(store, q)
  {
    CacheKey.EntityAndQueryKeysDiffer(entity.tableName, entity.primaryKeyValues, tableName, sqlQuery, sqlParams);
  }

  /** Likewise, the corrected query write leaves every entity's cached data as it was. */
  lemma QueryWriteKeepsEntityEntries(store: map<string, Value>, tableName: string, sqlQuery: string,
                                     sqlParams: seq<(Key, Scalar)>, data: seq<(Key, Value)>,
                                     lastHashedKey: Option<string>, useLastHashedKey: bool, entity: EntityRef)
    requires lastHashedKey == None || lastHashedKey == Some(CacheKey.QueryKey(tableName, sqlQuery, sqlParams))
    ensures var e := CacheKey.EntityKey(entity.tableName, entity.primaryKeyValues);
            CacheGet(store[QueryWriteKey(lastHashedKey, useLastHashedKey, tableName, sqlQuery, sqlParams) := Arr(data)], e)
            == CacheGet(store, e)
  {
    CacheKey.EntityAndQueryKeysDiffer(entity.tableName, entity.primaryKeyValues, tableName, sqlQuery, sqlParams);
  }

  /**
   * The recorded key is that of the latest lookup, whatever its kind: an
   * entity write that reuses it after a query lookup overwrites that
   * query's cached results.
   */
  lemma EntityWriteAfterQueryLookup(entity: EntityRef, tableName: string, sqlQuery: string, sqlParams: seq<(Key, Scalar)>)
    ensures EntityWriteKey(Some(CacheKey.QueryKey(tableName, sqlQuery, sqlParams)), true, entity)
         == CacheKey.QueryKey(tableName, sqlQuery, sqlParams)
    ensures EntityWriteKey(Some(CacheKey.QueryKey(tableName, sqlQuery, sqlParams)), true, entity)
         != CacheKey.EntityKey(entity.tableName, entity.primaryKeyValues)
  {
    ComputedKeysAreTruthy(tableName, sqlQuery, sqlParams);
    CacheKey.EntityAndQueryKeysDiffer(entity.tableName, entity.primaryKeyValues, tableName, sqlQuery, sqlParams);
  }

  /**
   * As written, `getEntityCachedData` can never hand back what
   * `setEntityCache` stored: the stored array fails the `: bool` return
   * type, and so does the null of a cache miss.
   */
  lemma EntityReadAfterWriteThrows(store: map<string, Value>, entity: EntityRef, data: seq<(Key, Value)>)
    ensures var key := CacheKey.EntityKey(entity.tableName, entity.primaryKeyValues);
            BoolReturn(CacheGet(store[EntityWriteKey(None, false, entity) := Arr(data)], key)) == Thrown(TypeError)
    ensures var key := CacheKey.EntityKey(entity.tableName, entity.primaryKeyValues);
            key !in store ==> BoolReturn(CacheGet(store, key)) == Thrown(TypeError)
  {
  }

  /** With the value returned as it is, a lookup after a write returns the data written. */
  lemma EntityCacheRoundTrip(store: map<string, Value>, entity: EntityRef, data: seq<(Key, Value)>,
                             lastHashedKey: Option<string>, useLastHashedKey: bool)
    requires lastHashedKey == None || lastHashedKey == Some(CacheKey.EntityKey(entity.tableName, entity.primaryKeyValues))
    ensures CacheGet(store[EntityWriteKey(lastHashedKey, useLastHashedKey, entity) := Arr(data)],
                     CacheKey.EntityKey(entity.tableName, entity.primaryKeyValues)) == Arr(data)
  {
    ComputedKeysAreTruthy(entity.tableName, "", entity.primaryKeyValues);
  }

  /** As written, `setQueryResultsCache` fails unless a truthy key is reused: on a fresh helper it always throws. */
  lemma QueryWriteFallbackThrows(lastHashedKey: Option<string>, useLastHashedKey: bool)
    ensures QueryWriteKeyAsWritten(lastHashedKey, useLastHashedKey).Thrown?
        <==> !ReusesLastKey(lastHashedKey, useLastHashedKey)
    ensures QueryWriteKeyAsWritten(None, useLastHashedKey) == Thrown(TypeError)
  {
  }

  /** Corrected, a query lookup after a query write returns the data written, whether the key was reused or not. */
  lemma QueryCacheRoundTrip(store: map<string, Value>, tableName: string, sqlQuery: string, sqlParams: seq<(Key, Scalar)>,
                            data: seq<(Key, Value)>, lastHashedKey: Option<string>, useLastHashedKey: bool)
    requires lastHashedKey == None || lastHashedKey == Some(CacheKey.QueryKey(tableName, sqlQuery, sqlParams))
    ensures CacheGet(store[QueryWriteKey(lastHashedKey, useLastHashedKey, tableName, sqlQuery, sqlParams) := Arr(data)],
                     CacheKey.QueryKey(tableName, sqlQuery, sqlParams)) == Arr(data)
  {
    ComputedKeysAreTruthy(tableName, sqlQuery, sqlParams);
  }
}
