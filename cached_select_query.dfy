/*
 * The cursor of src/QueryBuilder/CachedSelectQuery.php: query results
 * read back from the cache, replayed row by row through `fetch`, all at
 * once through `fetchAll`, or as one scalar. The rows never change after
 * construction; the cursor is the pair (`fetchDone`, `currentFetchIndex`).
 */
module CachedSelectQuery {
  import opened Php

  const FormatEntity: string := "entity"
  const FormatArray: string := "array"

  /** One fetched row: the row itself, or `new $entityClass($row)`, which the model leaves uninterpreted. */
  datatype Fetched = Row(row: Value) | Entity(entityClass: string, row: Value)

  datatype Cursor = Cursor(done: bool, index: int)

  /**
   * The entity class rows are wrapped in: present exactly when
   * `$this->entityClass` is truthy and the format is 'entity'.
   */
  function Mode(entityClass: Option<string>, fetchDataFormat: string): Option<string>
  {
    if entityClass.Some? && Truthy(Str(entityClass.value)) && fetchDataFormat == FormatEntity
    then entityClass else None
  }

  function Wrap(row: Value, mode: Option<string>): Fetched
  {
    if mode.Some? then Entity(mode.value, row) else Row(row)
  }

  /**
   * One `fetch`: a finished cursor restarts at index 0; a present index
   * yields its row and moves on by one; an absent index yields null and
   * marks the cursor finished.
   */
  function FetchStep(data: seq<(Key, Value)>, mode: Option<string>, c: Cursor): (r: (Cursor, Option<Fetched>))
    ensures r.0.done <==> r.1.None?
    ensures r.1.Some? ==> r.0.index == (if c.done then 0 else c.index) + 1
                          && RowAt(data, r.0.index - 1) == Some(r.1.value.row)
    ensures r.1.None? ==> r.0.index == (if c.done then 0 else c.index) && RowAt(data, r.0.index).None?
  {
    var index := if c.done then 0 else c.index;
    match Lookup(data, IntKey(index))
    case Some(row) => (Cursor(false, index + 1), Some(Wrap(row, mode)))
    case None => (Cursor(true, index), None)
  }

  /** `n` successive calls of `fetch`: the final cursor and the results in call order. */
  function FetchMany(data: seq<(Key, Value)>, mode: Option<string>, c: Cursor, n: nat): (Cursor, seq<Option<Fetched>>)
    decreases n
  {
    if n == 0 then (c, [])
    else
      var (c1, r) := FetchStep(data, mode, c);
      var (c2, rs) := FetchMany(data, mode, c1, n - 1);
      (c2, [r] + rs)
  }

  /** The row stored under integer key `i`, or null. */
  function RowAt(data: seq<(Key, Value)>, i: int): Option<Value>
  {
    Lookup(data, IntKey(i))
  }

  class CachedSelectQuery {
    /** The cached rows, fixed at construction. */
    const cachedData: seq<(Key, Value)>
    var fetchDone: bool
    var fetchDataFormat: string
    var currentFetchIndex: int
    /** Inherited from QueryAbstract; the constructor does not call the parent's, so it starts null. */
    var entityClass: Option<string>

    /** The initial values are the property defaults: finished, 'entity', index 0. */
    constructor(cachedData: seq<(Key, Value)>)
      ensures this.cachedData == cachedData
      ensures fetchDone && fetchDataFormat == FormatEntity && currentFetchIndex == 0 && entityClass == None
    {
      this.cachedData := cachedData;
      fetchDone := true;
      fetchDataFormat := FormatEntity;
      currentFetchIndex := 0;
      entityClass := None;
    }

    function State(): Cursor
      reads this
    {
      Cursor(fetchDone, currentFetchIndex)
    }

    function CurrentMode(): Option<string>
      reads this
    {
      Mode(entityClass, fetchDataFormat)
    }

    /** `setFetchDataFormat`: changes only the format and returns the same object. */
    method SetFetchDataFormat(format: string) returns (self: CachedSelectQuery)
      modifies this`fetchDataFormat
      ensures fetchDataFormat == format && self == this
    {
      fetchDataFormat := format;
      self := this;
    }

    /** `setEntityClass`, inherited from QueryAbstract: changes only the entity class and returns the same object. */
    method SetEntityClass(cls: string) returns (self: CachedSelectQuery)
      modifies this`entityClass
      ensures entityClass == Some(cls) && self == this
    {
      entityClass := Some(cls);
      self := this;
    }

    /** `fetch`: moves the cursor as FetchStep says and returns its row. */
    method Fetch() returns (r: Option<Fetched>)
      modifies this`fetchDone, this`currentFetchIndex
      ensures (State(), r) == FetchStep(cachedData, CurrentMode(), old(State()))
    {
      if fetchDone {
        currentFetchIndex := 0;
        fetchDone := false;
      }
      var row := Lookup(cachedData, IntKey(currentFetchIndex));
      if row.Some? {
        currentFetchIndex := currentFetchIndex + 1;
        if entityClass.Some? && Truthy(Str(entityClass.value)) && fetchDataFormat == FormatEntity {
          r := Some(Entity(entityClass.value, row.value));
        } else {
          r := Some(Row(row.value));
        }
      } else {
        fetchDone := true;
        r := None;
      }
    }

    /** `fetchOne`: the first row (or null) whatever the cursor was, leaving the cursor finished. */
    method FetchOne() returns (r: Option<Fetched>)
      modifies this`fetchDone, this`currentFetchIndex
      ensures r == (if RowAt(cachedData, 0).Some? then Some(Wrap(RowAt(cachedData, 0).value, CurrentMode())) else None)
      ensures fetchDone
      ensures currentFetchIndex == if RowAt(cachedData, 0).Some? then 1 else 0
    {
      currentFetchIndex := 0;
      r := Fetch();
      fetchDone := true;
    }

    /**
     * `fetchAll`: in entity mode one entity per row, re-indexed 0, 1, …
     * as `$results[] = $entity` does; otherwise the rows as they are,
     * under their own keys. Either way the cursor is reset and finished.
     */
    method FetchAll() returns (results: seq<(Key, Fetched)>)
      modifies this`fetchDone, this`currentFetchIndex
      ensures fetchDone && currentFetchIndex == 0
      ensures |results| == |cachedData|
      ensures CurrentMode().Some? ==>
        forall i :: 0 <= i < |results| ==> results[i] == (IntKey(i), Entity(CurrentMode().value, cachedData[i].1))
      ensures CurrentMode().None? ==>
        forall i :: 0 <= i < |results| ==> results[i] == (cachedData[i].0, Row(cachedData[i].1))
    {
      currentFetchIndex := 0;
      if entityClass.Some? && Truthy(Str(entityClass.value)) && fetchDataFormat == FormatEntity {
        var cls := entityClass.value;
        results := [];
        var i := 0;
        while i < |cachedData|
          invariant 0 <= i <= |cachedData|
          invariant |results| == i
          invariant forall j :: 0 <= j < i ==> results[j] == (IntKey(j), Entity(cls, cachedData[j].1))
        {
          results := results + [(IntKey(|results|), Entity(cls, cachedData[i].1))];
          i := i + 1;
        }
        fetchDone := true;
      } else {
        fetchDone := true;
        results := seq(|cachedData|, i requires 0 <= i < |cachedData| => (cachedData[i].0, Row(cachedData[i].1)));
      }
    }

    /**
     * `fetchSingleScalarResult`: the first value of the row under key 0
     * when that row is a non-empty array, null otherwise (a missing row,
     * an empty row, or a scalar row, over which `foreach` does not iterate).
     */
    function FetchSingleScalarResult(): (r: Value)
      ensures RowAt(cachedData, 0).Some? && RowAt(cachedData, 0).value.Arr? && RowAt(cachedData, 0).value.entries != []
              ==> r == RowAt(cachedData, 0).value.entries[0].1
      ensures !(RowAt(cachedData, 0).Some? && RowAt(cachedData, 0).value.Arr? && RowAt(cachedData, 0).value.entries != [])
              ==> r == Sc(Null)
    {
      match RowAt(cachedData, 0)
      case Some(Arr(entries)) => if entries != [] then entries[0].1 else Sc(Null)
      case _ => Sc(Null)
    }
  }

  /** A finished cursor, such as a fresh one, reads the row under key 0 next, wherever its index was. */
  lemma FinishedCursorRestarts(data: seq<(Key, Value)>, mode: Option<string>, index: int)
    ensures FetchStep(data, mode, Cursor(true, index)) == FetchStep(data, mode, Cursor(false, 0))
    ensures RowAt(data, 0).Some? ==>
      FetchStep(data, mode, Cursor(true, index)) == (Cursor(false, 1), Some(Wrap(RowAt(data, 0).value, mode)))
  {
  }

  /**
   * From an unfinished cursor at `j`, `n` fetches over rows present
   * under keys j .. j+n-1 return those rows in order and advance the
   * index by `n`.
   */
  lemma {:induction false} FetchesInOrder(data: seq<(Key, Value)>, mode: Option<string>, j: int, n: nat)
    requires forall i :: j <= i < j + n ==> RowAt(data, i).Some?
    ensures FetchMany(data, mode, Cursor(false, j), n).0 == Cursor(false, j + n)
    ensures |FetchMany(data, mode, Cursor(false, j), n).1| == n
    ensures forall k :: 0 <= k < n ==>
      FetchMany(data, mode, Cursor(false, j), n).1[k] == Some(Wrap(RowAt(data, j + k).value, mode))
    decreases n
  {
    if n > 0 {
      assert RowAt(data, j).Some?;
      FetchesInOrder(data, mode, j + 1, n - 1);
      var rest := FetchMany(data, mode, Cursor(false, j + 1), n - 1).1;
      assert FetchMany(data, mode, Cursor(false, j), n).1 == [Some(Wrap(RowAt(data, j).value, mode))] + rest;
    }
  }

  /** On a fresh or finished cursor, `n` fetches return the rows under keys 0 .. n-1 in order. */
  lemma FetchesFromStart(data: seq<(Key, Value)>, mode: Option<string>, index: int, n: nat)
    requires forall i :: 0 <= i < n ==> RowAt(data, i).Some?
    ensures |FetchMany(data, mode, Cursor(true, index), n).1| == n
    ensures forall k :: 0 <= k < n ==>
      FetchMany(data, mode, Cursor(true, index), n).1[k] == Some(Wrap(RowAt(data, k).value, mode))
  {
    FetchesInOrder(data, mode, 0, n);
    if n > 0 {
      FetchesInOrder(data, mode, 1, n - 1);
      var rest := FetchMany(data, mode, Cursor(false, 1), n - 1).1;
      assert FetchMany(data, mode, Cursor(true, index), n).1 == [Some(Wrap(RowAt(data, 0).value, mode))] + rest;
      assert FetchMany(data, mode, Cursor(false, 0), n).1 == [Some(Wrap(RowAt(data, 0).value, mode))] + rest;
    }
  }

  /**
   * Past the last row, `fetch` returns null and finishes the cursor, and
   * the fetch after that starts again at the row under key 0.
   */
  lemma PastEndRestarts(data: seq<(Key, Value)>, mode: Option<string>, index: int)
    requires RowAt(data, index).None?
    ensures FetchStep(data, mode, Cursor(false, index)) == (Cursor(true, index), None)
    ensures FetchMany(data, mode, Cursor(false, index), 2).1 == [None, FetchStep(data, mode, Cursor(false, 0)).1]
  {
    assert FetchMany(data, mode, Cursor(true, index), 1).1 == [FetchStep(data, mode, Cursor(true, index)).1];
  }

  /** A PHP list: the keys are 0, 1, 2, … in order. */
  predicate IsList<V>(data: seq<(Key, V)>)
  {
    forall i :: 0 <= i < |data| ==> data[i].0 == IntKey(i)
  }

  lemma {:induction false} ShiftedListLookup(data: seq<(Key, Value)>, base: int, i: nat)
    requires forall k :: 0 <= k < |data| ==> data[k].0 == IntKey(base + k)
    requires i < |data|
    ensures Lookup(data, IntKey(base + i)) == Some(data[i].1)
  {
    if i > 0 {
      assert data[1..][i - 1] == data[i];
      ShiftedListLookup(data[1..], base + 1, i - 1);
    }
  }

  /** In a list of `n` rows, row `i` sits under key `i` and there is nothing under key `n`. */
  lemma ListRows(data: seq<(Key, Value)>)
    requires IsList(data)
    ensures forall i :: 0 <= i < |data| ==> RowAt(data, i) == Some(data[i].1)
    ensures RowAt(data, |data|).None?
  {
    forall i | 0 <= i < |data| ensures RowAt(data, i) == Some(data[i].1) {
      ShiftedListLookup(data, 0, i);
    }
    assert forall i :: 0 <= i < |data| ==> data[i].0 != IntKey(|data|);
  }

  /** One more fetch extends the run by one step from where it ended. */
  lemma {:induction false} FetchManySnoc(data: seq<(Key, Value)>, mode: Option<string>, c: Cursor, n: nat)
    ensures FetchMany(data, mode, c, n + 1).0 == FetchStep(data, mode, FetchMany(data, mode, c, n).0).0
    ensures FetchMany(data, mode, c, n + 1).1
         == FetchMany(data, mode, c, n).1 + [FetchStep(data, mode, FetchMany(data, mode, c, n).0).1]
    decreases n
  {
    if n > 0 {
      var c1 := FetchStep(data, mode, c).0;
      FetchManySnoc(data, mode, c1, n - 1);
      var r := FetchStep(data, mode, c).1;
      assert [r] + (FetchMany(data, mode, c1, n - 1).1 + [FetchStep(data, mode, FetchMany(data, mode, c1, n - 1).0).1])
          == ([r] + FetchMany(data, mode, c1, n - 1).1) + [FetchStep(data, mode, FetchMany(data, mode, c1, n - 1).0).1];
    }
  }

  /**
   * Replaying a list of `n` rows from a fresh or finished cursor: `n`
   * fetches give the rows in order, the next one gives null and leaves
   * the cursor finished, ready to start over.
   */
  lemma ListReplay(data: seq<(Key, Value)>, mode: Option<string>, index: int)
    requires IsList(data)
    ensures var run := FetchMany(data, mode, Cursor(true, index), |data| + 1);
            |run.1| == |data| + 1 && run.0.done && run.1[|data|] == None &&
            forall k :: 0 <= k < |data| ==> run.1[k] == Some(Wrap(data[k].1, mode))
  {
    var n := |data|;
    ListRows(data);
    FetchesFromStart(data, mode, index, n);
    FetchManySnoc(data, mode, Cursor(true, index), n);
    if n == 0 {
      assert FetchMany(data, mode, Cursor(true, index), 0).0 == Cursor(true, index);
    } else {
      FetchesInOrder(data, mode, 1, n - 1);
      assert FetchMany(data, mode, Cursor(true, index), n).0 == FetchMany(data, mode, Cursor(false, 1), n - 1).0;
    }
  }
}
