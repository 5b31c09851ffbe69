/*
 * The constructor of src/QueryBuilder/UpdateQuery.php. The values of an
 * UPDATE's SET clause are bound under names that cannot clash with the
 * WHERE clause's: each field `k` becomes `UPDATE_VALUE_k`, and the
 * renamed fields are appended to the query's parameters by array union.
 */
module UpdateQuery {
  import opened Php
  import QueryAbstract

  const UpdatePrefix: string := "UPDATE_VALUE_"

  /** The array key `'UPDATE_VALUE_' . $fieldName` becomes. */
  function RenamedKey(k: Key): Key
  {
    KeyOf(UpdatePrefix + KeyString(k))
  }

  /** The renamed fields: the same values in the same order, each under its renamed key. */
  function Renamed(fields: seq<(Key, Value)>): (r: seq<(Key, Value)>)
    ensures |r| == |fields| && forall i :: 0 <= i < |fields| ==> r[i].1 == fields[i].1
  {
    seq(|fields|, i requires 0 <= i < |fields| => (RenamedKey(fields[i].0), fields[i].1))
  }

  /** The renamed key is always a string key, the prefix and the field name as written. */
  lemma RenamedKeyIsString(k: Key)
    ensures RenamedKey(k) == StrKey(UpdatePrefix + KeyString(k))
  {
    KeyOfLetterPrefix(UpdatePrefix + KeyString(k));
  }

  /** Renaming is injective on the keys an array can hold: distinct field names get distinct parameter names. */
  lemma RenamedKeysDiffer(k1: Key, k2: Key)
    requires ValidKey(k1) && ValidKey(k2) && k1 != k2
    ensures RenamedKey(k1) != RenamedKey(k2)
  {
    RenamedKeyIsString(k1);
    RenamedKeyIsString(k2);
    var s1, s2 := KeyString(k1), KeyString(k2);
    assert s1 == (UpdatePrefix + s1)[|UpdatePrefix|..];
    assert s2 == (UpdatePrefix + s2)[|UpdatePrefix|..];
    if s1 == s2 {
      KeyStringInjective(k1, k2);
    }
  }

  /**
   * The renamed fields form a well-formed array with as many entries as
   * the fields, so no assignment of the loop overwrote another.
   */
  lemma RenamedWellFormed(fields: seq<(Key, Value)>)
    requires WellFormed(fields)
    ensures |Renamed(fields)| == |fields|
    ensures WellFormed(Renamed(fields))
  {
    var r := Renamed(fields);
    forall i | 0 <= i < |r| ensures ValidKey(r[i].0) {
      RenamedKeyIsString(fields[i].0);
      KeyOfLetterPrefix(UpdatePrefix + KeyString(fields[i].0));
    }
    forall i, j | 0 <= i < j < |r| ensures r[i].0 != r[j].0 {
      RenamedKeysDiffer(fields[i].0, fields[j].0);
    }
  }

  /** A field's value is found under its renamed key. */
  lemma RenamedLookup(fields: seq<(Key, Value)>, k: Key)
    requires WellFormed(fields) && ValidKey(k)
    ensures Lookup(Renamed(fields), RenamedKey(k)) == Lookup(fields, k)
  {
    RenamedWellFormed(fields);
    var r := Renamed(fields);
    if HasKey(fields, k) {
      var i := LookupIndex(fields, k);
      LookupAt(r, i);
    } else {
      forall i | 0 <= i < |r| ensures r[i].0 != RenamedKey(k) {
        RenamedKeysDiffer(fields[i].0, k);
      }
    }
  }

  /** The foreach of the constructor: each field is assigned under its renamed key. */
  method RenameFields(fields: seq<(Key, Value)>) returns (renamed: seq<(Key, Value)>)
    requires WellFormed(fields)
    ensures renamed == Renamed(fields)
  {
    renamed := [];
    var i := 0;
    while i < |fields|
      invariant 0 <= i <= |fields|
      invariant |renamed| == i
      invariant forall j :: 0 <= j < i ==> renamed[j] == (RenamedKey(fields[j].0), fields[j].1)
    {
      var (fieldName, value) := fields[i];
      var key := KeyOf(UpdatePrefix + KeyString(fieldName));
      forall j | 0 <= j < i ensures renamed[j].0 != key {
        RenamedKeysDiffer(fields[j].0, fieldName);
      }
      SetFresh(renamed, key, value);
      renamed := Set(renamed, key, value);
      i := i + 1;
    }
  }

  /** The parameters an update query stores: `$parameters + $newFieldsToUpdate`. */
  function UpdateParameters(parameters: seq<(Key, Value)>, fields: seq<(Key, Value)>): (r: seq<(Key, Value)>)
    ensures |parameters| <= |r| <= |parameters| + |fields| && r[..|parameters|] == parameters
  {
    Union(parameters, Renamed(fields))
  }

  /**
   * `new UpdateQuery(...)` as written. The connection must pass the declared
   * type `DBConnection $DBConnection`; after the foreach it is handed on to
   * `parent::__construct`, which declares `\PDO $pdo`. DBConnection does not
   * extend `\PDO`, so one of the two checks fails whatever the connection,
   * and no update query is ever built.
   */
  method NewAsWritten(connection: QueryAbstract.Connection, statement: QueryAbstract.Statement,
                      parameters: seq<(Key, Value)>, fieldsToUpdate: seq<(Key, Value)>, databaseSwitcher: QueryAbstract.Switcher)
    returns (r: Outcome<UpdateQuery>)
    requires WellFormed(fieldsToUpdate)
    ensures r == Thrown(TypeError)
  {
    var own := QueryAbstract.DBConnectionParameter(connection);
    if own.Thrown? {
      return Thrown(own.error);
    }
    var newFieldsToUpdate := RenameFields(fieldsToUpdate);
    match QueryAbstract.PdoParameter(connection)
    case Thrown(e) => r := Thrown(e);
  }

  class UpdateQuery {
    /** The QueryAbstract part of the object, set up by `parent::__construct`. */
    const query: QueryAbstract.QueryAbstract

    /**
     * The constructor as evidently intended: `parent::__construct` accepts
     * the DBConnection it is given, and the query stores the parameters
     * united with the renamed fields.
     */
    constructor(connection: QueryAbstract.Connection, statement: QueryAbstract.Statement,
                parameters: seq<(Key, Value)>, fieldsToUpdate: seq<(Key, Value)>, databaseSwitcher: QueryAbstract.Switcher)
      requires WellFormed(fieldsToUpdate)
      ensures fresh(query)
      ensures query.parameters == Arr(UpdateParameters(parameters, fieldsToUpdate))
      ensures query.pdo == connection && query.statement == statement && query.databaseSwitcher == databaseSwitcher
      ensures query.entityClass == None
    {
      var newFieldsToUpdate := RenameFields(fieldsToUpdate);
      query := new QueryAbstract.QueryAbstract(connection, statement, Arr(Union(parameters, newFieldsToUpdate)), databaseSwitcher);
    }
  }

  /**
   * The stored parameters: every original entry, unchanged and first;
   * a renamed field only where no original parameter has its name.
   */
  lemma UpdateParametersLookup(parameters: seq<(Key, Value)>, fields: seq<(Key, Value)>, k: Key)
    requires WellFormed(fields) && ValidKey(k)
    ensures UpdateParameters(parameters, fields)[..|parameters|] == parameters
    ensures HasKey(parameters, RenamedKey(k)) ==>
      Lookup(UpdateParameters(parameters, fields), RenamedKey(k)) == Lookup(parameters, RenamedKey(k))
    ensures !HasKey(parameters, RenamedKey(k)) ==>
      Lookup(UpdateParameters(parameters, fields), RenamedKey(k)) == Lookup(fields, k)
  {
    UnionLookup(parameters, Renamed(fields), RenamedKey(k));
    RenamedLookup(fields, k);
  }

  /** Keys that are not renamed field names read the original parameters. */
  lemma UpdateParametersKeepOriginals(parameters: seq<(Key, Value)>, fields: seq<(Key, Value)>, k: Key)
    requires HasKey(parameters, k)
    ensures Lookup(UpdateParameters(parameters, fields), k) == Lookup(parameters, k)
  {
    UnionLookup(parameters, Renamed(fields), k);
  }

  /** With no fields to update, the parameters pass through unchanged. */
  lemma NoFieldsNoChange(parameters: seq<(Key, Value)>)
    ensures UpdateParameters(parameters, []) == parameters
  {
    assert Renamed([]) == [];
  }

  /**
   * When no parameter is named like a renamed field, nothing is lost:
   * the stored array is the parameters followed by every renamed field.
   */
  lemma {:induction false} NoClashAppendsAll(parameters: seq<(Key, Value)>, fields: seq<(Key, Value)>)
    requires forall i :: 0 <= i < |fields| ==> !HasKey(parameters, RenamedKey(fields[i].0))
    ensures UpdateParameters(parameters, fields) == parameters + Renamed(fields)
  {
    MissingNone(parameters, Renamed(fields));
  }

  lemma {:induction false} MissingNone(a: seq<(Key, Value)>, b: seq<(Key, Value)>)
    requires forall i :: 0 <= i < |b| ==> !HasKey(a, b[i].0)
    ensures Missing(a, b) == b
  {
    if b != [] {
      assert !HasKey(a, b[0].0);
      MissingNone(a, b[1..]);
    }
  }

  /** Well-formed parameters stay well-formed with the renamed fields added. */
  lemma UpdateParametersWellFormed(parameters: seq<(Key, Value)>, fields: seq<(Key, Value)>)
    requires WellFormed(parameters) && WellFormed(fields)
    ensures WellFormed(UpdateParameters(parameters, fields))
  {
    RenamedWellFormed(fields);
    UnionWellFormed(parameters, Renamed(fields));
  }
}
