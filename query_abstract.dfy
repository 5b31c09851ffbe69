/*
 * The common part of every query object, src/QueryBuilder/QueryAbstract.php:
 * the collaborators and parameters fixed at construction, the entity
 * class rows are turned into, and the mapping of a PDO statement's
 * `errorInfo()` array onto a RuntimeException.
 */
module QueryAbstract {
  import opened Php

  /**
   * The connection objects of the library: a `\PDO`, or the DBConnection
   * wrapper of src/EntityManager/DBConnection.php, which forwards to a PDO
   * but extends nothing. Like the prepared statement and the
   * database-switching callable, a connection is stored, never inspected.
   */
  datatype Connection = Pdo(id: nat) | DBConnection(id: nat)
  datatype Statement = Statement(id: nat)
  datatype Switcher = Switcher(id: nat)

  /**
   * PHP's check of the constructor's declared parameter type `\PDO $pdo`:
   * a PDO passes through, a DBConnection is a TypeError.
   */
  function PdoParameter(connection: Connection): (r: Outcome<Connection>)
    ensures r.Ok? <==> connection.Pdo?
    ensures r.Ok? ==> r.value == connection
    ensures r.Thrown? ==> r.error == TypeError
  {
    if connection.Pdo? then Ok(connection) else Thrown(TypeError)
  }

  /**
   * PHP's check of a declared parameter type `DBConnection $DBConnection`,
   * as UpdateQuery's constructor has: the mirror image of PdoParameter.
   */
  function DBConnectionParameter(connection: Connection): (r: Outcome<Connection>)
    ensures r.Ok? <==> connection.DBConnection?
    ensures r.Ok? ==> r.value == connection
    ensures r.Thrown? ==> r.error == TypeError
  {
    if connection.DBConnection? then Ok(connection) else Thrown(TypeError)
  }

  class QueryAbstract {
    var pdo: Connection
    var statement: Statement
    /** Untyped in the source; every query builder passes an array. */
    var parameters: Value
    var entityClass: Option<string>
    var databaseSwitcher: Switcher

    /**
     * The constructor's body, run once the argument passed PdoParameter:
     * stores its four arguments; the entity class stays null.
     */
    constructor(pdo: Connection, statement: Statement, parameters: Value, databaseSwitcher: Switcher)
      ensures this.pdo == pdo && this.statement == statement && this.parameters == parameters
      ensures this.databaseSwitcher == databaseSwitcher && entityClass == None
    {
      this.pdo := pdo;
      this.statement := statement;
      this.parameters := parameters;
      this.databaseSwitcher := databaseSwitcher;
      entityClass := None;
    }

    /** `setEntityClass`: changes only the entity class and returns the same object. */
    method SetEntityClass(cls: string) returns (self: QueryAbstract)
      modifies this`entityClass
      ensures entityClass == Some(cls) && self == this
    {
      entityClass := Some(cls);
      self := this;
    }
  }

  /**
   * `throwPdoError` on a statement whose `errorInfo()` is `errorInfo`: the
   * exception it throws, or None when it returns normally (it changes no
   * state either way). The message goes through the string parameter of
   * RuntimeException's constructor, the code through `(int)`.
   */
  function PdoError(errorInfo: seq<(Key, Scalar)>): (r: Option<Exception>)
    ensures r.Some? ==> r.value.RuntimeException?
    ensures r.Some? && HasKey(errorInfo, IntKey(2)) ==> r.value.message == ScalarToString(Lookup(errorInfo, IntKey(2)).value)
    ensures r.Some? && !HasKey(errorInfo, IntKey(2)) ==> r.value.message == "Unknown error"
    ensures r.Some? ==> HasKey(errorInfo, IntKey(1)) && r.value.code == IntCast(Lookup(errorInfo, IntKey(1)).value)
  {
    match Lookup(errorInfo, IntKey(1))
    case Some(driverCode) =>
      if Truthy(driverCode) then
        var message := match Lookup(errorInfo, IntKey(2))
                       case Some(m) => ScalarToString(m)
                       case None => "Unknown error";
        Some(RuntimeException(message, IntCast(driverCode)))
      else None
    case None => None
  }

  /** An error is raised exactly when the driver-specific code (index 1) is present and truthy. */
  predicate RaisesOn(errorInfo: seq<(Key, Scalar)>)
  {
    exists i :: 0 <= i < |errorInfo| && errorInfo[i].0 == IntKey(1) && Truthy(errorInfo[i].1)
      && forall j :: 0 <= j < i ==> errorInfo[j].0 != IntKey(1)
  }

  /** The raising condition, read as a statement about the array's entries. */
  lemma PdoErrorRaisesOn(errorInfo: seq<(Key, Scalar)>)
    ensures PdoError(errorInfo).Some? <==> RaisesOn(errorInfo)
  {
    if HasKey(errorInfo, IntKey(1)) {
      var i := LookupIndex(errorInfo, IntKey(1));
      if RaisesOn(errorInfo) {
        var i' :| 0 <= i' < |errorInfo| && errorInfo[i'].0 == IntKey(1) && Truthy(errorInfo[i'].1)
          && forall j :: 0 <= j < i' ==> errorInfo[j].0 != IntKey(1);
        assert i' == i;
      }
    }
  }

  /** The `errorInfo()` of a statement that succeeded: SQLSTATE '00000' and no driver code. */
  lemma SuccessRaisesNothing(errorInfo: seq<(Key, Scalar)>)
    requires errorInfo == [(IntKey(0), Str("00000")), (IntKey(1), Null), (IntKey(2), Null)]
    ensures PdoError(errorInfo) == None
  {
    assert Lookup(errorInfo, IntKey(1)) == Some(Null);
  }

  /** A driver error: its message and its code are carried over. */
  lemma DriverErrorRaised(errorInfo: seq<(Key, Scalar)>)
    requires errorInfo == [(IntKey(0), Str("42S02")), (IntKey(1), Int(1146)), (IntKey(2), Str("Table 'orm.users' doesn't exist"))]
    ensures PdoError(errorInfo) == Some(RuntimeException("Table 'orm.users' doesn't exist", 1146))
  {
    assert Lookup(errorInfo, IntKey(1)) == Some(Int(1146));
    assert Lookup(errorInfo[2..], IntKey(2)) == Some(Str("Table 'orm.users' doesn't exist"));
    assert Lookup(errorInfo[1..], IntKey(2)) == Some(Str("Table 'orm.users' doesn't exist"));
  }

  /** With only a code and no message entry, the message is 'Unknown error'; a code given as a decimal string is read back as that number. */
  lemma CodeOnlyError(code: int)
    requires 0 < code <= MaxInt
    ensures PdoError([(IntKey(1), Str(IntToString(code)))]) == Some(RuntimeException("Unknown error", code))
  {
    var errorInfo := [(IntKey(1), Str(IntToString(code)))];
    NatToStringShape(code);
    StringToIntOfIntToString(code);
    assert IntToString(code) != "" && IntToString(code) != "0";
    assert Lookup(errorInfo, IntKey(2)) == None;
  }

  /** A zero or empty driver code never raises, whatever the message says. */
  lemma FalsyCodeRaisesNothing(errorInfo: seq<(Key, Scalar)>, code: Scalar)
    requires code == Int(0) || code == Str("0") || code == Str("") || code == Null || code == Bool(false)
    requires |errorInfo| >= 2 && errorInfo[0].0 != IntKey(1) && errorInfo[1] == (IntKey(1), code)
    ensures PdoError(errorInfo) == None
  {
    assert Lookup(errorInfo[1..], IntKey(1)) == Some(code);
  }
}
