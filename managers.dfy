/*
 * Manager resolution, src/EntityManager/Managers.php: the manager for a
 * table is the memoised one if there is one, else a user class if it
 * exists, else the generated default class if it exists, else the
 * built-in DefaultManager, each constructed with the same connection,
 * repository and entity manager.
 */
module Managers {
  import opened Php

  /** Collaborators handed on to a manager's constructor, never inspected. */
  datatype DBConnection = DBConnection(id: nat)
  datatype Repository = Repository(id: nat)
  datatype EntityManager = EntityManager(id: nat)

  /** `Anytime\ORM\EntityManager\DefaultManager`, the fallback of the chain. */
  const DefaultManagerClass: string := "Anytime\\ORM\\EntityManager\\DefaultManager"

  /** A manager object: the class it was instantiated from and its constructor arguments. */
  class Manager {
    const className: string
    const connection: DBConnection
    const repository: Repository
    const entityManager: EntityManager

    constructor(className: string, connection: DBConnection, repository: Repository, entityManager: EntityManager)
      ensures this.className == className && this.connection == connection
      ensures this.repository == repository && this.entityManager == entityManager
    {
      this.className := className;
      this.connection := connection;
      this.repository := repository;
      this.entityManager := entityManager;
    }
  }

  /** The form PHP looks a class up by: without a leading '\', in ASCII lower case. */
  function CanonicalClassName(name: string): string
  {
    Lower(if |name| > 0 && name[0] == '\\' then name[1..] else name)
  }

  /** `class_exists($name)` over the set of loadable classes, given by their canonical names. */
  predicate ClassExists(loadable: set<string>, name: string)
  {
    CanonicalClassName(name) in loadable
  }

  /** What `loadAndGetManager` does: hand back a memoised manager, or instantiate a class. */
  datatype Choice = Memoised(manager: Manager) | Instantiate(className: string)

  /** The resolution chain, in the order the source tries it. */
  function Resolve(loadedManagers: seq<(Key, Manager)>, loadable: set<string>, cls: string, defaultClass: string): (r: Choice)
    ensures r.Memoised? <==> HasKey(loadedManagers, KeyOf(cls))
    ensures r.Instantiate? ==> r.className == DefaultManagerClass || ClassExists(loadable, r.className)
  {
    match Lookup(loadedManagers, KeyOf(cls))
    case Some(m) => Memoised(m)
    case None =>
      if ClassExists(loadable, cls) then Instantiate(cls)
      else if ClassExists(loadable, defaultClass) then Instantiate(defaultClass)
      else Instantiate(DefaultManagerClass)
  }

  class Managers {
    /** Managers already built, keyed by requested class name. */
    var loadedManagers: seq<(Key, Manager)>
    const connection: DBConnection

    constructor(connection: DBConnection)
      ensures this.connection == connection && loadedManagers == []
    {
      this.connection := connection;
      loadedManagers := [];
    }

    /**
     * `loadAndGetManager`, as written: it reads the memo but never
     * stores into it, so every call that misses builds a new manager.
     */
    method LoadAndGetManager(loadable: set<string>, cls: string, defaultClass: string,
                             repository: Repository, entityManager: EntityManager) returns (m: Manager)
      ensures Resolve(loadedManagers, loadable, cls, defaultClass).Memoised? ==>
        m == Resolve(loadedManagers, loadable, cls, defaultClass).manager
      ensures Resolve(loadedManagers, loadable, cls, defaultClass).Instantiate? ==>
        fresh(m) && m.className == Resolve(loadedManagers, loadable, cls, defaultClass).className
        && m.connection == connection && m.repository == repository && m.entityManager == entityManager
    {
      var memo := Lookup(loadedManagers, KeyOf(cls));
      if memo.Some? {
        return memo.value;
      }
      if CanonicalClassName(cls) in loadable {
        m := new Manager(cls, connection, repository, entityManager);
      } else if CanonicalClassName(defaultClass) in loadable {
        m := new Manager(defaultClass, connection, repository, entityManager);
      } else {
        m := new Manager(DefaultManagerClass, connection, repository, entityManager);
      }
    }

    /**
     * `loadAndGetManager` as it is evidently meant to work: a manager
     * built on a miss is stored under the requested class name.
     */
    method LoadAndGetManagerMemoised(loadable: set<string>, cls: string, defaultClass: string,
                                     repository: Repository, entityManager: EntityManager) returns (m: Manager)
      modifies this`loadedManagers
      ensures old(Resolve(loadedManagers, loadable, cls, defaultClass)).Memoised? ==>
        m == old(Resolve(loadedManagers, loadable, cls, defaultClass)).manager && loadedManagers == old(loadedManagers)
      ensures old(Resolve(loadedManagers, loadable, cls, defaultClass)).Instantiate? ==>
        fresh(m) && m.className == old(Resolve(loadedManagers, loadable, cls, defaultClass)).className
        && m.connection == connection && m.repository == repository && m.entityManager == entityManager
        && loadedManagers == old(loadedManagers) + [(KeyOf(cls), m)]
      ensures Lookup(loadedManagers, KeyOf(cls)) == Some(m)
    {
      ghost var before := loadedManagers;
      ghost var choice := Resolve(loadedManagers, loadable, cls, defaultClass);
      var memo := Lookup(loadedManagers, KeyOf(cls));
      if memo.Some? {
        assert choice == Memoised(memo.value);
        return memo.value;
      }
      assert choice.Instantiate?;
      m := LoadAndGetManager(loadable, cls, defaultClass, repository, entityManager);
      SetFresh(loadedManagers, KeyOf(cls), m);
      loadedManagers := Set(loadedManagers, KeyOf(cls), m);
      LookupAppendNew(before, KeyOf(cls), m);
      assert loadedManagers == before + [(KeyOf(cls), m)];
    }
  }

  lemma LookupAppendNew<V>(a: seq<(Key, V)>, k: Key, v: V)
    requires !HasKey(a, k)
    ensures Lookup(a + [(k, v)], k) == Some(v)
  {
    LookupAppend(a, [(k, v)], k);
  }

  /** A memoised manager is returned as it is, whatever classes exist. */
  lemma MemoWins(loadedManagers: seq<(Key, Manager)>, loadable: set<string>, cls: string, defaultClass: string, m: Manager)
    requires WellFormed(loadedManagers) && (KeyOf(cls), m) in loadedManagers
    ensures Resolve(loadedManagers, loadable, cls, defaultClass) == Memoised(m)
  {
    var i :| 0 <= i < |loadedManagers| && loadedManagers[i] == (KeyOf(cls), m);
    LookupAt(loadedManagers, i);
  }

  /**
   * Without a memoised manager: the user class when it exists, the
   * default class when only it exists, DefaultManager otherwise; so
   * the chain never fails and instantiates only a class that exists or
   * the built-in one.
   */
  lemma ChainOrder(loadedManagers: seq<(Key, Manager)>, loadable: set<string>, cls: string, defaultClass: string)
    requires !HasKey(loadedManagers, KeyOf(cls))
    ensures var c := Resolve(loadedManagers, loadable, cls, defaultClass);
            c.Instantiate? && (ClassExists(loadable, c.className) || c.className == DefaultManagerClass)
    ensures ClassExists(loadable, cls) ==> Resolve(loadedManagers, loadable, cls, defaultClass) == Instantiate(cls)
    ensures !ClassExists(loadable, cls) && ClassExists(loadable, defaultClass)
            ==> Resolve(loadedManagers, loadable, cls, defaultClass) == Instantiate(defaultClass)
    ensures !ClassExists(loadable, cls) && !ClassExists(loadable, defaultClass)
            ==> Resolve(loadedManagers, loadable, cls, defaultClass) == Instantiate(DefaultManagerClass)
  {
    assert Lookup(loadedManagers, KeyOf(cls)) == None;
  }

  /** Class lookup ignores ASCII case and a leading backslash, as PHP's does. */
  lemma ClassNamesCompareLoosely(loadable: set<string>, name: string)
    requires |name| > 0 && name[0] != '\\'
    ensures ClassExists(loadable, name) <==> ClassExists(loadable, "\\" + name)
    ensures ClassExists(loadable, name) <==> ClassExists(loadable, Lower(name))
  {
    assert ("\\" + name)[1..] == name;
    LowerIdempotent(name);
  }

  lemma LowerIdempotent(s: string)
    ensures Lower(Lower(s)) == Lower(s)
  {
    assert forall i :: 0 <= i < |s| ==> Lower(Lower(s))[i] == Lower(s)[i];
  }

  /**
   * As written, a fresh facade resolves twice to two different objects:
   * the memo stays empty however often the accessor is called.
   */
  method TwoCallsAsWritten(connection: DBConnection, loadable: set<string>, cls: string, defaultClass: string,
                           repository: Repository, entityManager: EntityManager) returns (first: Manager, second: Manager)
    ensures first != second
  {
    var managers := new Managers(connection);
    first := managers.LoadAndGetManager(loadable, cls, defaultClass, repository, entityManager);
    second := managers.LoadAndGetManager(loadable, cls, defaultClass, repository, entityManager);
  }

  /** Memoised, the second call returns the very object the first one built. */
  method TwoCallsMemoised(connection: DBConnection, loadable: set<string>, cls: string, defaultClass: string,
                          repository: Repository, entityManager: EntityManager) returns (first: Manager, second: Manager)
    ensures first == second
  {
    var managers := new Managers(connection);
    first := managers.LoadAndGetManagerMemoised(loadable, cls, defaultClass, repository, entityManager);
    second := managers.LoadAndGetManagerMemoised(loadable, cls, defaultClass, repository, entityManager);
  }
}
