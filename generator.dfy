/*
 * The entity-manager generator,
 * src/Generator/EntityManagerGenerator/EntityManagerGenerator.php: the
 * validated configuration its setters store, and the classes it emits for
 * a list of table structures (the DynamicRepositories and DynamicManagers
 * facades, and a default repository and a default manager per table),
 * as the values of module Emitters rather than as PHP text.
 */
module Generator {
  import opened Php
  import opened Emitters

  // ---------------------------------------------------------------------
  // Namespace validation

  /** `trim($s, '\\')`: every leading and every trailing backslash removed. */
  function TrimLeft(s: string): string
  {
    if s != [] && s[0] == '\\' then TrimLeft(s[1..]) else s
  }

  function TrimRight(s: string): string
  {
    if s != [] && s[|s| - 1] == '\\' then TrimRight(s[..|s| - 1]) else s
  }

  function Trim(s: string): (r: string)
    ensures Unframed(r)
  {
    TrimLeftShape(s);
    TrimRightShape(TrimLeft(s));
    TrimRight(TrimLeft(s))
  }

  /** `n` backslashes. */
  function Backslashes(n: nat): (r: string)
    ensures |r| == n && forall i :: 0 <= i < n ==> r[i] == '\\'
  {
    seq(n, _ => '\\')
  }

  /** Neither end of `s` is a backslash (the empty string as well). */
  predicate Unframed(s: string)
  {
    s == [] || (s[0] != '\\' && s[|s| - 1] != '\\')
  }

  lemma {:induction false} TrimLeftShape(s: string)
    ensures TrimLeft(s) == [] || TrimLeft(s)[0] != '\\'
    ensures exists k :: 0 <= k <= |s| && TrimLeft(s) == s[k..]
    decreases |s|
  {
    if s != [] && s[0] == '\\' {
      TrimLeftShape(s[1..]);
      var k :| 0 <= k <= |s[1..]| && TrimLeft(s[1..]) == s[1..][k..];
      assert s[1..][k..] == s[k + 1..];
    } else {
      assert s == s[0..];
    }
  }

  lemma {:induction false} TrimRightShape(s: string)
    requires s == [] || s[0] != '\\'
    ensures Unframed(TrimRight(s))
    ensures exists k :: 0 <= k <= |s| && TrimRight(s) == s[..k]
    decreases |s|
  {
    if s != [] && s[|s| - 1] == '\\' {
      var t := s[..|s| - 1];
      assert t == [] || t[0] == s[0];
      TrimRightShape(t);
      var k :| 0 <= k <= |t| && TrimRight(t) == t[..k];
      assert t[..k] == s[..k];
    } else {
      assert s == s[..|s|];
    }
  }

  lemma {:induction false} TrimLeftBackslashes(a: nat, x: string)
    requires x == [] || x[0] != '\\'
    ensures TrimLeft(Backslashes(a) + x) == x
    decreases a
  {
    if a > 0 {
      assert (Backslashes(a) + x)[1..] == Backslashes(a - 1) + x;
      TrimLeftBackslashes(a - 1, x);
    } else {
      assert Backslashes(a) + x == x;
    }
  }

  lemma {:induction false} TrimRightBackslashes(x: string, b: nat)
    requires x == [] || x[|x| - 1] != '\\'
    ensures TrimRight(x + Backslashes(b)) == x
    decreases b
  {
    if b > 0 {
      assert (x + Backslashes(b))[..|x| + b - 1] == x + Backslashes(b - 1);
      TrimRightBackslashes(x, b - 1);
    } else {
      assert x + Backslashes(b) == x;
    }
  }

  /** `trim` removes exactly the surrounding backslashes: the inner text comes back whole. */
  lemma TrimSurrounded(a: nat, x: string, b: nat)
    requires Unframed(x)
    ensures Trim(Backslashes(a) + x + Backslashes(b)) == x
  {
    if x == [] {
      assert Backslashes(a) + x + Backslashes(b) == Backslashes(a + b) + [];
      TrimLeftBackslashes(a + b, []);
      assert TrimRight([]) == [];
    } else {
      assert Backslashes(a) + x + Backslashes(b) == Backslashes(a) + (x + Backslashes(b));
      TrimLeftBackslashes(a, x + Backslashes(b));
      TrimRightBackslashes(x, b);
    }
  }

  /** The class `[a-z0-9_\\]` under the `i` flag. */
  predicate NamespaceChar(c: char)
  {
    ('a' <= c <= 'z') || ('A' <= c <= 'Z') || ('0' <= c <= '9') || c == '_' || c == '\\'
  }

  /** The whole of `t` is one or more namespace characters. */
  predicate ValidNamespace(t: string)
  {
    |t| > 0 && forall i :: 0 <= i < |t| ==> NamespaceChar(t[i])
  }

  /** `$` without the `D` modifier: the end of the subject, or just before a final newline. */
  predicate DollarAt(t: string, n: nat)
  {
    n == |t| || (n + 1 == |t| && t[n] == '\n')
  }

  /**
   * `preg_match('/^([a-z0-9_\\\]+)$/i', $t)` as PCRE runs it: a run of at
   * least one namespace character from the start, followed by `$`.
   */
  predicate NamespacePatternAsWritten(t: string): (accepted: bool)
    ensures accepted ==> |t| >= 1 && NamespaceChar(t[0])
  {
    exists n :: 1 <= n <= |t| && DollarAt(t, n) && forall i :: 0 <= i < n ==> NamespaceChar(t[i])
  }

  /**
   * The pattern as written accepts the valid namespaces and, besides,
   * each of them followed by one newline; the newline survives `trim`,
   * since only backslashes are trimmed, and would be stored.
   */
  lemma PatternAcceptsTrailingNewline(t: string)
    ensures NamespacePatternAsWritten(t)
      <==> ValidNamespace(t) || (|t| >= 2 && t[|t| - 1] == '\n' && ValidNamespace(t[..|t| - 1]))
    ensures NamespacePatternAsWritten("App\n") && !ValidNamespace("App\n")
    ensures Trim("App\n") == "App\n"
  {
    if ValidNamespace(t) {
      assert DollarAt(t, |t|);
    } else if |t| >= 2 && t[|t| - 1] == '\n' && ValidNamespace(t[..|t| - 1]) {
      assert DollarAt(t, |t| - 1);
    }
    var app := "App\n";
    assert DollarAt(app, 3) && forall i :: 0 <= i < 3 ==> NamespaceChar(app[i]);
    assert !NamespaceChar(app[3]);
  }

  /** The stored namespace of a valid, trimmed name: no backslash at either end, namespace characters only. */
  lemma AcceptedNamespaceShape(ns: string)
    requires ValidNamespace(Trim(ns))
    ensures Unframed(Trim(ns)) && Trim(ns) != []
    ensures '\n' !in Trim(ns)
  {
  }

  const EntityManagerNamespaceError: string :=
    "Invalid entity manager namespace please use a correct namespace format. Example: My\\Namespace."
  const UserEntityRepositoryNamespaceError: string :=
    "Invalid user entity repository namespace please use a correct namespace format. Example: My\\Namespace."
  const UserManagerNamespaceError: string :=
    "Invalid user manager namespace please use a correct namespace format. Example: My\\Namespace."
  const EntityManagerDirectoryError: string := "The entity manager directory should exists and be writable."
  const UserEntityRepositoryDirectoryError: string := "The user entity repository directory should exists."
  const UserManagerDirectoryError: string := "The user manager directory should exists."

  /** What `is_dir` and `is_writable` answer: the existing directories and the writable paths. */
  datatype FileSystem = FileSystem(directories: set<string>, writable: set<string>)

  // ---------------------------------------------------------------------
  // The emitted classes, as values

  /** A default repository class: its namespace, its name and its finders. */
  datatype RepositoryClass = RepositoryClass(namespace: string, className: string, finders: seq<Finder>)

  /**
   * A default manager class: its namespace, its name, the entity and
   * default repository it imports, the user repository its `getRepository`
   * is documented to return, and its methods.
   */
  datatype ManagerClass = ManagerClass(namespace: string, className: string, entityClass: string,
                                       defaultRepositoryClass: string, userRepositoryClass: string,
                                       methods: seq<ManagerMethod>)

  /** A getter of DynamicRepositories and the arguments of its `loadAndGetRepository` call. */
  datatype RepositoryGetter = RepositoryGetter(name: string, userClass: string, defaultClass: string,
                                               tableName: string, entityClass: string)

  /** A getter of DynamicManagers, the classes of its `loadAndGetManager` call and the repository getter it calls. */
  datatype ManagerGetter = ManagerGetter(name: string, userClass: string, defaultClass: string, repositoryGetter: string)

  /** A generated facade: its namespace declaration, if any, its imported user classes and its getters. */
  datatype Facade<G> = Facade(namespace: Option<string>, uses: seq<string>, getters: seq<G>)

  /** The facades declare a namespace exactly when the entity manager namespace is truthy. */
  function NamespaceLine(entityManagerNamespace: string): Option<string>
  {
    if Truthy(Str(entityManagerNamespace)) then Some(entityManagerNamespace) else None
  }

  function RepositoryGetterOf(convert: string -> string, entityManagerNamespace: string, userEntityRepositoryNamespace: string,
                              entityNamespace: string, tableName: string): RepositoryGetter
  {
    var entityName := convert(tableName);
    var repositoryClassName := entityName + "EntityRepository";
    RepositoryGetter("get" + repositoryClassName, userEntityRepositoryNamespace + "\\" + repositoryClassName,
                     entityManagerNamespace + "\\DefaultRepository\\" + repositoryClassName, tableName,
                     entityNamespace + "\\" + entityName)
  }

  function ManagerGetterOf(convert: string -> string, entityManagerNamespace: string, userManagerNamespace: string,
                           tableName: string): ManagerGetter
  {
    var entityName := convert(tableName);
    var managerClassName := entityName + "Manager";
    ManagerGetter("get" + managerClassName, userManagerNamespace + "\\" + managerClassName,
                  entityManagerNamespace + "\\DefaultManager\\" + managerClassName, "get" + entityName + "EntityRepository")
  }

  function RepositoryGetters(convert: string -> string, entityManagerNamespace: string, userEntityRepositoryNamespace: string,
                             entityNamespace: string, tables: seq<(string, TableStruct)>): (r: seq<RepositoryGetter>)
    ensures |r| == |tables|
  {
    if tables == [] then []
    else RepositoryGetters(convert, entityManagerNamespace, userEntityRepositoryNamespace, entityNamespace, tables[..|tables| - 1])
         + [RepositoryGetterOf(convert, entityManagerNamespace, userEntityRepositoryNamespace, entityNamespace, tables[|tables| - 1].0)]
  }

  function ManagerGetters(convert: string -> string, entityManagerNamespace: string, userManagerNamespace: string,
                          tables: seq<(string, TableStruct)>): (r: seq<ManagerGetter>)
    ensures |r| == |tables|
  {
    if tables == [] then []
    else ManagerGetters(convert, entityManagerNamespace, userManagerNamespace, tables[..|tables| - 1])
         + [ManagerGetterOf(convert, entityManagerNamespace, userManagerNamespace, tables[|tables| - 1].0)]
  }

  /** The `use` lines for the user classes: `<namespace>\<Entity><suffix>` per table. */
  function UserClasses(convert: string -> string, namespace: string, suffix: string, tables: seq<(string, TableStruct)>): (r: seq<string>)
    ensures |r| == |tables|
  {
    if tables == [] then []
    else UserClasses(convert, namespace, suffix, tables[..|tables| - 1]) + [namespace + "\\" + (convert(tables[|tables| - 1].0) + suffix)]
  }

  function RepositoryClassOf(convert: string -> string, entityManagerNamespace: string, tableStruct: TableStruct,
                             className: string): RepositoryClass
  {
    RepositoryClass(entityManagerNamespace + "\\DefaultRepository", className,
                    RepositoryFinders(convert, tableStruct.structure, tableStruct.indexes, []))
  }

  function ManagerClassOf(convert: string -> string, entityManagerNamespace: string, userEntityRepositoryNamespace: string,
                          entityNamespace: string, tableStruct: TableStruct, className: string, tableName: string): ManagerClass
  {
    var entityName := convert(tableName);
    var repositoryClassName := entityName + "EntityRepository";
    ManagerClass(entityManagerNamespace + "\\DefaultManager", className, entityNamespace + "\\" + entityName,
                 entityManagerNamespace + "\\DefaultRepository\\" + repositoryClassName,
                 userEntityRepositoryNamespace + "\\" + repositoryClassName,
                 ManagerMethods(convert, tableStruct.structure, tableStruct.indexes, []))
  }

  lemma {:induction false} GettersAt(convert: string -> string, emNs: string, userRepoNs: string, userManagerNs: string,
                                     entityNs: string, tables: seq<(string, TableStruct)>, i: nat)
    requires i < |tables|
    ensures RepositoryGetters(convert, emNs, userRepoNs, entityNs, tables)[i] == RepositoryGetterOf(convert, emNs, userRepoNs, entityNs, tables[i].0)
    ensures ManagerGetters(convert, emNs, userManagerNs, tables)[i] == ManagerGetterOf(convert, emNs, userManagerNs, tables[i].0)
    ensures UserClasses(convert, userRepoNs, "EntityRepository", tables)[i] == userRepoNs + "\\" + (convert(tables[i].0) + "EntityRepository")
    ensures UserClasses(convert, userManagerNs, "Manager", tables)[i] == userManagerNs + "\\" + (convert(tables[i].0) + "Manager")
  {
    if i < |tables| - 1 {
      assert tables[..|tables| - 1][i] == tables[i];
      GettersAt(convert, emNs, userRepoNs, userManagerNs, entityNs, tables[..|tables| - 1], i);
    }
  }

  /**
   * How the generated files fit together, table by table: the manager
   * getter `i` passes the repository that getter `i` of DynamicRepositories
   * returns, it falls back on the very class `generate` writes as the
   * table's default manager, the repository getter falls back on the
   * class written as the table's default repository, and that default
   * manager imports that default repository.
   */
  lemma FacadesWireUp(convert: string -> string, emNs: string, userRepoNs: string, userManagerNs: string, entityNs: string,
                      tables: seq<(string, TableStruct)>, i: nat)
    requires i < |tables|
    ensures var rg := RepositoryGetters(convert, emNs, userRepoNs, entityNs, tables)[i];
            var mg := ManagerGetters(convert, emNs, userManagerNs, tables)[i];
            var (tableName, tableStruct) := tables[i];
            var mc := ManagerClassOf(convert, emNs, userRepoNs, entityNs, tableStruct, convert(tableName) + "Manager", tableName);
            var rc := RepositoryClassOf(convert, emNs, tableStruct, convert(tableName) + "EntityRepository");
            mg.repositoryGetter == rg.name
            && mg.defaultClass == mc.namespace + "\\" + mc.className
            && rg.defaultClass == rc.namespace + "\\" + rc.className
            && mc.defaultRepositoryClass == rg.defaultClass
            && mc.userRepositoryClass == rg.userClass
            && rg.tableName == tableName
  {
    GettersAt(convert, emNs, userRepoNs, userManagerNs, entityNs, tables, i);
  }

  /** The default manager of a table has one method per finder of its default repository, same names, same parameters. */
  lemma DefaultClassesAgree(convert: string -> string, emNs: string, userRepoNs: string, entityNs: string,
                            tableStruct: TableStruct, tableName: string)
    ensures Agree(ManagerClassOf(convert, emNs, userRepoNs, entityNs, tableStruct, convert(tableName) + "Manager", tableName).methods,
                  RepositoryClassOf(convert, emNs, tableStruct, convert(tableName) + "EntityRepository").finders)
  {
    ManagerAndRepositoryAgree(convert, tableStruct.structure, tableStruct.indexes, []);
  }

  // ---------------------------------------------------------------------
  // The generator

  class EntityManagerGenerator {
    /** The injected SnakeToCamelCaseStringConverter's `convert`. */
    const convert: string -> string
    var entityManagerDirectory: string
    var entityManagerNamespace: string
    var userEntityRepositoryDirectory: string
    var userEntityRepositoryNamespace: string
    var userManagerDirectory: string
    var userManagerNamespace: string
    var entityNamespace: string

    /** The configuration the constructor leaves behind: three valid namespaces, none framed by backslashes. */
    predicate Configured()
      reads this
    {
      ValidNamespace(entityManagerNamespace) && Unframed(entityManagerNamespace)
      && ValidNamespace(userEntityRepositoryNamespace) && Unframed(userEntityRepositoryNamespace)
      && ValidNamespace(userManagerNamespace) && Unframed(userManagerNamespace)
    }

    /** The object before its setters ran: the PHP properties are still null. */
    constructor Init(convert: string -> string)
      ensures this.convert == convert
      ensures entityManagerDirectory == "" && entityManagerNamespace == ""
      ensures userEntityRepositoryDirectory == "" && userEntityRepositoryNamespace == ""
      ensures userManagerDirectory == "" && userManagerNamespace == "" && entityNamespace == ""
    {
      this.convert := convert;
      entityManagerDirectory := "";
      entityManagerNamespace := "";
      userEntityRepositoryDirectory := "";
      userEntityRepositoryNamespace := "";
      userManagerDirectory := "";
      userManagerNamespace := "";
      entityNamespace := "";
    }

    /**
     * `__construct`: the setters in the source's order; the first one
     * that throws makes the construction throw its exception.
     */
    static method Create(convert: string -> string, fs: FileSystem,
                         entityManagerDirectory: string, entityManagerNamespace: string,
                         userEntityRepositoryDirectory: string, userEntityRepositoryNamespace: string,
                         userManagerDirectory: string, userManagerNamespace: string, entityNamespace: string)
      returns (r: Outcome<EntityManagerGenerator>)
      ensures r.Ok? <==>
        (entityManagerDirectory in fs.directories && entityManagerDirectory in fs.writable
         && ValidNamespace(Trim(entityManagerNamespace))
         && userEntityRepositoryDirectory in fs.directories && ValidNamespace(Trim(userEntityRepositoryNamespace))
         && userManagerDirectory in fs.directories && ValidNamespace(Trim(userManagerNamespace)))
      ensures r.Ok? ==>
        (fresh(r.value) && r.value.Configured() && r.value.convert == convert
         && r.value.entityManagerDirectory == entityManagerDirectory
         && r.value.entityManagerNamespace == Trim(entityManagerNamespace)
         && r.value.userEntityRepositoryDirectory == userEntityRepositoryDirectory
         && r.value.userEntityRepositoryNamespace == Trim(userEntityRepositoryNamespace)
         && r.value.userManagerDirectory == userManagerDirectory
         && r.value.userManagerNamespace == Trim(userManagerNamespace)
         && r.value.entityNamespace == entityNamespace)
      ensures r.Thrown? ==> r.error.RuntimeException? && r.error.code == 0
    {
      var g := new EntityManagerGenerator.Init(convert);
      var step := g.SetEntityManagerDirectory(fs, entityManagerDirectory);
      if step.Thrown? { return Thrown(step.error); }
      step := g.SetEntityManagerNamespace(entityManagerNamespace);
      if step.Thrown? { return Thrown(step.error); }
      step := g.SetUserEntityRepositoryDirectory(fs, userEntityRepositoryDirectory);
      if step.Thrown? { return Thrown(step.error); }
      step := g.SetUserEntityRepositoryNamespace(userEntityRepositoryNamespace);
      if step.Thrown? { return Thrown(step.error); }
      step := g.SetUserManagerDirectory(fs, userManagerDirectory);
      if step.Thrown? { return Thrown(step.error); }
      step := g.SetUserManagerNamespace(userManagerNamespace);
      if step.Thrown? { return Thrown(step.error); }
      step := g.SetEntityNamespace(entityNamespace);
      assert g.entityManagerNamespace == Trim(entityManagerNamespace);
      assert g.userEntityRepositoryNamespace == Trim(userEntityRepositoryNamespace);
      assert g.userManagerNamespace == Trim(userManagerNamespace);
      assert g.Configured();
      return Ok(g);
    }

    /** Accepts an existing, writable directory; anything else throws. */
    method SetEntityManagerDirectory(fs: FileSystem, dir: string) returns (r: Outcome<EntityManagerGenerator>)
      modifies this`entityManagerDirectory
      ensures dir in fs.directories && dir in fs.writable ==> r == Ok(this) && entityManagerDirectory == dir
      ensures !(dir in fs.directories && dir in fs.writable) ==>
        r == Thrown(RuntimeException(EntityManagerDirectoryError, 0)) && entityManagerDirectory == old(entityManagerDirectory)
    {
      if dir in fs.directories && dir in fs.writable {
        entityManagerDirectory := dir;
        return Ok(this);
      }
      return Thrown(RuntimeException(EntityManagerDirectoryError, 0));
    }

    /** Stores the trimmed namespace when it is valid; otherwise throws and keeps the old one. */
    method SetEntityManagerNamespace(ns: string) returns (r: Outcome<EntityManagerGenerator>)
      modifies this`entityManagerNamespace
      ensures ValidNamespace(Trim(ns)) ==> r == Ok(this) && entityManagerNamespace == Trim(ns)
      ensures !ValidNamespace(Trim(ns)) ==>
        r == Thrown(RuntimeException(EntityManagerNamespaceError, 0)) && entityManagerNamespace == old(entityManagerNamespace)
    {
      var trimmed := Trim(ns);
      if ValidNamespace(trimmed) {
        entityManagerNamespace := trimmed;
        return Ok(this);
      }
      return Thrown(RuntimeException(EntityManagerNamespaceError, 0));
    }

    method SetUserEntityRepositoryDirectory(fs: FileSystem, dir: string) returns (r: Outcome<EntityManagerGenerator>)
      modifies this`userEntityRepositoryDirectory
      ensures dir in fs.directories ==> r == Ok(this) && userEntityRepositoryDirectory == dir
      ensures dir !in fs.directories ==>
        r == Thrown(RuntimeException(UserEntityRepositoryDirectoryError, 0))
        && userEntityRepositoryDirectory == old(userEntityRepositoryDirectory)
    {
      if dir in fs.directories {
        userEntityRepositoryDirectory := dir;
        return Ok(this);
      }
      return Thrown(RuntimeException(UserEntityRepositoryDirectoryError, 0));
    }

    method SetUserEntityRepositoryNamespace(ns: string) returns (r: Outcome<EntityManagerGenerator>)
      modifies this`userEntityRepositoryNamespace
      ensures ValidNamespace(Trim(ns)) ==> r == Ok(this) && userEntityRepositoryNamespace == Trim(ns)
      ensures !ValidNamespace(Trim(ns)) ==>
        r == Thrown(RuntimeException(UserEntityRepositoryNamespaceError, 0))
        && userEntityRepositoryNamespace == old(userEntityRepositoryNamespace)
    {
      var trimmed := Trim(ns);
      if ValidNamespace(trimmed) {
        userEntityRepositoryNamespace := trimmed;
        return Ok(this);
      }
      return Thrown(RuntimeException(UserEntityRepositoryNamespaceError, 0));
    }

    method SetUserManagerDirectory(fs: FileSystem, dir: string) returns (r: Outcome<EntityManagerGenerator>)
      modifies this`userManagerDirectory
      ensures dir in fs.directories ==> r == Ok(this) && userManagerDirectory == dir
      ensures dir !in fs.directories ==>
        r == Thrown(RuntimeException(UserManagerDirectoryError, 0)) && userManagerDirectory == old(userManagerDirectory)
    {
      if dir in fs.directories {
        userManagerDirectory := dir;
        return Ok(this);
      }
      return Thrown(RuntimeException(UserManagerDirectoryError, 0));
    }

    method SetUserManagerNamespace(ns: string) returns (r: Outcome<EntityManagerGenerator>)
      modifies this`userManagerNamespace
      ensures ValidNamespace(Trim(ns)) ==> r == Ok(this) && userManagerNamespace == Trim(ns)
      ensures !ValidNamespace(Trim(ns)) ==>
        r == Thrown(RuntimeException(UserManagerNamespaceError, 0)) && userManagerNamespace == old(userManagerNamespace)
    {
      var trimmed := Trim(ns);
      if ValidNamespace(trimmed) {
        userManagerNamespace := trimmed;
        return Ok(this);
      }
      return Thrown(RuntimeException(UserManagerNamespaceError, 0));
    }

    /** The entity namespace is stored as given, unchecked. */
    method SetEntityNamespace(ns: string) returns (r: Outcome<EntityManagerGenerator>)
      modifies this`entityNamespace
      ensures r == Ok(this) && entityNamespace == ns
    {
      entityNamespace := ns;
      return Ok(this);
    }

    /** `getTableShortAlias`: one character per segment of the name, as `Alias` states. */
    method TableShortAlias(tableName: string) returns (alias: string)
      ensures alias == Alias(tableName)
    {
      alias := "";
      var parse := Split(tableName);
      var i := 0;
      while i < |parse|
        invariant 0 <= i <= |parse|
        invariant alias == Initials(parse[..i])
      {
        assert parse[..i + 1][..i] == parse[..i];
        alias := alias + Initial(parse[i]);
        i := i + 1;
      }
      assert parse[..i] == parse;
    }

    /** The pieces one part of an index contributes to a repository finder. */
    method RenderPart(structure: map<string, Column>, tableShortAlias: string, indexPart: IndexPart, first: bool)
      returns (columnNameCCase: string, decl: string, clause: string, binding: string, entry: string)
      ensures columnNameCCase == convert(indexPart.columnName)
      ensures decl == ParamDecl(convert, structure, indexPart)
      ensures clause == WhereClause(convert, tableShortAlias, indexPart)
      ensures binding == Binding(convert, structure, indexPart)
      ensures entry == NamedEntry(convert, structure, indexPart, first)
    {
      var column := ColumnOf(structure, indexPart.columnName);
      columnNameCCase := convert(indexPart.columnName);
      var paramVarName := Lcfirst(columnNameCCase);
      var comma := if first then "" else ", ";
      var format := if column.columnType == "date" && Truthy(Str(column.dateFormat))
                    then "->format(\"" + column.dateFormat + "\")" else "";
      decl := (if column.columnType == "date" then (if indexPart.allowNull then "" else "\\DateTime") else column.columnType)
              + " $" + paramVarName + (if indexPart.allowNull then " = NULL" else "");
      clause := tableShortAlias + "." + indexPart.columnName + " = ' . "
                + "($useNamedParameters ? ':" + paramVarName + "' : '?').'";
      binding := "$" + paramVarName + format;
      entry := "\n                " + comma + "'" + paramVarName + "' => " + binding;
    }

    /** One pass of that loop: part `iP` appended to each of the five accumulated strings. */
    method RenderFinderPart(structure: map<string, Column>, tableShortAlias: string, indexParts: seq<IndexPart>, iP: nat,
                            methodName: string, phpParamList: string, where: string,
                            qbParameters: string, qbNamedParameters: string)
      returns (methodName': string, phpParamList': string, where': string,
               qbParameters': string, qbNamedParameters': string)
      requires iP < |indexParts|
      requires methodName == MethodNameUpTo(convert, indexParts, iP)
      requires phpParamList == Join(", ", ParamDecls(convert, structure, indexParts, iP))
      requires where == Join(" AND ", WhereClauses(convert, tableShortAlias, indexParts, iP))
      requires qbParameters == Join(", ", Bindings(convert, structure, indexParts, iP))
      requires qbNamedParameters == NamedEntries(convert, structure, indexParts, iP)
      ensures methodName' == MethodNameUpTo(convert, indexParts, iP + 1)
      ensures phpParamList' == Join(", ", ParamDecls(convert, structure, indexParts, iP + 1))
      ensures where' == Join(" AND ", WhereClauses(convert, tableShortAlias, indexParts, iP + 1))
      ensures qbParameters' == Join(", ", Bindings(convert, structure, indexParts, iP + 1))
      ensures qbNamedParameters' == NamedEntries(convert, structure, indexParts, iP + 1)
    {
      var indexPart := indexParts[iP];
      var and, comma := if iP > 0 then "And" else "", if iP > 0 then ", " else "";
      var columnNameCCase, decl, clause, binding, entry := RenderPart(structure, tableShortAlias, indexPart, iP == 0);
      MethodNameStep(convert, indexParts, iP);
      FinderStep(convert, structure, tableShortAlias, indexParts, iP);
      methodName' := methodName + and + columnNameCCase;
      phpParamList' := phpParamList + comma + decl;
      where' := where + (if iP > 0 then " AND " else "") + clause;
      qbParameters' := qbParameters + comma + binding;
      qbNamedParameters' := qbNamedParameters + entry;
    }

    /** The inner loop of `generateDynamicRepository`: the five strings built over the parts of one index. */
    method RenderFinderParts(structure: map<string, Column>, tableShortAlias: string, indexParts: seq<IndexPart>)
      returns (methodName: string, phpParamList: string, where: string, qbParameters: string, qbNamedParameters: string)
      ensures methodName == MethodName(convert, indexParts)
      ensures phpParamList == Join(", ", ParamDecls(convert, structure, indexParts, |indexParts|))
      ensures where == Join(" AND ", WhereClauses(convert, tableShortAlias, indexParts, |indexParts|))
      ensures qbParameters == Join(", ", Bindings(convert, structure, indexParts, |indexParts|))
      ensures qbNamedParameters == NamedEntries(convert, structure, indexParts, |indexParts|)
    {
      methodName := "findBy";
      phpParamList := "";
      where := "";
      qbParameters := "";
      qbNamedParameters := "";
      var iP := 0;
      while iP < |indexParts|
        invariant 0 <= iP <= |indexParts|
        invariant methodName == MethodNameUpTo(convert, indexParts, iP)
        invariant phpParamList == Join(", ", ParamDecls(convert, structure, indexParts, iP))
        invariant where == Join(" AND ", WhereClauses(convert, tableShortAlias, indexParts, iP))
        invariant qbParameters == Join(", ", Bindings(convert, structure, indexParts, iP))
        invariant qbNamedParameters == NamedEntries(convert, structure, indexParts, iP)
      {
        methodName, phpParamList, where, qbParameters, qbNamedParameters :=
          RenderFinderPart(structure, tableShortAlias, indexParts, iP,
                           methodName, phpParamList, where, qbParameters, qbNamedParameters);
        iP := iP + 1;
      }
    }

    /** The finder `generateDynamicRepository` emits for one non-empty index. */
    method RenderFinder(structure: map<string, Column>, indexParts: seq<IndexPart>) returns (f: Finder)
      requires |indexParts| >= 1
      ensures f == RepositoryFinder(convert, structure, indexParts)
    {
      var tableShortAlias := TableShortAlias(indexParts[0].tableName);
      var methodName, phpParamList, where, qbParameters, qbNamedParameters :=
        RenderFinderParts(structure, tableShortAlias, indexParts);
      phpParamList := phpParamList + ", bool $useNamedParameters = false";
      qbNamedParameters := qbNamedParameters + "\n";
      f := Finder(methodName, phpParamList, tableShortAlias, where, qbParameters, qbNamedParameters);
    }

    /** One pass of the inner loop of `generateDynamicManager`: part `iP` appended to the three accumulated strings. */
    method RenderManagerPart(structure: map<string, Column>, indexParts: seq<IndexPart>, iP: nat,
                             methodName: string, phpParamList: string, phpParamListNoHintNoDefault: string)
      returns (methodName': string, phpParamList': string, phpParamListNoHintNoDefault': string)
      requires iP < |indexParts|
      requires methodName == MethodNameUpTo(convert, indexParts, iP)
      requires phpParamList == Join(", ", ParamDecls(convert, structure, indexParts, iP))
      requires phpParamListNoHintNoDefault == Join(", ", ForwardArgs(convert, indexParts, iP))
      ensures methodName' == MethodNameUpTo(convert, indexParts, iP + 1)
      ensures phpParamList' == Join(", ", ParamDecls(convert, structure, indexParts, iP + 1))
      ensures phpParamListNoHintNoDefault' == Join(", ", ForwardArgs(convert, indexParts, iP + 1))
    {
      var indexPart := indexParts[iP];
      var columnType := ColumnOf(structure, indexPart.columnName).columnType;
      var columnNameCCase := convert(indexPart.columnName);
      var paramVarName := Lcfirst(columnNameCCase);
      var and, comma := if iP > 0 then "And" else "", if iP > 0 then ", " else "";
      var decl := (if columnType == "date" then (if indexPart.allowNull then "" else "\\DateTime") else columnType)
                  + " $" + paramVarName + (if indexPart.allowNull then " = NULL" else "");
      MethodNameStep(convert, indexParts, iP);
      ManagerStep(convert, structure, indexParts, iP);
      assert decl == ParamDecl(convert, structure, indexPart);
      methodName' := methodName + and + columnNameCCase;
      phpParamList' := phpParamList + comma + decl;
      phpParamListNoHintNoDefault' := phpParamListNoHintNoDefault + comma + ("$" + paramVarName);
    }

    /** The inner loop of `generateDynamicManager`: the three strings built over the parts of one index. */
    method RenderManagerParts(structure: map<string, Column>, indexParts: seq<IndexPart>)
      returns (methodName: string, phpParamList: string, phpParamListNoHintNoDefault: string)
      ensures methodName == MethodName(convert, indexParts)
      ensures phpParamList == Join(", ", ParamDecls(convert, structure, indexParts, |indexParts|))
      ensures phpParamListNoHintNoDefault == Join(", ", ForwardArgs(convert, indexParts, |indexParts|))
    {
      methodName := "findBy";
      phpParamList := "";
      phpParamListNoHintNoDefault := "";
      var iP := 0;
      while iP < |indexParts|
        invariant 0 <= iP <= |indexParts|
        invariant methodName == MethodNameUpTo(convert, indexParts, iP)
        invariant phpParamList == Join(", ", ParamDecls(convert, structure, indexParts, iP))
        invariant phpParamListNoHintNoDefault == Join(", ", ForwardArgs(convert, indexParts, iP))
      {
        methodName, phpParamList, phpParamListNoHintNoDefault :=
          RenderManagerPart(structure, indexParts, iP, methodName, phpParamList, phpParamListNoHintNoDefault);
        iP := iP + 1;
      }
    }

    /** The method `generateDynamicManager` emits for one non-empty index. */
    method RenderManagerMethod(structure: map<string, Column>, indexParts: seq<IndexPart>) returns (m: ManagerMethod)
      ensures m == ManagerFinder(convert, structure, indexParts)
    {
      var methodName, phpParamList, phpParamListNoHintNoDefault := RenderManagerParts(structure, indexParts);
      phpParamList := phpParamList + ", bool $useNamedParameters = false";
      phpParamListNoHintNoDefault := phpParamListNoHintNoDefault + ", $useNamedParameters";
      m := ManagerMethod(methodName, phpParamList, phpParamListNoHintNoDefault);
    }

    /** `generateDynamicRepository`: the finders of the non-empty indexes, the first of each name. */
    method GenerateDynamicRepository(tableStruct: TableStruct, className: string) returns (c: RepositoryClass)
      ensures c == RepositoryClassOf(convert, entityManagerNamespace, tableStruct, className)
    {
      var indexes := tableStruct.indexes;
      var createdMethods: seq<string> := [];
      var finders: seq<Finder> := [];
      var i := 0;
      while i < |indexes|
        invariant 0 <= i <= |indexes|
        invariant finders + RepositoryFinders(convert, tableStruct.structure, indexes[i..], createdMethods)
               == RepositoryFinders(convert, tableStruct.structure, indexes, [])
      {
        var indexParts := indexes[i];
        assert indexes[i..][1..] == indexes[i + 1..];
        if |indexParts| >= 1 {
          var f := RenderFinder(tableStruct.structure, indexParts);
          if f.name !in createdMethods {
            createdMethods := createdMethods + [f.name];
            AppendAssoc(finders, [f], RepositoryFinders(convert, tableStruct.structure, indexes[i + 1..], createdMethods));
            finders := finders + [f];
          }
        }
        i := i + 1;
      }
      assert indexes[i..] == [];
      c := RepositoryClass(entityManagerNamespace + "\\DefaultRepository", className, finders);
    }

    /** `generateDynamicManager`: one method per finder of the table's default repository. */
    method GenerateDynamicManager(tableStruct: TableStruct, className: string, tableName: string) returns (c: ManagerClass)
      ensures c == ManagerClassOf(convert, entityManagerNamespace, userEntityRepositoryNamespace, entityNamespace,
                                  tableStruct, className, tableName)
    {
      var indexes := tableStruct.indexes;
      var createdMethods: seq<string> := [];
      var methods: seq<ManagerMethod> := [];
      var entityName := convert(tableName);
      var repositoryClassName := entityName + "EntityRepository";
      var i := 0;
      while i < |indexes|
        invariant 0 <= i <= |indexes|
        invariant methods + ManagerMethods(convert, tableStruct.structure, indexes[i..], createdMethods)
               == ManagerMethods(convert, tableStruct.structure, indexes, [])
      {
        var indexParts := indexes[i];
        assert indexes[i..][1..] == indexes[i + 1..];
        if |indexParts| >= 1 {
          var m := RenderManagerMethod(tableStruct.structure, indexParts);
          if m.name !in createdMethods {
            createdMethods := createdMethods + [m.name];
            AppendAssoc(methods, [m], ManagerMethods(convert, tableStruct.structure, indexes[i + 1..], createdMethods));
            methods := methods + [m];
          }
        }
        i := i + 1;
      }
      assert indexes[i..] == [];
      c := ManagerClass(entityManagerNamespace + "\\DefaultManager", className, entityNamespace + "\\" + entityName,
                        entityManagerNamespace + "\\DefaultRepository\\" + repositoryClassName,
                        userEntityRepositoryNamespace + "\\" + repositoryClassName, methods);
    }

    /** `generateDynamicRepositories`: a `use` line, then a getter, per table. */
    method GenerateDynamicRepositories(tables: seq<(string, TableStruct)>) returns (r: Facade<RepositoryGetter>)
      ensures r.namespace == NamespaceLine(entityManagerNamespace)
      ensures r.uses == UserClasses(convert, userEntityRepositoryNamespace, "EntityRepository", tables)
      ensures r.getters == RepositoryGetters(convert, entityManagerNamespace, userEntityRepositoryNamespace, entityNamespace, tables)
    {
      var namespace := if Truthy(Str(entityManagerNamespace)) then Some(entityManagerNamespace) else None;
      var uses: seq<string> := [];
      var i := 0;
      while i < |tables|
        invariant 0 <= i <= |tables|
        invariant uses == UserClasses(convert, userEntityRepositoryNamespace, "EntityRepository", tables[..i])
      {
        assert tables[..i + 1][..i] == tables[..i];
        var repositoryClassName := convert(tables[i].0) + "EntityRepository";
        uses := uses + [userEntityRepositoryNamespace + "\\" + repositoryClassName];
        i := i + 1;
      }
      var getters: seq<RepositoryGetter> := [];
      i := 0;
      while i < |tables|
        invariant 0 <= i <= |tables|
        invariant getters == RepositoryGetters(convert, entityManagerNamespace, userEntityRepositoryNamespace, entityNamespace, tables[..i])
      {
        assert tables[..i + 1][..i] == tables[..i];
        var tableName := tables[i].0;
        var entityName := convert(tableName);
        var repositoryClassName := entityName + "EntityRepository";
        getters := getters + [RepositoryGetter("get" + repositoryClassName,
                                               userEntityRepositoryNamespace + "\\" + repositoryClassName,
                                               entityManagerNamespace + "\\DefaultRepository\\" + repositoryClassName,
                                               tableName, entityNamespace + "\\" + entityName)];
        i := i + 1;
      }
      assert tables[..i] == tables;
      r := Facade(namespace, uses, getters);
    }

    /** `generateDynamicManagers`: a `use` line, then a getter, per table. */
    method GenerateDynamicManagers(tables: seq<(string, TableStruct)>) returns (r: Facade<ManagerGetter>)
      ensures r.namespace == NamespaceLine(entityManagerNamespace)
      ensures r.uses == UserClasses(convert, userManagerNamespace, "Manager", tables)
      ensures r.getters == ManagerGetters(convert, entityManagerNamespace, userManagerNamespace, tables)
    {
      var namespace := if Truthy(Str(entityManagerNamespace)) then Some(entityManagerNamespace) else None;
      var uses: seq<string> := [];
      var i := 0;
      while i < |tables|
        invariant 0 <= i <= |tables|
        invariant uses == UserClasses(convert, userManagerNamespace, "Manager", tables[..i])
      {
        assert tables[..i + 1][..i] == tables[..i];
        var managerClassName := convert(tables[i].0) + "Manager";
        uses := uses + [userManagerNamespace + "\\" + managerClassName];
        i := i + 1;
      }
      var getters: seq<ManagerGetter> := [];
      i := 0;
      while i < |tables|
        invariant 0 <= i <= |tables|
        invariant getters == ManagerGetters(convert, entityManagerNamespace, userManagerNamespace, tables[..i])
      {
        assert tables[..i + 1][..i] == tables[..i];
        var entityName := convert(tables[i].0);
        var managerClassName := entityName + "Manager";
        getters := getters + [ManagerGetter("get" + managerClassName, userManagerNamespace + "\\" + managerClassName,
                                            entityManagerNamespace + "\\DefaultManager\\" + managerClassName,
                                            "get" + entityName + "EntityRepository")];
        i := i + 1;
      }
      assert tables[..i] == tables;
      r := Facade(namespace, uses, getters);
    }

    /** `generateDynamicEntityManager`: the only variable part is the namespace declaration. */
    method GenerateDynamicEntityManager() returns (namespace: Option<string>)
      ensures namespace == NamespaceLine(entityManagerNamespace)
    {
      if Truthy(Str(entityManagerNamespace)) {
        namespace := Some(entityManagerNamespace);
      } else {
        namespace := None;
      }
    }
  }

  /**
   * A validated entity manager namespace always gets its declaration,
   * except the one-character namespace `0`, which PHP reads as false.
   */
  lemma ValidNamespaceDeclared(ns: string)
    requires ValidNamespace(ns)
    ensures NamespaceLine(ns) == (if ns == "0" then None else Some(ns))
  {
  }
}
