/*
 * What the entity-manager generator
 * (src/Generator/EntityManagerGenerator/EntityManagerGenerator.php)
 * emits, as values: for every index of a table, the finder a default
 * repository gets (name, parameter list, table alias, WHERE fragment,
 * positional and named bindings) and the method a default manager gets
 * (name, parameter list, arguments forwarded to the repository), after
 * skipping empty indexes and indexes whose method name was already
 * emitted. The byte layout of the emitted PHP (docblocks, indentation,
 * `use` lines) is not part of these values.
 */
module Emitters {
  import opened Php

  /** A column of `$tableStruct['structure']` as the emitters read it: its type and its date format. */
  datatype Column = Column(columnType: string, dateFormat: string)

  /** One entry of an index: the table and column it refers to, and whether the parameter may be null. */
  datatype IndexPart = IndexPart(tableName: string, columnName: string, allowNull: bool)

  /** `$tableStruct`: the columns by name and the indexes, each an ordered list of parts. */
  datatype TableStruct = TableStruct(structure: map<string, Column>, indexes: seq<seq<IndexPart>>)

  /** A column missing from the structure reads as nulls: no type, no date format. */
  function ColumnOf(structure: map<string, Column>, name: string): Column
  {
    if name in structure then structure[name] else Column("", "")
  }

  /** PHP's `lcfirst`: the first character in lower case when it is an ASCII capital. */
  function Lcfirst(s: string): (r: string)
    ensures |r| == |s|
    ensures |s| > 0 ==> r[1..] == s[1..] && r[0] == LowerChar(s[0])
  {
    if s != [] then [LowerChar(s[0])] + s[1..] else s
  }

  /** `implode($sep, $pieces)`; also what `.= ($i > 0 ? $sep : '') . $piece` accumulates. */
  function Join(sep: string, pieces: seq<string>): string
  {
    if pieces == [] then ""
    else if |pieces| == 1 then pieces[0]
    else Join(sep, pieces[..|pieces| - 1]) + sep + pieces[|pieces| - 1]
  }

  lemma JoinSnoc(sep: string, pieces: seq<string>, x: string)
    ensures Join(sep, pieces + [x]) == (if pieces == [] then "" else Join(sep, pieces) + sep) + x
  {
    assert (pieces + [x])[..|pieces|] == pieces;
  }

  /** The same step, in the shape of an accumulating loop that puts the separator before every piece but the first. */
  lemma JoinStep(sep: string, pieces: seq<string>, x: string)
    ensures Join(sep, pieces + [x]) == Join(sep, pieces) + (if |pieces| > 0 then sep else "") + x
  {
    JoinSnoc(sep, pieces, x);
    if pieces == [] {
      assert Join(sep, pieces) + "" == "";
    }
  }

  // ---------------------------------------------------------------------
  // The table alias: the first character of every '_'-separated segment

  /** `explode('_', $s)`: the segments between underscores, empty ones kept. */
  function Split(s: string): (r: seq<string>)
    ensures |r| >= 1
  {
    if s == [] then [""]
    else
      var init := Split(s[..|s| - 1]);
      if s[|s| - 1] == '_' then init + [""]
      else init[..|init| - 1] + [init[|init| - 1] + [s[|s| - 1]]]
  }

  /** `$elem[0]`; on an empty segment PHP warns and reads "". */
  function Initial(segment: string): string
  {
    if segment == [] then "" else [segment[0]]
  }

  function Initials(segments: seq<string>): (r: string)
    ensures |r| <= |segments|
  {
    if segments == [] then "" else Initials(segments[..|segments| - 1]) + Initial(segments[|segments| - 1])
  }

  /** `getTableShortAlias($tableName)`. */
  function Alias(tableName: string): (r: string)
    ensures |r| <= |Split(tableName)|
  {
    Initials(Split(tableName))
  }

  /** `explode` inverts `implode`: the segments join back to the name. */
  lemma {:induction false} SplitJoin(s: string)
    ensures Join("_", Split(s)) == s
  {
    if s != [] {
      var t, c := s[..|s| - 1], s[|s| - 1];
      assert s == t + [c];
      SplitJoin(t);
      SplitSnoc(t, c);
      var init := Split(t);
      if c == '_' {
        JoinEmptyLast("_", init);
      } else {
        var n := |init|;
        assert init == init[..n - 1] + [init[n - 1]];
        JoinExtendLast("_", init[..n - 1], init[n - 1], c);
      }
    }
  }

  lemma JoinEmptyLast(sep: string, pieces: seq<string>)
    requires pieces != []
    ensures Join(sep, pieces + [""]) == Join(sep, pieces) + sep
  {
    JoinSnoc(sep, pieces, "");
  }

  lemma JoinExtendLast(sep: string, front: seq<string>, last: string, c: char)
    ensures Join(sep, front + [last + [c]]) == Join(sep, front + [last]) + [c]
  {
    JoinSnoc(sep, front, last + [c]);
    JoinSnoc(sep, front, last);
    AppendAssoc(if front == [] then "" else Join(sep, front) + sep, last, [c]);
  }

  /** No segment holds an underscore. */
  lemma {:induction false} SplitSegments(s: string)
    ensures forall k :: 0 <= k < |Split(s)| ==> '_' !in Split(s)[k]
  {
    if s != [] {
      var t, c := s[..|s| - 1], s[|s| - 1];
      var init := Split(t);
      SplitSegments(t);
      if c != '_' {
        var n := |init|;
        assert Split(s) == init[..n - 1] + [init[n - 1] + [c]];
        assert '_' !in init[n - 1] + [c];
      }
    }
  }

  lemma SplitSnoc(t: string, c: char)
    ensures Split(t + [c]) == if c == '_' then Split(t) + [""]
                              else Split(t)[..|Split(t)| - 1] + [Split(t)[|Split(t)| - 1] + [c]]
  {
    var s := t + [c];
    assert s[..|s| - 1] == t && s[|s| - 1] == c;
  }

  lemma DropLastOfAppend<T>(x: seq<T>, y: seq<T>)
    requires |y| >= 1
    ensures (x + y)[..|x + y| - 1] == x + y[..|y| - 1]
    ensures (x + y)[|x + y| - 1] == y[|y| - 1]
  {
  }

  lemma {:induction false} SplitUnderscore(a: string, b: string)
    ensures Split(a + "_" + b) == Split(a) + Split(b)
    decreases |b|
  {
    if b == [] {
      SplitSnoc(a, '_');
      assert a + "_" + b == a + ['_'];
      assert Split("") == [""];
    } else {
      var b', c := b[..|b| - 1], b[|b| - 1];
      assert a + "_" + b == (a + "_" + b') + [c];
      assert b == b' + [c];
      SplitUnderscore(a, b');
      SplitSnoc(a + "_" + b', c);
      SplitSnoc(b', c);
      var init, sb' := Split(a + "_" + b'), Split(b');
      if c == '_' {
        assert Split(a + "_" + b) == init + [""];
        assert Split(b) == sb' + [""];
        AppendAssoc(Split(a), sb', [""]);
      } else {
        var n, m := |init|, |sb'|;
        var sa := Split(a);
        DropLastOfAppend(sa, sb');
        var last := [sb'[m - 1] + [c]];
        assert Split(a + "_" + b) == (sa + sb'[..m - 1]) + last;
        assert Split(b) == sb'[..m - 1] + last;
        AppendAssoc(sa, sb'[..m - 1], last);
      }
    }
  }


  lemma {:induction false} InitialsAppend(x: seq<string>, y: seq<string>)
    ensures Initials(x + y) == Initials(x) + Initials(y)
    decreases |y|
  {
    if y == [] {
      assert x + y == x;
    } else {
      assert (x + y)[..|x + y| - 1] == x + y[..|y| - 1];
      InitialsAppend(x, y[..|y| - 1]);
    }
  }

  /** The alias of `a_b` is the alias of `a` followed by the alias of `b`. */
  lemma AliasUnderscore(a: string, b: string)
    ensures Alias(a + "_" + b) == Alias(a) + Alias(b)
  {
    SplitUnderscore(a, b);
    InitialsAppend(Split(a), Split(b));
  }

  /** A name without underscores is a single segment, so its alias is its first character. */
  lemma {:induction false} AliasOfWord(w: string)
    requires '_' !in w
    ensures Split(w) == [w]
    ensures Alias(w) == Initial(w)
  {
    if w != [] {
      var t := w[..|w| - 1];
      assert '_' !in t by {
        forall k | 0 <= k < |t| ensures t[k] != '_' { assert t[k] == w[k]; }
      }
      AliasOfWord(t);
      assert t + [w[|w| - 1]] == w;
    }
    assert Initials([Initial(w)][..0]) == "";
  }

  /** Two words joined by an underscore (`user_accounts`) give their two initials (`ua`). */
  lemma AliasOfTwoWords(w1: string, w2: string)
    requires '_' !in w1 && '_' !in w2 && w1 != [] && w2 != []
    ensures Alias(w1 + "_" + w2) == [w1[0], w2[0]]
  {
    AliasOfWord(w1);
    AliasOfWord(w2);
    AliasUnderscore(w1, w2);
    assert Initial(w1) + Initial(w2) == [w1[0], w2[0]];
  }

  /** A doubled underscore adds an empty segment, whose initial is empty: it aliases like a single one. */
  lemma AliasOfDoubledUnderscore(a: string, b: string)
    ensures Alias(a + "__" + b) == Alias(a + "_" + b)
  {
    UnderscoreSpelling(a, b);
    AliasOfWord("");
    AliasUnderscore("", b);
    assert Alias("_" + b) == Alias(b);
    AliasUnderscore(a, "_" + b);
    assert Alias(a + "__" + b) == Alias(a) + Alias(b);
    AliasUnderscore(a, b);
  }

  lemma UnderscoreSpelling(a: string, b: string)
    ensures "" + "_" + b == "_" + b
    ensures a + "_" + ("_" + b) == a + "__" + b
  {
    assert "_" + "_" == "__";
    AppendAssoc(a, "_", "_");
    AppendAssoc(a + "_", "_", b);
  }

  // ---------------------------------------------------------------------
  // One index part, rendered

  /** The parameter variable: the camel-cased column with a lower-case first letter. */
  function ParamName(convert: string -> string, part: IndexPart): string
  {
    Lcfirst(convert(part.columnName))
  }

  /** A non-null date is hinted `\DateTime`, a nullable date not at all, any other column by its type. */
  function TypeHint(column: Column, allowNull: bool): string
  {
    if column.columnType == "date" then (if allowNull then "" else "\\DateTime") else column.columnType
  }

  function ParamDecl(convert: string -> string, structure: map<string, Column>, part: IndexPart): string
  {
    TypeHint(ColumnOf(structure, part.columnName), part.allowNull) + " $" + ParamName(convert, part)
      + (if part.allowNull then " = NULL" else "")
  }

  /** `alias.column = ' . ($useNamedParameters ? ':param' : '?').'`, spliced into a quoted `where(...)` argument. */
  function WhereClause(convert: string -> string, alias: string, part: IndexPart): string
  {
    alias + "." + part.columnName + " = ' . " + "($useNamedParameters ? ':" + ParamName(convert, part) + "' : '?').'"
  }

  /** A date column with a truthy date format is bound through `->format("fmt")`. */
  function FormatCall(column: Column): string
  {
    if column.columnType == "date" && Truthy(Str(column.dateFormat)) then "->format(\"" + column.dateFormat + "\")" else ""
  }

  /** The bound value: the parameter variable, formatted when it is a date with a format. */
  function Binding(convert: string -> string, structure: map<string, Column>, part: IndexPart): string
  {
    "$" + ParamName(convert, part) + FormatCall(ColumnOf(structure, part.columnName))
  }

  function NamedEntry(convert: string -> string, structure: map<string, Column>, part: IndexPart, first: bool): string
  {
    "\n                " + (if first then "" else ", ") + "'" + ParamName(convert, part) + "' => "
      + Binding(convert, structure, part)
  }

  // ---------------------------------------------------------------------
  // The pieces of the first `n` parts of an index, in order

  function CamelNames(convert: string -> string, parts: seq<IndexPart>, n: nat): (r: seq<string>)
    requires n <= |parts|
    ensures |r| == n
  {
    if n == 0 then [] else CamelNames(convert, parts, n - 1) + [convert(parts[n - 1].columnName)]
  }

  function ParamDecls(convert: string -> string, structure: map<string, Column>, parts: seq<IndexPart>, n: nat): (r: seq<string>)
    requires n <= |parts|
    ensures |r| == n
  {
    if n == 0 then [] else ParamDecls(convert, structure, parts, n - 1) + [ParamDecl(convert, structure, parts[n - 1])]
  }

  function WhereClauses(convert: string -> string, alias: string, parts: seq<IndexPart>, n: nat): (r: seq<string>)
    requires n <= |parts|
    ensures |r| == n
  {
    if n == 0 then [] else WhereClauses(convert, alias, parts, n - 1) + [WhereClause(convert, alias, parts[n - 1])]
  }

  function Bindings(convert: string -> string, structure: map<string, Column>, parts: seq<IndexPart>, n: nat): (r: seq<string>)
    requires n <= |parts|
    ensures |r| == n
  {
    if n == 0 then [] else Bindings(convert, structure, parts, n - 1) + [Binding(convert, structure, parts[n - 1])]
  }

  function NamedEntries(convert: string -> string, structure: map<string, Column>, parts: seq<IndexPart>, n: nat): string
    requires n <= |parts|
  {
    if n == 0 then "" else NamedEntries(convert, structure, parts, n - 1) + NamedEntry(convert, structure, parts[n - 1], n == 1)
  }

  function ForwardArgs(convert: string -> string, parts: seq<IndexPart>, n: nat): (r: seq<string>)
    requires n <= |parts|
    ensures |r| == n
  {
    if n == 0 then [] else ForwardArgs(convert, parts, n - 1) + ["$" + ParamName(convert, parts[n - 1])]
  }

  /** Every piece sequence has one piece per part, the part's own, in the parts' order. */
  lemma PiecesAt(convert: string -> string, structure: map<string, Column>, alias: string,
                 parts: seq<IndexPart>, n: nat, k: nat)
    requires k < n <= |parts|
    ensures CamelNames(convert, parts, n)[k] == convert(parts[k].columnName)
    ensures ParamDecls(convert, structure, parts, n)[k] == ParamDecl(convert, structure, parts[k])
    ensures WhereClauses(convert, alias, parts, n)[k] == WhereClause(convert, alias, parts[k])
    ensures Bindings(convert, structure, parts, n)[k] == Binding(convert, structure, parts[k])
    ensures ForwardArgs(convert, parts, n)[k] == "$" + ParamName(convert, parts[k])
  {
    CamelNameAt(convert, parts, n, k);
    ParamDeclAt(convert, structure, parts, n, k);
    WhereClauseAt(convert, alias, parts, n, k);
    BindingAt(convert, structure, parts, n, k);
    ForwardArgAt(convert, parts, n, k);
  }

  lemma {:induction false} CamelNameAt(convert: string -> string, parts: seq<IndexPart>, n: nat, k: nat)
    requires k < n <= |parts|
    ensures CamelNames(convert, parts, n)[k] == convert(parts[k].columnName)
  {
    if k < n - 1 {
      CamelNameAt(convert, parts, n - 1, k);
    }
  }

  lemma {:induction false} ParamDeclAt(convert: string -> string, structure: map<string, Column>, parts: seq<IndexPart>, n: nat, k: nat)
    requires k < n <= |parts|
    ensures ParamDecls(convert, structure, parts, n)[k] == ParamDecl(convert, structure, parts[k])
  {
    if k < n - 1 {
      ParamDeclAt(convert, structure, parts, n - 1, k);
    }
  }

  lemma {:induction false} WhereClauseAt(convert: string -> string, alias: string, parts: seq<IndexPart>, n: nat, k: nat)
    requires k < n <= |parts|
    ensures WhereClauses(convert, alias, parts, n)[k] == WhereClause(convert, alias, parts[k])
  {
    if k < n - 1 {
      WhereClauseAt(convert, alias, parts, n - 1, k);
    }
  }

  lemma {:induction false} BindingAt(convert: string -> string, structure: map<string, Column>, parts: seq<IndexPart>, n: nat, k: nat)
    requires k < n <= |parts|
    ensures Bindings(convert, structure, parts, n)[k] == Binding(convert, structure, parts[k])
  {
    if k < n - 1 {
      BindingAt(convert, structure, parts, n - 1, k);
    }
  }

  lemma {:induction false} ForwardArgAt(convert: string -> string, parts: seq<IndexPart>, n: nat, k: nat)
    requires k < n <= |parts|
    ensures ForwardArgs(convert, parts, n)[k] == "$" + ParamName(convert, parts[k])
  {
    if k < n - 1 {
      ForwardArgAt(convert, parts, n - 1, k);
    }
  }

  /** One part more: every piece list of a repository finder grows by that part's piece. */
  lemma FinderStep(convert: string -> string, structure: map<string, Column>, alias: string,
                   parts: seq<IndexPart>, i: nat)
    requires i < |parts|
    ensures Join(", ", ParamDecls(convert, structure, parts, i + 1))
         == Join(", ", ParamDecls(convert, structure, parts, i)) + (if i > 0 then ", " else "")
            + ParamDecl(convert, structure, parts[i])
    ensures Join(" AND ", WhereClauses(convert, alias, parts, i + 1))
         == Join(" AND ", WhereClauses(convert, alias, parts, i)) + (if i > 0 then " AND " else "")
            + WhereClause(convert, alias, parts[i])
    ensures Join(", ", Bindings(convert, structure, parts, i + 1))
         == Join(", ", Bindings(convert, structure, parts, i)) + (if i > 0 then ", " else "")
            + Binding(convert, structure, parts[i])
    ensures NamedEntries(convert, structure, parts, i + 1)
         == NamedEntries(convert, structure, parts, i) + NamedEntry(convert, structure, parts[i], i == 0)
  {
    JoinStep(", ", ParamDecls(convert, structure, parts, i), ParamDecl(convert, structure, parts[i]));
    JoinStep(" AND ", WhereClauses(convert, alias, parts, i), WhereClause(convert, alias, parts[i]));
    JoinStep(", ", Bindings(convert, structure, parts, i), Binding(convert, structure, parts[i]));
  }

  /** One part more: the manager's declaration and forwarding lists grow by that part's piece. */
  lemma ManagerStep(convert: string -> string, structure: map<string, Column>, parts: seq<IndexPart>, i: nat)
    requires i < |parts|
    ensures Join(", ", ParamDecls(convert, structure, parts, i + 1))
         == Join(", ", ParamDecls(convert, structure, parts, i)) + (if i > 0 then ", " else "")
            + ParamDecl(convert, structure, parts[i])
    ensures Join(", ", ForwardArgs(convert, parts, i + 1))
         == Join(", ", ForwardArgs(convert, parts, i)) + (if i > 0 then ", " else "")
            + ("$" + ParamName(convert, parts[i]))
  {
    JoinStep(", ", ParamDecls(convert, structure, parts, i), ParamDecl(convert, structure, parts[i]));
    JoinStep(", ", ForwardArgs(convert, parts, i), "$" + ParamName(convert, parts[i]));
  }

  // ---------------------------------------------------------------------
  // What one index emits

  /** `findBy` + the first `n` camel-cased columns joined by `And`. */
  function MethodNameUpTo(convert: string -> string, parts: seq<IndexPart>, n: nat): string
    requires n <= |parts|
  {
    "findBy" + Join("And", CamelNames(convert, parts, n))
  }

  function MethodName(convert: string -> string, parts: seq<IndexPart>): string
  {
    MethodNameUpTo(convert, parts, |parts|)
  }

  /** The declared parameters, one per column, then the trailing flag. */
  function ParamList(convert: string -> string, structure: map<string, Column>, parts: seq<IndexPart>): string
  {
    Join(", ", ParamDecls(convert, structure, parts, |parts|)) + ", bool $useNamedParameters = false"
  }

  /** A default repository's finder. */
  datatype Finder = Finder(name: string, params: string, alias: string, where: string, positional: string, named: string)

  /** A default manager's method: it forwards its parameters to the repository finder of the same name. */
  datatype ManagerMethod = ManagerMethod(name: string, params: string, forward: string)

  /** The finder of a non-empty index; the alias comes from the table of its first part. */
  function RepositoryFinder(convert: string -> string, structure: map<string, Column>, parts: seq<IndexPart>): (r: Finder)
    requires |parts| >= 1
    ensures |r.name| >= 6 && r.name[..6] == "findBy"
  {
    var alias := Alias(parts[0].tableName);
    Finder(MethodName(convert, parts), ParamList(convert, structure, parts), alias,
           Join(" AND ", WhereClauses(convert, alias, parts, |parts|)),
           Join(", ", Bindings(convert, structure, parts, |parts|)),
           NamedEntries(convert, structure, parts, |parts|) + "\n")
  }

  function ManagerFinder(convert: string -> string, structure: map<string, Column>, parts: seq<IndexPart>): (r: ManagerMethod)
    ensures |parts| >= 1 ==> r.name == RepositoryFinder(convert, structure, parts).name
    ensures |parts| >= 1 ==> r.params == RepositoryFinder(convert, structure, parts).params
  {
    ManagerMethod(MethodName(convert, parts), ParamList(convert, structure, parts),
                  Join(", ", ForwardArgs(convert, parts, |parts|)) + ", $useNamedParameters")
  }

  /**
   * The finders of a table's indexes, in index order: empty indexes are
   * skipped, and so is an index whose method name is in `created`, the
   * names already emitted.
   */
  function RepositoryFinders(convert: string -> string, structure: map<string, Column>,
                             indexes: seq<seq<IndexPart>>, created: seq<string>): (r: seq<Finder>)
    ensures |r| <= |indexes|
    decreases |indexes|
  {
    if indexes == [] then []
    else if |indexes[0]| < 1 || MethodName(convert, indexes[0]) in created then
      RepositoryFinders(convert, structure, indexes[1..], created)
    else
      [RepositoryFinder(convert, structure, indexes[0])]
      + RepositoryFinders(convert, structure, indexes[1..], created + [MethodName(convert, indexes[0])])
  }

  /** The manager's methods, with the same skip and the same de-duplication. */
  function ManagerMethods(convert: string -> string, structure: map<string, Column>,
                          indexes: seq<seq<IndexPart>>, created: seq<string>): (r: seq<ManagerMethod>)
    ensures |r| <= |indexes|
    decreases |indexes|
  {
    if indexes == [] then []
    else if |indexes[0]| < 1 || MethodName(convert, indexes[0]) in created then
      ManagerMethods(convert, structure, indexes[1..], created)
    else
      [ManagerFinder(convert, structure, indexes[0])]
      + ManagerMethods(convert, structure, indexes[1..], created + [MethodName(convert, indexes[0])])
  }

  function FinderNames(fs: seq<Finder>): (r: seq<string>)
    ensures |r| == |fs| && forall k :: 0 <= k < |fs| ==> r[k] == fs[k].name
  {
    seq(|fs|, k requires 0 <= k < |fs| => fs[k].name)
  }

  function MethodNames(ms: seq<ManagerMethod>): (r: seq<string>)
    ensures |r| == |ms| && forall k :: 0 <= k < |ms| ==> r[k] == ms[k].name
  {
    seq(|ms|, k requires 0 <= k < |ms| => ms[k].name)
  }

  // ---------------------------------------------------------------------
  // Properties

  /**
   * How the loop builds a method name: `findBy`, then the columns
   * camel-cased in index order, with `And` before every column but the
   * first.
   */
  lemma MethodNameStep(convert: string -> string, parts: seq<IndexPart>, i: nat)
    requires i < |parts|
    ensures MethodNameUpTo(convert, parts, 0) == "findBy"
    ensures MethodNameUpTo(convert, parts, i + 1)
         == MethodNameUpTo(convert, parts, i) + (if i > 0 then "And" else "") + convert(parts[i].columnName)
  {
    var names := CamelNames(convert, parts, i);
    var c := convert(parts[i].columnName);
    JoinSnoc("And", names, c);
    AppendAssoc("findBy", Join("And", names), if i > 0 then "And" else "");
    AppendAssoc("findBy", Join("And", names) + (if i > 0 then "And" else ""), c);
    assert "findBy" + "" == "findBy";
  }

  /** Two columns named `first_name` and `last_name` give `findByFirstNameAndLastName`. */
  lemma MethodNameExample(convert: string -> string, parts: seq<IndexPart>)
    requires parts == [IndexPart("users", "first_name", false), IndexPart("users", "last_name", false)]
    requires convert("first_name") == "FirstName" && convert("last_name") == "LastName"
    ensures MethodName(convert, parts) == "findByFirstNameAndLastName"
  {
    assert CamelNames(convert, parts, 2) == ["FirstName", "LastName"];
    assert ["FirstName", "LastName"][..1] == ["FirstName"];
    assert Join("And", ["FirstName", "LastName"]) == "FirstName" + "And" + "LastName";
  }

  /**
   * Parameter rendering: `\DateTime $p` for a non-null date, ` $p = NULL`
   * for a nullable date, `<type> $p` otherwise, ` = NULL` exactly for a
   * nullable part; the list always ends with the `$useNamedParameters` flag.
   */
  lemma ParamRendering(convert: string -> string, structure: map<string, Column>, part: IndexPart, parts: seq<IndexPart>)
    ensures var t := ColumnOf(structure, part.columnName).columnType;
            var p := ParamName(convert, part);
            ParamDecl(convert, structure, part)
              == if t == "date" && !part.allowNull then "\\DateTime $" + p
                 else if t == "date" then " $" + p + " = NULL"
                 else if part.allowNull then t + " $" + p + " = NULL"
                 else t + " $" + p
    ensures var l := ParamList(convert, structure, parts);
            var flag := ", bool $useNamedParameters = false";
            |l| >= |flag| && l[|l| - |flag|..] == flag
  {
  }

  /** A date column with a format is bound through `->format(...)`, in both binding lists alike. */
  lemma DateBinding(convert: string -> string, structure: map<string, Column>, part: IndexPart)
    requires part.columnName in structure
    requires structure[part.columnName].columnType == "date" && Truthy(Str(structure[part.columnName].dateFormat))
    ensures Binding(convert, structure, part)
         == "$" + ParamName(convert, part) + "->format(\"" + structure[part.columnName].dateFormat + "\")"
    ensures NamedEntry(convert, structure, part, true)
         == "\n                '" + ParamName(convert, part) + "' => " + Binding(convert, structure, part)
  {
  }

  /**
   * The named bindings follow the index's parts in order: the entry added
   * for part `k` binds, under the part's parameter name, the very value
   * the positional piece `k` binds.
   */
  lemma NamedEntryAt(convert: string -> string, structure: map<string, Column>, parts: seq<IndexPart>, k: nat)
    requires k < |parts|
    ensures NamedEntries(convert, structure, parts, k + 1)
         == NamedEntries(convert, structure, parts, k)
            + ("\n                " + (if k == 0 then "" else ", ") + "'" + ParamName(convert, parts[k]) + "' => "
               + Bindings(convert, structure, parts, |parts|)[k])
  {
    PiecesAt(convert, structure, "", parts, |parts|, k);
  }

  /** Method `k` of the manager has the name and the parameters of finder `k` of the repository. */
  predicate Agree(ms: seq<ManagerMethod>, fs: seq<Finder>)
  {
    |ms| == |fs| && forall k :: 0 <= k < |ms| ==> ms[k].name == fs[k].name && ms[k].params == fs[k].params
  }

  lemma AgreeCons(m: ManagerMethod, f: Finder, ms: seq<ManagerMethod>, fs: seq<Finder>)
    requires Agree(ms, fs) && m.name == f.name && m.params == f.params
    ensures Agree([m] + ms, [f] + fs)
  {
    assert forall k :: 1 <= k < |ms| + 1 ==> ([m] + ms)[k] == ms[k - 1] && ([f] + fs)[k] == fs[k - 1];
  }

  /** The manager and the repository emit methods of the same names with the same parameters, in the same order. */
  lemma {:induction false} ManagerAndRepositoryAgree(convert: string -> string, structure: map<string, Column>,
                                                     indexes: seq<seq<IndexPart>>, created: seq<string>)
    ensures Agree(ManagerMethods(convert, structure, indexes, created), RepositoryFinders(convert, structure, indexes, created))
    decreases |indexes|
  {
    if indexes != [] {
      var parts := indexes[0];
      if |parts| < 1 || MethodName(convert, parts) in created {
        ManagerAndRepositoryAgree(convert, structure, indexes[1..], created);
      } else {
        var name := MethodName(convert, parts);
        ManagerAndRepositoryAgree(convert, structure, indexes[1..], created + [name]);
        AgreeCons(ManagerFinder(convert, structure, parts), RepositoryFinder(convert, structure, parts),
                  ManagerMethods(convert, structure, indexes[1..], created + [name]),
                  RepositoryFinders(convert, structure, indexes[1..], created + [name]));
      }
    }
  }

  /** No emitted name is among `created`, and no two emitted names are equal. */
  predicate NamesFresh(fs: seq<Finder>, created: seq<string>)
  {
    (forall k :: 0 <= k < |fs| ==> fs[k].name !in created)
    && forall k, l :: 0 <= k < l < |fs| ==> fs[k].name != fs[l].name
  }

  lemma NamesFreshCons(f: Finder, fs: seq<Finder>, created: seq<string>)
    requires NamesFresh(fs, created + [f.name]) && f.name !in created
    ensures NamesFresh([f] + fs, created)
  {
    assert forall k :: 1 <= k < |fs| + 1 ==> ([f] + fs)[k] == fs[k - 1];
  }

  /** No method name is emitted twice, nor one that was already created. */
  lemma {:induction false} FindersDistinct(convert: string -> string, structure: map<string, Column>,
                                           indexes: seq<seq<IndexPart>>, created: seq<string>)
    ensures NamesFresh(RepositoryFinders(convert, structure, indexes, created), created)
    decreases |indexes|
  {
    if indexes != [] {
      var parts := indexes[0];
      if |parts| < 1 || MethodName(convert, parts) in created {
        FindersDistinct(convert, structure, indexes[1..], created);
      } else {
        var f := RepositoryFinder(convert, structure, parts);
        FindersDistinct(convert, structure, indexes[1..], created + [f.name]);
        NamesFreshCons(f, RepositoryFinders(convert, structure, indexes[1..], created + [f.name]), created);
      }
    }
  }

  /** Whether the fold emits a method for the index `parts`: it is non-empty and its name is new. */
  predicate Emits(convert: string -> string, parts: seq<IndexPart>, created: seq<string>)
  {
    |parts| >= 1 && MethodName(convert, parts) !in created
  }

  /** The names already emitted once the fold has passed the index `parts`. */
  function NextCreated(convert: string -> string, parts: seq<IndexPart>, created: seq<string>): seq<string>
  {
    if Emits(convert, parts, created) then created + [MethodName(convert, parts)] else created
  }

  /** The fold's first step, seen through the emitted names only. */
  lemma FinderNamesStep(convert: string -> string, structure: map<string, Column>,
                        indexes: seq<seq<IndexPart>>, created: seq<string>)
    requires indexes != []
    ensures var created' := NextCreated(convert, indexes[0], created);
            FinderNames(RepositoryFinders(convert, structure, indexes, created))
            == (if Emits(convert, indexes[0], created) then [MethodName(convert, indexes[0])] else [])
               + FinderNames(RepositoryFinders(convert, structure, indexes[1..], created'))
  {
    var created' := NextCreated(convert, indexes[0], created);
    var rest := RepositoryFinders(convert, structure, indexes[1..], created');
    FindersStep(convert, structure, indexes, created);
    if Emits(convert, indexes[0], created) {
      FinderNamesCons(RepositoryFinder(convert, structure, indexes[0]), rest);
    } else {
      assert [] + rest == rest;
      assert ([] + FinderNames(rest)) == FinderNames(rest);
    }
  }

  lemma FinderNamesCons(f: Finder, fs: seq<Finder>)
    ensures FinderNames([f] + fs) == [f.name] + FinderNames(fs)
  {
  }

  /** Every non-empty index has its method: either created before or among the emitted names. */
  lemma FindersComplete(convert: string -> string, structure: map<string, Column>,
                        indexes: seq<seq<IndexPart>>, created: seq<string>)
    ensures forall j :: 0 <= j < |indexes| && |indexes[j]| >= 1 ==>
              MethodName(convert, indexes[j]) in created
              || MethodName(convert, indexes[j]) in FinderNames(RepositoryFinders(convert, structure, indexes, created))
  {
    forall j | 0 <= j < |indexes| && |indexes[j]| >= 1
      ensures MethodName(convert, indexes[j]) in created
              || MethodName(convert, indexes[j]) in FinderNames(RepositoryFinders(convert, structure, indexes, created))
    {
      CompleteAt(convert, structure, indexes, created, j);
    }
  }

  /** The method name of the non-empty index `j` is created before or emitted by the fold. */
  lemma {:induction false} CompleteAt(convert: string -> string, structure: map<string, Column>,
                                      indexes: seq<seq<IndexPart>>, created: seq<string>, j: nat)
    requires j < |indexes| && |indexes[j]| >= 1
    ensures MethodName(convert, indexes[j]) in created
            || MethodName(convert, indexes[j]) in FinderNames(RepositoryFinders(convert, structure, indexes, created))
    decreases j
  {
    var created' := NextCreated(convert, indexes[0], created);
    FinderNamesStep(convert, structure, indexes, created);
    if j > 0 {
      var rest := indexes[1..];
      assert rest[j - 1] == indexes[j];
      CompleteAt(convert, structure, rest, created', j - 1);
    }
  }

  /** The first non-empty index with a given method name is the one whose finder is emitted. */
  lemma {:induction false} FirstIndexWins(convert: string -> string, structure: map<string, Column>,
                                          indexes: seq<seq<IndexPart>>, created: seq<string>, j: nat)
    requires j < |indexes| && |indexes[j]| >= 1 && MethodName(convert, indexes[j]) !in created
    requires forall i :: 0 <= i < j && |indexes[i]| >= 1 ==> MethodName(convert, indexes[i]) != MethodName(convert, indexes[j])
    ensures RepositoryFinder(convert, structure, indexes[j]) in RepositoryFinders(convert, structure, indexes, created)
    decreases j
  {
    if j > 0 {
      var created' := if |indexes[0]| < 1 || MethodName(convert, indexes[0]) in created then created
                      else created + [MethodName(convert, indexes[0])];
      assert indexes[1..][j - 1] == indexes[j];
      forall i | 0 <= i < j - 1 && |indexes[1..][i]| >= 1
        ensures MethodName(convert, indexes[1..][i]) != MethodName(convert, indexes[1..][j - 1])
      {
        assert indexes[1..][i] == indexes[i + 1];
      }
      FirstIndexWins(convert, structure, indexes[1..], created', j - 1);
    }
  }

  /** The fold's first step: the finder of the first index, unless it is empty or its name was created. */
  lemma FindersStep(convert: string -> string, structure: map<string, Column>,
                    indexes: seq<seq<IndexPart>>, created: seq<string>)
    requires indexes != []
    ensures var created' := NextCreated(convert, indexes[0], created);
            RepositoryFinders(convert, structure, indexes, created)
            == (if Emits(convert, indexes[0], created) then [RepositoryFinder(convert, structure, indexes[0])] else [])
               + RepositoryFinders(convert, structure, indexes[1..], created')
  {
    var created' := NextCreated(convert, indexes[0], created);
    if !Emits(convert, indexes[0], created) {
      assert [] + RepositoryFinders(convert, structure, indexes[1..], created') == RepositoryFinders(convert, structure, indexes[1..], created');
    }
  }

  /** Every emitted finder is the finder of some non-empty index. */
  lemma FindersFromIndexes(convert: string -> string, structure: map<string, Column>,
                           indexes: seq<seq<IndexPart>>, created: seq<string>, f: Finder)
    requires f in RepositoryFinders(convert, structure, indexes, created)
    ensures exists j :: 0 <= j < |indexes| && |indexes[j]| >= 1 && f == RepositoryFinder(convert, structure, indexes[j])
  {
    var j := FinderIndex(convert, structure, indexes, created, f);
  }

  /** The position of the index an emitted finder comes from. */
  lemma {:induction false} FinderIndex(convert: string -> string, structure: map<string, Column>,
                                       indexes: seq<seq<IndexPart>>, created: seq<string>, f: Finder) returns (j: nat)
    requires f in RepositoryFinders(convert, structure, indexes, created)
    ensures j < |indexes| && |indexes[j]| >= 1 && f == RepositoryFinder(convert, structure, indexes[j])
    decreases |indexes|
  {
    var created' := NextCreated(convert, indexes[0], created);
    FinderMemberStep(convert, structure, indexes, created, f);
    if f in RepositoryFinders(convert, structure, indexes[1..], created') {
      var k := FinderIndex(convert, structure, indexes[1..], created', f);
      j := ShiftFinderIndex(convert, structure, indexes, f, k);
    } else {
      j := 0;
    }
  }

  /** An emitted finder is the first index's finder or is emitted by the rest of the fold. */
  lemma FinderMemberStep(convert: string -> string, structure: map<string, Column>,
                         indexes: seq<seq<IndexPart>>, created: seq<string>, f: Finder)
    requires indexes != [] && f in RepositoryFinders(convert, structure, indexes, created)
    ensures f in RepositoryFinders(convert, structure, indexes[1..], NextCreated(convert, indexes[0], created))
            || (|indexes[0]| >= 1 && f == RepositoryFinder(convert, structure, indexes[0]))
  {
    FindersStep(convert, structure, indexes, created);
  }

  lemma ShiftFinderIndex(convert: string -> string, structure: map<string, Column>,
                         indexes: seq<seq<IndexPart>>, f: Finder, k: nat) returns (j: nat)
    requires indexes != [] && k < |indexes[1..]| && |indexes[1..][k]| >= 1
    requires f == RepositoryFinder(convert, structure, indexes[1..][k])
    ensures j == k + 1 && j < |indexes| && |indexes[j]| >= 1 && f == RepositoryFinder(convert, structure, indexes[j])
  {
    j := k + 1;
    assert indexes[1..][k] == indexes[j];
  }
}
