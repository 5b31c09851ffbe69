# A verified model of the Anytime ORM core

This project models, in Dafny, the core of the PHP library Anytime\ORM and
proves properties of that model. The core has seven parts:

- **The entity-manager generator** (`EntityManagerGenerator`). It validates the
  namespaces and directories it is configured with. For every table it derives
  the classes the ORM writes out:
  - a default repository with one `findBy…` finder per index;
  - a default manager that forwards to those finders;
  - the DynamicRepositories and DynamicManagers facades.

  Module `Emitters` holds what one index emits, as values: the method name, the
  parameter list, the table alias, the WHERE fragment, and the positional and
  named bindings. Module `Generator` holds the generator class itself. Its
  methods build these values with loops in the same shape as the PHP's
  `foreach` loops and `.=` accumulations.
- **Cache keys** (`CacheKey`):
  - the entity key is `ORM-ENTITY_<table>_` followed by the FNV-1 64 digest of
    the `print_r` text of the primary key;
  - the query key is `ORM-SQL-RESULTS_<table>_` followed by the digests of the
    SQL text and of the parameters' `print_r`, with no separator between them.

  FNV-1 64 (module `Fnv`) is defined bit-exactly on `bv64`. The four keys in
  tests/Cache/CacheKeyTest.php are derived from these definitions (module
  `CacheKeyVectors`).
- **The cache helper** (`CacheResults`). It is a class over the contents of a
  PSR-16 cache and the last key it hashed, which a following write can reuse.
- **The cached-result cursor** (`CachedSelectQuery`). It replays cached rows
  through `fetch`, `fetchOne`, `fetchAll` and `fetchSingleScalarResult`.
  `fetch` is specified by a pure step function, `FetchStep`, over the pair
  (`fetchDone`, `currentFetchIndex`). The other three state their results and
  the new cursor directly in their postconditions.
- **Manager resolution** (`Managers::loadAndGetManager`). It returns the
  memoised manager, else the user class, else the generated default class,
  else the built-in `DefaultManager`.
- **The update-query constructor** (`UpdateQuery`). It renames every field to
  `UPDATE_VALUE_<field>` and merges the renamed fields into the parameters by
  PHP's left-biased array union. As written it then hands its DBConnection to
  the parent constructor's `\PDO $pdo` parameter, so every construction throws
  a TypeError (see Findings); the model keeps both that and the intended
  constructor.
- **The query base class** (`QueryAbstract`). It stores the constructor fields,
  sets the entity class with `setEntityClass`, and maps a PDO `errorInfo()`
  array onto a RuntimeException with `throwPdoError`.

Module `Php` holds the PHP semantics these parts rely on:
- scalars and truthiness;
- ordered arrays with integer and string keys, including the conversion of
  numeric strings to integer keys, lookup, assignment and `+`;
- `(int)` casts with 64-bit saturation;
- the `: bool` return coercion;
- the `RuntimeException` and `TypeError` exceptions;
- results that are either a value or a thrown exception (`Outcome`).

`Managers::loadAndGetManager` looks up a memo of built managers,
`$loadedManagers`, which is declared at src/EntityManager/Managers.php:10 and
read at :35, but never written anywhere. The model follows the code, so every
call on a miss builds a fresh manager. A variant that stores what it builds is
modelled next to it (see Findings).

## Model

| member | source | states |
|---|---|---|
| Php.Lookup | src/QueryBuilder/QueryAbstract.php:63-64 | `array_key_exists`/`$a[$k]`: absent exactly when no entry has the key; otherwise the value of an entry under that key |
| Php.ValidKeyCharacterisation | src/QueryBuilder/UpdateQuery.php:23 | a key can be held by a PHP array exactly when rendering it with `.` and using the string as an offset gives the same key back |
| Php.IntKeyRoundTrip | src/QueryBuilder/UpdateQuery.php:23 | the decimal rendering of an in-range integer is a string PHP turns back into that integer key |
| Php.KeyOfLetterPrefix | src/QueryBuilder/UpdateQuery.php:23 | a string starting with a letter is always kept as a string key |
| Php.SetFresh | src/QueryBuilder/UpdateQuery.php:23 | assigning under a key the array lacks appends one entry at the end |
| Php.IntCast | src/QueryBuilder/QueryAbstract.php:65 | `(int)` of a string, bool or null lands in the 64-bit range |
| Php.StringToIntOfIntToString | src/QueryBuilder/QueryAbstract.php:65 | `(int)` of the decimal rendering of an in-range integer is that integer |
| Php.BoolReturn | src/Cache/CacheResults.php:41 | a value returned through `: bool` succeeds exactly for a non-null scalar, as its truthiness; null and arrays raise a TypeError |
| Php.UnionLookup | src/QueryBuilder/UpdateQuery.php:28 | `$a + $b` is left-biased: a key of `a` keeps `a`'s value, any other key reads from `b` |
| Php.UnionWellFormed | src/QueryBuilder/UpdateQuery.php:28 | the union of two arrays again has valid, pairwise distinct keys |
| Fnv.Fnv164 | src/Cache/CacheKey.php:25 | `hash('fnv164', $s)` is 16 lower-case hexadecimal digits |
| Fnv.HexRoundTrip | src/Cache/CacheKey.php:25 | those 16 digits read back as the 64-bit hash itself |
| Fnv.HashIsFold | src/Cache/CacheKey.php:25 | FNV-1 64 is the fold of multiply-by-prime then xor-byte from the offset basis |
| Fnv.HashConcat | src/Cache/CacheKey.php:15 | hashing a concatenation carries on from the hash of the first part |
| CacheKey.PrintR | src/Cache/CacheKey.php:15-25 | `print_r($a, true)` of a flat array: the frame plus a line of at least 11 characters per entry |
| CacheKey.EntityKey | src/Cache/CacheKey.php:23-26 | `getEntityCacheKey`: prefix, table, `_` and a 16-digit digest, so its length is fixed by the table name |
| CacheKey.QueryKey | src/Cache/CacheKey.php:13-16 | `getQueryResultCacheKey`: prefix, table, `_` and two 16-digit digests, so its length is fixed by the table name |
| CacheKey.EntityKeyTable | src/Cache/CacheKey.php:25 | the table name is recovered from an entity key: prefix, table, `_`, 16 hex digits |
| CacheKey.QueryKeyTable | src/Cache/CacheKey.php:15 | the table name is recovered from a query key: prefix, table, `_`, 32 hex digits |
| CacheKey.EntityKeysOfDifferentTablesDiffer | src/Cache/CacheKey.php:25 | entity keys of different tables differ, whatever the primary keys |
| CacheKey.QueryKeysOfDifferentTablesDiffer | src/Cache/CacheKey.php:15 | query keys of different tables differ, whatever the SQL and parameters |
| CacheKey.EntityAndQueryKeysDiffer | src/Cache/CacheKey.php:13-26 | no entity key equals any query key |
| CacheKey.EntityKeyByRendering | src/Cache/CacheKey.php:25 | primary keys whose entries print alike (`1`, `"1"`, `true`) share one entity key |
| CacheKeyVectors.EntityKeyOfOneKey | tests/Cache/CacheKeyTest.php:56 | entity key of `users`, `[1]` is `ORM-ENTITY_users_7b5de198fe1115b5` |
| CacheKeyVectors.EntityKeyOfTwoKeys | tests/Cache/CacheKeyTest.php:57 | entity key of `users`, `[1, 1]` is `ORM-ENTITY_users_b1c37c9333541e7a` |
| CacheKeyVectors.QueryKeyWithoutParameters | tests/Cache/CacheKeyTest.php:46 | query key of `SELECT * FROM users`, `[]` is `ORM-SQL-RESULTS_users_f394a834e47b5d552c94a0442da4b385` |
| CacheKeyVectors.QueryKeyWithParameter | tests/Cache/CacheKeyTest.php:45 | query key of `... WHERE id = :id`, `['id' => 1]` is `ORM-SQL-RESULTS_users_2f60ff83138d076fa4c764911b74bd06` |
| CacheResults.QueryWriteKeyAsWritten | src/Cache/CacheResults.php:88-92 | as written, the write key exists exactly when a truthy recorded key is reused, and is then that key; otherwise a TypeError |
| CacheResults.CacheResults.constructor | src/Cache/CacheResults.php:30-34 | the helper wraps the given cache; no key is recorded yet |
| CacheResults.CacheResults.GetEntityCachedData | src/Cache/CacheResults.php:41-46 | as written: records the entity key, leaves the cache alone, and returns the cached value through the `: bool` return type |
| CacheResults.CacheResults.GetEntityCachedValue | src/Cache/CacheResults.php:41-46 | corrected: records the entity key and returns the value cached under it, or null |
| CacheResults.CacheResults.GetQueryResultCachedData | src/Cache/CacheResults.php:54-59 | records the query key and returns the value cached under it, or null; the cache is unchanged |
| CacheResults.CacheResults.SetEntityCache | src/Cache/CacheResults.php:67-76 | writes the data under the recorded key when reuse is asked and that key is truthy, else under the entity's own key; nothing else changes |
| CacheResults.CacheResults.SetQueryResultsCacheAsWritten | src/Cache/CacheResults.php:86-95 | as written: throws a TypeError and writes nothing exactly when no truthy key is reused |
| CacheResults.CacheResults.SetQueryResultsCache | src/Cache/CacheResults.php:86-95 | corrected: writes the data under the reused key or under the query key; nothing else changes |
| CacheResults.CacheResults.GetLastHashedKey | src/Cache/CacheResults.php:101-104 | returns the key of the most recent lookup, null before any |
| CacheResults.ComputedKeysAreTruthy | src/Cache/CacheResults.php:69 | every computed key is truthy, so a recorded key is always reusable |
| CacheResults.EntityKeyReuseAgrees | src/Cache/CacheResults.php:69-73 | reusing the key of a lookup of the same entity writes where recomputing would |
| CacheResults.QueryKeyReuseAgrees | src/Cache/CacheResults.php:88-92 | reusing the key of a lookup of the same query writes under that query's key |
| CacheResults.EntityWriteKeepsQueryEntries | src/Cache/CacheResults.php:67-75 | an entity write under its own key, or under the reused key of a lookup of the same entity, leaves every query's cached results unchanged |
| CacheResults.QueryWriteKeepsEntityEntries | src/Cache/CacheResults.php:86-94 | corrected, a query write leaves every entity's cached data unchanged |
| CacheResults.EntityWriteAfterQueryLookup | src/Cache/CacheResults.php:69-73 | the reused key is the latest lookup's whatever its kind: an entity write after a query lookup goes under the query key, not the entity's |
| CacheResults.EntityReadAfterWriteThrows | src/Cache/CacheResults.php:41-46 | as written, reading back what `setEntityCache` stored, or a miss, raises a TypeError |
| CacheResults.EntityCacheRoundTrip | src/Cache/CacheResults.php:41-76 | corrected, an entity lookup after an entity write returns the data written |
| CacheResults.QueryWriteFallbackThrows | src/Cache/CacheResults.php:91 | as written, the write throws exactly when no truthy key is reused, so always on a fresh helper |
| CacheResults.QueryCacheRoundTrip | src/Cache/CacheResults.php:54-94 | corrected, a query lookup after a query write returns the data written |
| CachedSelectQuery.CachedSelectQuery.constructor | src/QueryBuilder/CachedSelectQuery.php:12-39 | the rows are stored; the cursor starts finished at index 0, format `entity`, no entity class |
| CachedSelectQuery.CachedSelectQuery.SetFetchDataFormat | src/QueryBuilder/CachedSelectQuery.php:45-49 | changes only the format and returns the same object |
| CachedSelectQuery.CachedSelectQuery.SetEntityClass | src/QueryBuilder/QueryAbstract.php:51-55 | the inherited setter changes only the entity class and returns the same object |
| CachedSelectQuery.CachedSelectQuery.Fetch | src/QueryBuilder/CachedSelectQuery.php:65-84 | the new cursor and the row are those of the step function: restart when finished, row and advance when present, null and finish when absent |
| CachedSelectQuery.CachedSelectQuery.FetchOne | src/QueryBuilder/CachedSelectQuery.php:54-60 | returns row 0 (wrapped as the mode says) or null, whatever the cursor was, and leaves the cursor finished |
| CachedSelectQuery.CachedSelectQuery.FetchAll | src/QueryBuilder/CachedSelectQuery.php:89-106 | every row in order: as entities under keys 0, 1, … in entity mode, as the rows under their own keys otherwise; the cursor is reset and finished |
| CachedSelectQuery.CachedSelectQuery.FetchSingleScalarResult | src/QueryBuilder/CachedSelectQuery.php:111-119 | the first value of row 0 when that row is a non-empty array, null in every other case |
| CachedSelectQuery.FetchStep | src/QueryBuilder/CachedSelectQuery.php:65-84 | one `fetch`: the cursor is finished exactly when nothing is returned; a returned row is the one under the index just passed, from 0 when the cursor was finished; a miss leaves the index on the absent row |
| CachedSelectQuery.FinishedCursorRestarts | src/QueryBuilder/CachedSelectQuery.php:67-70 | a finished cursor, fresh ones included, reads row 0 next wherever its index was |
| CachedSelectQuery.FetchesInOrder | src/QueryBuilder/CachedSelectQuery.php:72-74 | successive fetches return the present rows j, j+1, … in order and advance the index by one each |
| CachedSelectQuery.FetchesFromStart | src/QueryBuilder/CachedSelectQuery.php:65-79 | from a fresh or finished cursor, n fetches return rows 0 … n-1 in order |
| CachedSelectQuery.PastEndRestarts | src/QueryBuilder/CachedSelectQuery.php:80-83 | past the last row a fetch returns null and finishes; the next one starts again at row 0 |
| CachedSelectQuery.ListReplay | src/QueryBuilder/CachedSelectQuery.php:65-84 | over a list of n rows, n fetches return every row in order and fetch n+1 returns null and leaves the cursor finished |
| Managers.Manager.constructor | src/EntityManager/Managers.php:40-44 | a manager keeps its class and the connection, repository and entity manager it is given |
| Managers.Managers.constructor | src/EntityManager/Managers.php:10-24 | the memo starts empty; the connection is stored |
| Managers.Managers.LoadAndGetManager | src/EntityManager/Managers.php:33-46 | as written: the memoised manager if any, else a fresh manager of the chosen class with the facade's connection and the given repository and entity manager; the memo is not written |
| Managers.Managers.LoadAndGetManagerMemoised | src/EntityManager/Managers.php:33-46 | corrected: the same choice, and a manager built on a miss is stored under the requested name, so the memo then yields it |
| Managers.Resolve | src/EntityManager/Managers.php:33-46 | the memo answers exactly when it holds the requested name; otherwise the class built is an existing one or DefaultManager |
| Managers.MemoWins | src/EntityManager/Managers.php:35-37 | a memoised manager is returned whatever classes exist |
| Managers.ChainOrder | src/EntityManager/Managers.php:39-45 | without a memo hit: the user class if it exists, else the default class if it exists, else DefaultManager; resolution never fails |
| Managers.ClassNamesCompareLoosely | src/EntityManager/Managers.php:39-41 | class lookup ignores ASCII case and a leading backslash |
| Managers.TwoCallsAsWritten | src/EntityManager/Managers.php:33-46 | as written, two calls on a fresh facade return two different objects |
| Managers.TwoCallsMemoised | src/EntityManager/Managers.php:33-46 | memoised, two calls return the same object |
| UpdateQuery.RenamedKeyIsString | src/QueryBuilder/UpdateQuery.php:23 | a renamed field is always the string key `UPDATE_VALUE_` followed by the field name |
| UpdateQuery.RenamedKeysDiffer | src/QueryBuilder/UpdateQuery.php:22-24 | distinct field names get distinct renamed keys |
| UpdateQuery.RenamedWellFormed | src/QueryBuilder/UpdateQuery.php:22-24 | the renamed array has one entry per field, with distinct valid keys |
| UpdateQuery.RenamedLookup | src/QueryBuilder/UpdateQuery.php:22-24 | a field's value is found under its renamed key, and only there |
| UpdateQuery.Renamed | src/QueryBuilder/UpdateQuery.php:22-24 | `$newFieldsToUpdate`: one entry per field, each field's value in the field's position |
| UpdateQuery.RenameFields | src/QueryBuilder/UpdateQuery.php:19-24 | the loop assigns each field, value unchanged and in order, under its renamed key |
| UpdateQuery.NewAsWritten | src/QueryBuilder/UpdateQuery.php:17-28 | as written, construction throws a TypeError whatever the arguments: the connection fails either UpdateQuery's `DBConnection` or QueryAbstract's `\PDO` parameter type |
| UpdateQuery.UpdateQuery.constructor | src/QueryBuilder/UpdateQuery.php:17-28 | corrected (the parent accepts the DBConnection): the query stores the parameters united with the renamed fields, the given collaborators, and no entity class |
| UpdateQuery.UpdateParameters | src/QueryBuilder/UpdateQuery.php:28 | `$parameters + $newFieldsToUpdate`: the parameters come first and unchanged, followed by at most one entry per field |
| UpdateQuery.UpdateParametersLookup | src/QueryBuilder/UpdateQuery.php:28 | the original entries come first and unchanged; a renamed field is visible exactly when no parameter has its name |
| UpdateQuery.UpdateParametersKeepOriginals | src/QueryBuilder/UpdateQuery.php:28 | every original parameter reads as before |
| UpdateQuery.NoFieldsNoChange | src/QueryBuilder/UpdateQuery.php:17-28 | with no fields to update the parameters pass through unchanged |
| UpdateQuery.NoClashAppendsAll | src/QueryBuilder/UpdateQuery.php:28 | with no name clash, the parameters are followed by every renamed field |
| UpdateQuery.UpdateParametersWellFormed | src/QueryBuilder/UpdateQuery.php:28 | the stored parameters are again a well-formed array |
| QueryAbstract.PdoParameter | src/QueryBuilder/QueryAbstract.php:39 | the declared type `\PDO $pdo` admits exactly a PDO; a DBConnection raises a TypeError |
| QueryAbstract.DBConnectionParameter | src/QueryBuilder/UpdateQuery.php:17 | the declared type `DBConnection $DBConnection` admits exactly a DBConnection; a PDO raises a TypeError |
| QueryAbstract.QueryAbstract.constructor | src/QueryBuilder/QueryAbstract.php:39-45 | stores its four arguments; the entity class stays null |
| QueryAbstract.QueryAbstract.SetEntityClass | src/QueryBuilder/QueryAbstract.php:51-55 | changes only the entity class and returns the same object |
| QueryAbstract.PdoError | src/QueryBuilder/QueryAbstract.php:60-67 | a raised error is a RuntimeException whose message is the string of entry 2, or `Unknown error` without it, and whose code is `(int)` of entry 1 |
| QueryAbstract.PdoErrorRaisesOn | src/QueryBuilder/QueryAbstract.php:63 | an error is raised exactly when the first entry under key 1 is truthy |
| QueryAbstract.SuccessRaisesNothing | src/QueryBuilder/QueryAbstract.php:60-67 | the `errorInfo()` of a successful statement raises nothing |
| QueryAbstract.DriverErrorRaised | src/QueryBuilder/QueryAbstract.php:63-65 | a MySQL driver error is raised with its message and code |
| QueryAbstract.CodeOnlyError | src/QueryBuilder/QueryAbstract.php:64-65 | a code without message gives `Unknown error`; a code given as a decimal string comes back as that number |
| QueryAbstract.FalsyCodeRaisesNothing | src/QueryBuilder/QueryAbstract.php:63 | a code of 0, "0", "", null or false never raises |
| Emitters.Lcfirst | src/Generator/EntityManagerGenerator/EntityManagerGenerator.php:554 | same length, first character lower-cased, the rest unchanged |
| Emitters.JoinStep | src/Generator/EntityManagerGenerator/EntityManagerGenerator.php:555 | appending `(i > 0 ? sep : '') . x` to an accumulated join is the join of one piece more |
| Emitters.Alias | src/Generator/EntityManagerGenerator/EntityManagerGenerator.php:594-602 | `getTableShortAlias`: at most one character per `_` segment |
| Emitters.Split | src/Generator/EntityManagerGenerator/EntityManagerGenerator.php:597 | `explode('_', …)` yields at least one segment |
| Emitters.SplitJoin | src/Generator/EntityManagerGenerator/EntityManagerGenerator.php:597 | joining the segments with `_` gives the table name back |
| Emitters.SplitSegments | src/Generator/EntityManagerGenerator/EntityManagerGenerator.php:597 | no segment contains `_` |
| Emitters.AliasUnderscore | src/Generator/EntityManagerGenerator/EntityManagerGenerator.php:594-602 | the alias of `a_b` is the alias of `a` followed by the alias of `b` |
| Emitters.AliasOfWord | src/Generator/EntityManagerGenerator/EntityManagerGenerator.php:594-602 | a name without `_` is one segment; its alias is its first character |
| Emitters.AliasOfTwoWords | src/Generator/EntityManagerGenerator/EntityManagerGenerator.php:594-602 | `w1_w2` aliases to the two initials |
| Emitters.AliasOfDoubledUnderscore | src/Generator/EntityManagerGenerator/EntityManagerGenerator.php:597-600 | an empty segment contributes nothing: `a__b` aliases like `a_b` |
| Emitters.PiecesAt | src/Generator/EntityManagerGenerator/EntityManagerGenerator.php:549-560 | piece k of every list is part k's own piece, in index order |
| Emitters.FinderStep | src/Generator/EntityManagerGenerator/EntityManagerGenerator.php:555-559 | one part more extends each of the finder's four accumulated lists by that part's piece |
| Emitters.ManagerStep | src/Generator/EntityManagerGenerator/EntityManagerGenerator.php:485-486 | one part more extends the manager's declaration and forwarding lists by that part's piece |
| Emitters.MethodNameStep | src/Generator/EntityManagerGenerator/EntityManagerGenerator.php:553 | the name starts as `findBy` and gains `And` (from the second column on) and the camel-cased column per part |
| Emitters.MethodNameExample | src/Generator/EntityManagerGenerator/EntityManagerGenerator.php:483 | `first_name`, `last_name` give `findByFirstNameAndLastName` |
| Emitters.ParamRendering | src/Generator/EntityManagerGenerator/EntityManagerGenerator.php:555-562 | non-null date hinted `\DateTime`, nullable date unhinted, other columns by type; ` = NULL` exactly for nullable parts; the list ends with the `$useNamedParameters` flag |
| Emitters.DateBinding | src/Generator/EntityManagerGenerator/EntityManagerGenerator.php:558-559 | a date column with a format is bound through `->format(...)` in both binding lists |
| Emitters.NamedEntryAt | src/Generator/EntityManagerGenerator/EntityManagerGenerator.php:558-559 | the named entry of part k binds, under its parameter name, the value positional piece k binds |
| Emitters.RepositoryFinder | src/Generator/EntityManagerGenerator/EntityManagerGenerator.php:541-579 | the finder of one non-empty index: its name always starts with `findBy` |
| Emitters.ManagerFinder | src/Generator/EntityManagerGenerator/EntityManagerGenerator.php:473-506 | a manager method has the name and parameter list of the repository finder of the same index |
| Emitters.RepositoryFinders | src/Generator/EntityManagerGenerator/EntityManagerGenerator.php:536-570 | the finders of a table: at most one per index |
| Emitters.ManagerMethods | src/Generator/EntityManagerGenerator/EntityManagerGenerator.php:467-498 | the manager's methods: at most one per index |
| Emitters.ManagerAndRepositoryAgree | src/Generator/EntityManagerGenerator/EntityManagerGenerator.php:494-498 | manager and repository emit methods of the same names and parameters in the same order |
| Emitters.FindersDistinct | src/Generator/EntityManagerGenerator/EntityManagerGenerator.php:566-570 | no method name is emitted twice or after it was already created |
| Emitters.FindersComplete | src/Generator/EntityManagerGenerator/EntityManagerGenerator.php:536-570 | every non-empty index has its method name emitted or already created |
| Emitters.FirstIndexWins | src/Generator/EntityManagerGenerator/EntityManagerGenerator.php:566-570 | the first non-empty index with a given name is the one whose finder is emitted |
| Emitters.FindersStep | src/Generator/EntityManagerGenerator/EntityManagerGenerator.php:536-570 | the first index emits its finder unless it is empty or its name was created |
| Emitters.FindersFromIndexes | src/Generator/EntityManagerGenerator/EntityManagerGenerator.php:536-570 | every emitted finder is the finder of some non-empty index |
| Generator.Trim | src/Generator/EntityManagerGenerator/EntityManagerGenerator.php:111 | `trim($s, '\\')` leaves no backslash at either end |
| Generator.TrimSurrounded | src/Generator/EntityManagerGenerator/EntityManagerGenerator.php:111 | trimming removes exactly the surrounding backslashes |
| Generator.NamespacePatternAsWritten | src/Generator/EntityManagerGenerator/EntityManagerGenerator.php:113 | as written, `preg_match` with `$` and no `D` modifier: accepted text starts with a namespace character |
| Generator.PatternAcceptsTrailingNewline | src/Generator/EntityManagerGenerator/EntityManagerGenerator.php:111-113 | as written, the pattern accepts exactly the valid namespaces and those followed by one newline; `App\n` is accepted and `trim` keeps its newline |
| Generator.AcceptedNamespaceShape | src/Generator/EntityManagerGenerator/EntityManagerGenerator.php:111-114 | corrected, a stored namespace is non-empty, unframed by backslashes and free of newlines |
| Generator.EntityManagerGenerator.Init | src/Generator/EntityManagerGenerator/EntityManagerGenerator.php:10-53 | before the setters run every configured property is empty |
| Generator.EntityManagerGenerator.Create | src/Generator/EntityManagerGenerator/EntityManagerGenerator.php:67-89 | corrected namespace check: construction succeeds exactly when every directory and namespace check passes; then it stores them, namespaces trimmed; else it throws a RuntimeException |
| Generator.EntityManagerGenerator.SetEntityManagerDirectory | src/Generator/EntityManagerGenerator/EntityManagerGenerator.php:95-103 | an existing writable directory is stored; anything else throws and changes nothing |
| Generator.EntityManagerGenerator.SetEntityManagerNamespace | src/Generator/EntityManagerGenerator/EntityManagerGenerator.php:109-119 | corrected namespace check: the trimmed namespace is stored when valid; otherwise it throws and keeps the old one |
| Generator.EntityManagerGenerator.SetUserEntityRepositoryDirectory | src/Generator/EntityManagerGenerator/EntityManagerGenerator.php:128-136 | an existing directory is stored; anything else throws and changes nothing |
| Generator.EntityManagerGenerator.SetUserEntityRepositoryNamespace | src/Generator/EntityManagerGenerator/EntityManagerGenerator.php:142-152 | corrected namespace check: the trimmed namespace is stored when valid; otherwise it throws and keeps the old one |
| Generator.EntityManagerGenerator.SetUserManagerDirectory | src/Generator/EntityManagerGenerator/EntityManagerGenerator.php:160-168 | an existing directory is stored; anything else throws and changes nothing |
| Generator.EntityManagerGenerator.SetUserManagerNamespace | src/Generator/EntityManagerGenerator/EntityManagerGenerator.php:174-184 | corrected namespace check: the trimmed namespace is stored when valid; otherwise it throws and keeps the old one |
| Generator.EntityManagerGenerator.SetEntityNamespace | src/Generator/EntityManagerGenerator/EntityManagerGenerator.php:190-194 | the entity namespace is stored as given |
| Generator.EntityManagerGenerator.TableShortAlias | src/Generator/EntityManagerGenerator/EntityManagerGenerator.php:594-602 | the loop yields the first character of every `_` segment |
| Generator.EntityManagerGenerator.RenderPart | src/Generator/EntityManagerGenerator/EntityManagerGenerator.php:550-559 | one part's parameter declaration, WHERE clause and bindings |
| Generator.EntityManagerGenerator.RenderFinderPart | src/Generator/EntityManagerGenerator/EntityManagerGenerator.php:549-560 | one pass of the loop extends the five accumulated strings by part iP |
| Generator.EntityManagerGenerator.RenderFinderParts | src/Generator/EntityManagerGenerator/EntityManagerGenerator.php:542-560 | the loop builds the method name and the joined lists over all parts |
| Generator.EntityManagerGenerator.RenderFinder | src/Generator/EntityManagerGenerator/EntityManagerGenerator.php:541-579 | the finder of one non-empty index, its alias taken from the first part's table |
| Generator.EntityManagerGenerator.RenderManagerPart | src/Generator/EntityManagerGenerator/EntityManagerGenerator.php:478-488 | one pass of the loop extends the three accumulated strings by part iP |
| Generator.EntityManagerGenerator.RenderManagerParts | src/Generator/EntityManagerGenerator/EntityManagerGenerator.php:473-492 | the loop builds the method name, declarations and forwarded arguments |
| Generator.EntityManagerGenerator.RenderManagerMethod | src/Generator/EntityManagerGenerator/EntityManagerGenerator.php:473-506 | the manager method of one non-empty index |
| Generator.EntityManagerGenerator.GenerateDynamicRepository | src/Generator/EntityManagerGenerator/EntityManagerGenerator.php:520-588 | the default repository: finders of the non-empty indexes in order, first of each name |
| Generator.EntityManagerGenerator.GenerateDynamicManager | src/Generator/EntityManagerGenerator/EntityManagerGenerator.php:439-513 | the default manager: its imports and one method per emitted name, same skip and de-duplication |
| Generator.EntityManagerGenerator.GenerateDynamicRepositories | src/Generator/EntityManagerGenerator/EntityManagerGenerator.php:297-344 | the namespace line, one user `use` and one getter per table, in table order |
| Generator.EntityManagerGenerator.GenerateDynamicManagers | src/Generator/EntityManagerGenerator/EntityManagerGenerator.php:350-430 | the namespace line, one user `use` and one getter per table, in table order |
| Generator.EntityManagerGenerator.GenerateDynamicEntityManager | src/Generator/EntityManagerGenerator/EntityManagerGenerator.php:253-260 | the namespace is declared exactly when it is truthy |
| Generator.GettersAt | src/Generator/EntityManagerGenerator/EntityManagerGenerator.php:297-406 | getter i and `use` line i of both facades are those of table i |
| Generator.FacadesWireUp | src/Generator/EntityManagerGenerator/EntityManagerGenerator.php:387-403 | manager getter i calls repository getter i and falls back on the default manager written for table i, which imports the matching default repository |
| Generator.DefaultClassesAgree | src/Generator/EntityManagerGenerator/EntityManagerGenerator.php:467-498 | a table's default manager has one method per finder of its default repository, same names and parameters |
| Generator.ValidNamespaceDeclared | src/Generator/EntityManagerGenerator/EntityManagerGenerator.php:258-259 | a validated namespace is always declared, except `0`, which PHP reads as false |

## Left out

- `EntityManagerGenerator::generate`: file writes, glob/unlink/mkdir and the table-structure retriever are I/O. The classes it writes are modelled as values.
- The byte layout of the generated PHP (docblocks, `use` lines of framework classes, indentation) is not modelled; only the structured signatures are.
- `SnakeToCamelCaseStringConverter::convert` is not part of this model; it is an uninterpreted function held by the generator.
- `is_dir` and `is_writable` are a `FileSystem` parameter: the sets of existing directories and of writable paths.
- Generator.ValidNamespace: the pattern `[a-z0-9_\\]+` also admits namespaces starting with a digit or holding `\\\\`; the model keeps the character class as written.
- Php.IntCast: floats and exponent forms of numeric strings (such as `1e3`) are not modelled.
- Fnv.Byte: a character stands for one byte; characters above 255 are taken modulo 256, as multibyte UTF-8 is not modelled.
- CacheKey.PrintR: only flat arrays of null, bool, int and string scalars; nested arrays and floats are not modelled.
- CacheResults.CacheResults.SetEntityCache: the PSR-16 `set` always succeeds, so the method returns true; a failing cache backend is not modelled.
- CacheResults.CacheResults.SetQueryResultsCache: the same; a failing cache backend is not modelled.
- CachedSelectQuery.Fetched: `new $entityClass($row)` is an opaque wrapper of the class name and the row; entity hydration is not modelled.
- Class inheritance is modelled by composition: UpdateQuery holds its QueryAbstract part; CachedSelectQuery carries the inherited `entityClass` field.
- `QueryAbstract::selectDatabase`, `UpdateQuery::execute` and the PDO statement are database I/O and a foreign callable.
- QueryAbstract.PdoError: it returns the exception it would throw; the caller's unwinding is not modelled.
- QueryAbstract.QueryAbstract.constructor: models the constructor's body; the check of its `\PDO $pdo` parameter type is QueryAbstract.PdoParameter, which UpdateQuery.NewAsWritten applies.
- The same DBConnection-for-`\PDO` mismatch lies outside this model: `new SelectQuery` at src/EntityManager/EntityManager.php:193 reaches QueryAbstract's `\PDO $pdo`, and the generated DynamicEntityManager (EntityManagerGenerator.php:282-286) and DynamicManagers (:381-383) pass a `\PDO` to parents declaring `DBConnection`.
- UpdateQuery.UpdateQuery.constructor: the untyped `$parameters` is taken to be an array, as every caller passes one.
- Managers.Manager: manager classes are represented by their class name and constructor arguments; user and generated manager classes are not modelled.

## Findings

| source | as written | input that shows it | evidently intended | confidence | as-written member | corrected member |
|---|---|---|---|---|---|---|
| src/Cache/CacheResults.php:41 | `getEntityCachedData(...): bool` returns the cached value through a `bool` return type | a cache miss (null) or any array stored by `setEntityCache`: TypeError | return type `mixed`, the cached value itself | not executed | CacheResults.CacheResults.GetEntityCachedData, CacheResults.EntityReadAfterWriteThrows | CacheResults.CacheResults.GetEntityCachedValue, CacheResults.EntityCacheRoundTrip |
| src/Cache/CacheResults.php:91 | the fallback calls `getEntityCacheKey($tableName, $sqlQuery, $sqlParams)` with a string for the `array` parameter | any call on a fresh helper, or with `$useLastHashedKey` false: TypeError | `getQueryResultCacheKey($tableName, $sqlQuery, $sqlParams)` with array parameters | not executed | CacheResults.CacheResults.SetQueryResultsCacheAsWritten, CacheResults.QueryWriteFallbackThrows | CacheResults.CacheResults.SetQueryResultsCache, CacheResults.QueryCacheRoundTrip |
| src/EntityManager/Managers.php:39-45 | a newly built manager is returned but never stored in `$this->loadedManagers` | two calls of the same accessor on a fresh facade return two distinct managers | store the manager under `$class` before returning it | not executed | Managers.Managers.LoadAndGetManager, Managers.TwoCallsAsWritten | Managers.Managers.LoadAndGetManagerMemoised, Managers.TwoCallsMemoised |
| src/Generator/EntityManagerGenerator/EntityManagerGenerator.php:113-178 | the three namespace setters (:113, :146, :178), and so the constructor that calls them, match `/^([a-z0-9_\\\]+)$/i`, whose `$` lacks the `D` modifier | the namespace `"App\n"` is accepted and stored with its newline | accept only namespace characters (the `D` modifier or `\z`) | not executed | Generator.NamespacePatternAsWritten, Generator.PatternAcceptsTrailingNewline | Generator.EntityManagerGenerator.SetEntityManagerNamespace, Generator.EntityManagerGenerator.SetUserEntityRepositoryNamespace, Generator.EntityManagerGenerator.SetUserManagerNamespace, Generator.EntityManagerGenerator.Create, Generator.AcceptedNamespaceShape |
| src/QueryBuilder/UpdateQuery.php:28 | `parent::__construct($DBConnection, …)` passes a DBConnection to QueryAbstract's `\PDO $pdo` (src/QueryBuilder/QueryAbstract.php:39); DBConnection extends nothing | any `new UpdateQuery(…)`, e.g. from `EntityManager::updateQuery` (src/EntityManager/EntityManager.php:224): TypeError | the parent accepts the DBConnection | not executed | UpdateQuery.NewAsWritten | UpdateQuery.UpdateQuery.constructor, UpdateQuery.UpdateParametersLookup |
