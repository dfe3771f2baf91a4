# Users repository statement builders, in Dafny

This project models the Postgres data-access layer of a small users service
(`internal/repository/postgres/users_repository.go`):

- `createFilteringQuery` compiles a pagination window (`offset`, `limit`) and a
  filter (column name → list of accepted values) into one parameterised SELECT.
  The window is cut as `OFFSET $1 LIMIT $2` in a subquery. Each usable filter
  entry becomes a parenthesised OR group of `field = $k` comparisons. The
  groups are joined with AND, and ` ORDER BY id` closes the statement.
- `Update` refuses an empty update map and any map with the exact key `id`. Otherwise it
  builds `UPDATE USERS SET f1 = $1, ..., fn = $n WHERE id = $(n+1)`.
- `GetFiltered` collects the scanned rows in cursor order. `GetById` looks a
  user up through the filter `{id: [id]}` and returns the first match, or the
  zero user.

The builders are imperative methods (`CreateFilteringQuery`, `AppendGroup`,
`AppendComparisons`, `BuildUpdate`). Their loops append to the text and the
parameter list while counting placeholders. Each one is proved to produce a
specification function's result. For the SELECT that function is a plan: one
list of `Binding(field, placeholder)` per group, plus a renderer. The lemmas
then prove what the plan means:

- placeholder `$k` names the k-th parameter;
- a row satisfies the WHERE clause exactly when, for every kept entry, its
  column is not NULL and equals one of the entry's values (an AND of ORs);
- on a selected row, the UPDATE performs exactly the requested assignments.

The database is a parameter. `store: Statement -> Cursor` answers a query with
an error or a sequence of scanned rows. `exec: Statement -> Option<string>`
answers an update with nil or an error message.

Modules:

- `Format` (format.dfy): decimal placeholder numbers.
- `Sql` (sql.dfy): values, bindings, joining, `TrimSuffix` and counting.
- `FilterQuery` (filter_query.dfy): the SELECT builder and its meaning.
- `UpdateStatement` (update_statement.dfy): the UPDATE builder and its meaning.
- `UsersRepository` (users_repository.dfy): `GetFiltered`, `GetById` and `Update`.

Go maps (the filter and the update map) are sequences of entries, which fixes
one iteration order. Go's `any` values are the datatype `Sql.Value`, which the
builders carry but never inspect.

## Model

| member | source | states |
|---|---|---|
| Format.Decimal | internal/repository/postgres/users_repository.go:44 | `%d` of a placeholder counter is a non-empty string of digits with no leading zero |
| Format.ParseDecimalOfDecimal | internal/repository/postgres/users_repository.go:44 | reading the rendered numeral back gives the placeholder number |
| Format.DecimalInjective | internal/repository/postgres/users_repository.go:44 | two placeholders have the same text exactly when they have the same number |
| Sql.TrimSuffix | internal/repository/postgres/users_repository.go:49 | `strings.TrimSuffix`: when the text ends with the suffix, the result plus the suffix is the text; otherwise the text is unchanged |
| Sql.Column | internal/repository/postgres/users_repository.go:44 | the column an interpolated name resolves to: PostgreSQL's ASCII lower-casing of an unquoted identifier, which leaves lower-case names as they are |
| Sql.TrimSuffixOfAppended | internal/repository/postgres/users_repository.go:49 | trimming a suffix that was just appended gives back the text before it |
| Sql.TerminatedIsJoinedThenSep | internal/repository/postgres/users_repository.go:43-49 | a non-empty list with a separator after every item equals the list joined by the separator, plus one separator |
| Sql.DollarsInBinding | internal/repository/postgres/users_repository.go:44 | one ` field = $k` holds exactly one `$` when the field name holds none |
| Sql.DollarsInJoin | internal/repository/postgres/users_repository.go:44 | when no field name and not the separator holds a `$`, a joined list of n comparisons holds exactly n `$` |
| Sql.JoinHasNoTrailingSeparator | internal/repository/postgres/users_repository.go:49 | a non-empty joined list never ends with ` OR` or `,` |
| FilterQuery.CreateFilteringQuery | internal/repository/postgres/users_repository.go:22-56 | the emitted text is `Render(Plan(filter))` and the parameters are `[offset, limit]` followed by the values of the kept entries |
| FilterQuery.AppendEntry | internal/repository/postgres/users_repository.go:34-51 | one turn of the outer loop: an entry with an empty name or no values changes nothing; any other appends its group and values and advances the counter by their number |
| FilterQuery.EntryStep | internal/repository/postgres/users_repository.go:34-51 | one turn of the outer loop extends the text by the next entry's group, the parameters by its values and the counter accordingly |
| FilterQuery.AppendGroup | internal/repository/postgres/users_repository.go:42-50 | a kept entry appends ` AND (` + its comparisons joined by ` OR` + `)`; its values follow the parameters; the counter advances by the number of values |
| FilterQuery.AppendComparisons | internal/repository/postgres/users_repository.go:43-47 | the inner loop appends ` field = $k OR` for k = first, first+1, ...; it appends the values in order and advances the counter by their number |
| FilterQuery.KeptMembers | internal/repository/postgres/users_repository.go:34-37 | an entry gets a group exactly when it is in the filter and not skipped |
| FilterQuery.PlaceholdersNameTargets | internal/repository/postgres/users_repository.go:43-47 | group i belongs to the i-th kept entry; its j-th comparison tests that entry's column against a placeholder, `$3` or later, whose parameter is the entry's j-th value |
| FilterQuery.ComparisonsFlattenPlan | internal/repository/postgres/users_repository.go:34-51 | the comparisons of the plan, in text order, are those the entries add one after another |
| FilterQuery.NumberedUpTo | internal/repository/postgres/users_repository.go:33-46 | after any number of entries, the comparisons so far use `$3, $4, ...` in order, one per value bound so far |
| FilterQuery.PlaceholdersAreConsecutive | internal/repository/postgres/users_repository.go:33-46 | the comparisons use `$3, $4, ...` in text order, one per parameter after the first two |
| FilterQuery.ParamCount | internal/repository/postgres/users_repository.go:30-45 | the parameters start with `[offset, limit]`; their number is 2 plus the number of values in kept entries |
| FilterQuery.OnlySkippedEntries | internal/repository/postgres/users_repository.go:24-53 | a filter with only skipped entries (the empty one included) gives the windowed SELECT plus ` ORDER BY id`, with parameters `[offset, limit]` |
| FilterQuery.StatementFrame | internal/repository/postgres/users_repository.go:24-53 | every statement starts with the windowed SELECT and ends with ` ORDER BY id` |
| FilterQuery.GroupsClosed | internal/repository/postgres/users_repository.go:49-50 | no group of the plan ends with a dangling ` OR` |
| FilterQuery.GroupMeaning | internal/repository/postgres/users_repository.go:43-49 | a group holds on a row exactly when the column the entry names (case-folded as PostgreSQL does) is not NULL and equals one of the entry's values; a NULL value matches nothing |
| FilterQuery.PlanMeaning | internal/repository/postgres/users_repository.go:42-50 | a row satisfies the WHERE clause exactly when, for every entry that is not skipped, the entry's (case-folded) column is not NULL and equals one of its values (AND of ORs), in both directions |
| FilterQuery.SelectMeansFilter | internal/repository/postgres/users_repository.go:22-56 | over any window, the statement keeps exactly the rows the filter describes (values compared as tagged data, NULL never equal), in window order; with nothing to filter on it keeps the whole window |
| FilterQuery.NullMatchesNothing | internal/repository/postgres/users_repository.go:42-47 | a filter `{field: [null]}` keeps no row, not even rows whose column is NULL |
| UpdateStatement.Message | internal/repository/postgres/users_repository.go:112-117 | each refusal has its own non-empty error text |
| UpdateStatement.BuildUpdate | internal/repository/postgres/users_repository.go:111-134 | an empty map is refused as "no updates"; a map with the exact key `id` is refused as "field id is not updatable"; any other map yields `UpdateHead + Join(assignments, ",") + " WHERE id = $(n+1)"` with the values, then the id |
| UpdateStatement.AssignmentStep | internal/repository/postgres/users_repository.go:124-126 | an entry that is not the last appends ` field = $k,` |
| UpdateStatement.LastAssignment | internal/repository/postgres/users_repository.go:124-127 | the last entry appends ` field = $n` with no comma, which completes the joined SET clause |
| UpdateStatement.Rejections | internal/repository/postgres/users_repository.go:112-117 | the builder refuses exactly the empty map and maps with the exact key `id`, with the source's two messages |
| UpdateStatement.PlaceholdersNameValues | internal/repository/postgres/users_repository.go:120-134 | there are n+1 parameters; `$i` sets the i-th entry's column to the i-th value; `$(n+1)` holds the id |
| UpdateStatement.UpdateShape | internal/repository/postgres/users_repository.go:123-133 | the SET clause has no trailing comma; when no column name holds a `$`, the statement holds one `$` per parameter |
| UpdateStatement.AssignMeansIntended | internal/repository/postgres/users_repository.go:123-134 | the WHERE clause selects exactly the row with the given id; on any row, the SET assignments give the row the caller asked for |
| UpdateStatement.IntendedKeepsId | internal/repository/postgres/users_repository.go:115-117 | when no key names column `id` in any letter case, the updated row keeps its id |
| UpdateStatement.IntendedSetsEachField | internal/repository/postgres/users_repository.go:123-131 | when the keys name distinct columns, every listed column gets its own new value and every other column keeps its value |
| UpdateStatement.CaseVariantIdPassesGuard | internal/repository/postgres/users_repository.go:115-131 | the key `ID` passes the guard, and the built statement overwrites the selected row's id with the new value |
| UpdateStatement.CaseVariantIdText | internal/repository/postgres/users_repository.go:121-133 | the key `ID` yields `UPDATE USERS SET ID = $1 WHERE id = $2` with parameters `[v, id]` |
| UpdateStatement.GuardedUpdateStatementOf | internal/repository/postgres/users_repository.go:112-117 | a guard that refuses every key naming column `id`: whatever it builds is what the source builds, and it agrees with the source when every key is already lower case |
| UpdateStatement.GuardedKeepsId | internal/repository/postgres/users_repository.go:115-133 | under that guard, every built statement keeps the selected row's id |
| UsersRepository.FirstFailure | internal/repository/postgres/users_repository.go:69-73 | the position of the first row that fails to scan: every row before it scans, and the row there does not (or it is the row count) |
| UsersRepository.GetFiltered | internal/repository/postgres/users_repository.go:60-78 | the result is `FetchResult` of the store's answer to `FilteringStatement(offset, limit, filter)` |
| UsersRepository.GetById | internal/repository/postgres/users_repository.go:80-94 | the result is `LookupResult` of the store's answer to the statement for the filter `{id: [id]}` |
| UsersRepository.Update | internal/repository/postgres/users_repository.go:111-142 | a refused map yields its message; a built statement yields the store's answer to it |
| UsersRepository.FetchMeaning | internal/repository/postgres/users_repository.go:62-77 | nil users exactly when there is an error; a query error is passed through; users are returned exactly when every row scans, one per row and in cursor order; otherwise the first scan error is returned; an empty cursor gives an empty non-nil slice |
| UsersRepository.LookupMeaning | internal/repository/postgres/users_repository.go:84-93 | on error, the zero user with that error; with no rows, the zero user and no error; otherwise the first row's user |
| UsersRepository.IdStatement | internal/repository/postgres/users_repository.go:81-84 | the lookup sends the windowed SELECT + ` AND ( id = $3)` + ` ORDER BY id` with parameters `[offset, limit, id]` |
| UsersRepository.IdFilterMeaning | internal/repository/postgres/users_repository.go:81-83 | a user satisfies the lookup's filter exactly when it has the requested id |
| UsersRepository.UpdateMeaning | internal/repository/postgres/users_repository.go:111-141 | an empty map gives "no updates" and a map with the exact key `id` gives "field id is not updatable", whatever the store; otherwise the result is the store's answer to the built statement |
| UsersRepository.SelectById | internal/repository/postgres/users_repository.go:81-84 | over a window of users, the lookup's statement keeps exactly the users with that id, in window order |
| UsersRepository.NoneWithId | internal/repository/postgres/users_repository.go:89-93 | the lookup keeps no user exactly when no user of the window has that id |
| UsersRepository.FirstWithId | internal/repository/postgres/users_repository.go:89-93 | when some user is kept, the first kept user sits at the first position of the window that holds the id |
| UsersRepository.GetByIdFindsFirst | internal/repository/postgres/users_repository.go:80-94 | against a store that answers with the matching users of a window, `GetById` returns the first user of the window with the id, or the zero user when none has it, and no error |
| UsersRepository.NameSurnameScenario | internal/repository/postgres/users_repository.go:22-56 | filtering names {Artem, Dmitry} and surnames {Filin, Okunev} over Artem Filin, Dmitry Okunev and Igor Filin keeps the first two |

## Left out

- Executing statements is left out. `db.QueryContext`, `db.ExecContext`, `rows.Scan` and the `context.Context` cancellation are replaced by the `store` and `exec` parameters. As a result, `Create`, `Delete` and `Exists` (lines 97-154) are not modelled. Each sends a fixed statement and maps the answer directly. `Create` returns `-1` with the error when the scan fails. `Exists` reports true on any error other than `sql.ErrNoRows`, including a failed query. It also reports true when the row exists, because `Scan()` with no destinations then fails.
- Only one part of the SQL engine is modelled: how a WHERE clause of `column = $k` comparisons and a SET clause decide on one row (`Holds`, `Assign`). That includes NULL and the folding of unquoted names to lower case. `Select` takes the window as given. The source cuts the window in a subquery without `ORDER BY`, so which rows fall in `OFFSET $1 LIMIT $2` is up to the engine. The outer ` ORDER BY id` sorting of the kept rows is not modelled either. The model proves window order.
- FilterQuery.GroupMeaning: a name that is no column of `users` makes PostgreSQL reject the whole statement. In the model such a group is false on every row. Quoted names and names that are not plain identifiers are not modelled either; see the line on injection below. Values are compared as tagged data (`Str("25")` differs from `Int(25)`). The PostgreSQL driver sends each parameter as text, and PostgreSQL casts it to the column's type. So a string that parses to the column's value matches, and a string that does not parse (`"x"` for `age`) makes the statement fail. The model captures neither.
- FilterQuery.PlanMeaning: the same gaps hold, an unknown column and the cast of text parameters. The model reads the WHERE clause as false where PostgreSQL matches through the cast or reports an error.
- FilterQuery.SelectMeansFilter: the same gaps hold, an unknown column and the cast of text parameters. The model keeps no row where PostgreSQL returns an error instead of rows. The lemma also keeps the rows in window order. The statement's outer ` ORDER BY id` (line 53) returns them sorted by id, and the model does not sort. The subquery in `FROM` (line 26) has no alias, and PostgreSQL 15 and earlier reject every such statement ("subquery in FROM must have an alias"). The model follows servers from version 16, which accept it.
- UpdateStatement.AssignMeansIntended: PostgreSQL rejects the whole UPDATE in three cases where the model still applies `Assign` and adds or overwrites a key:
  - a key that names no column of `users`;
  - two keys that fold to one column (`name` and `Name`), where the model keeps the later value;
  - a value whose text does not cast to the column's type.

  The lemma holds only for updates that PostgreSQL accepts.
- Go's randomised map iteration is left out. The filter and the update map are sequences, so the model fixes one iteration order. Every property holds for every order.
- UpdateStatement.IntendedSetsEachField assumes the keys name distinct columns. A Go map has distinct keys, but `name` and `Name` fold to one column, and PostgreSQL rejects a SET clause that assigns a column twice. The model applies the later assignment instead. The builder itself does not need distinct columns.
- Column names are interpolated into the SQL text without checks (lines 44, 124). The model carries names as given and does not model injection. `UpdateStatement.UpdateShape` counts `$` only for names that hold none.
- `GetFiltered` never calls `rows.Err()` or `rows.Close()`. A cursor that stops early because of an error is therefore read as a shorter result. The `Cursor` datatype has no such iteration error, so the model does not show this.
- Go integers are unbounded here. `int64` ids and `int` offsets and limits do not wrap around. Values are not converted the way JSON decoding does (numbers become `float64`).
- The model does not track nil versus empty for the filter's value lists. An empty list and a nil list are both `[]`, and the source treats them the same (`len(targets) == 0`).
- HTTP handlers, middleware, the enricher, application startup and the test files are not part of this model.

## Findings

| source | as written | input that shows it | evidently intended | confidence | as-written member | corrected member |
|---|---|---|---|---|---|---|
| internal/repository/postgres/users_repository.go:115 | the guard refuses only the exact key `id` | `{"ID": v}` builds `UPDATE USERS SET ID = $1 WHERE id = $2`; PostgreSQL folds `ID` to `id` and overwrites the row's id | refuse every key that names column `id` ("field id is not updatable") | medium, not executed | UpdateStatement.CaseVariantIdPassesGuard | UpdateStatement.GuardedKeepsId |

`UsersRepository.Update` keeps the guard as written, so that it models the source. `UpdateStatement.GuardedUpdateStatementOf` is the corrected guard. It builds exactly what the source builds whenever it builds anything.
