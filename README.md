# pokemon-za core, modelled in Dafny

pokemon-za keeps a SQLite database of the Pokémon and moves of Pokémon
Legends Z-A and serves it through a small set of tools. This project
models the core of that system and proves properties of the model:

- **The database helpers** (`src/db.py`), in module `Db`:
  - the default database path and the connection path;
  - `PRAGMA table_info` read as a set of column names;
  - rows turned into dicts;
  - the `LIKE` pattern;
  - `execute_query` / `execute_one`.
- **The code sandbox** (`src/code_environment.py`), in module `CodeEnvironment`:
  - the allowlist of builtins;
  - the environment the snippet runs in;
  - the read-only URI;
  - the `sql` and `scalar` helpers;
  - what `run_user_code` returns;
  - the worker, which caps stdout and posts one message on a queue;
  - the supervisor, which gives the timeout, crash and relay outcomes.
- **The tool handlers** (`src/tools.py`), in modules `Tools`, `ToolsSearch` and `ToolsDetail`:
  - `_parse_sort`, `_select_existing_columns` and `_resolve`;
  - the WHERE clause and parameter building of `search_pokemons` and `search_moves`;
  - the limit and offset clamping;
  - the two detail lookups and how they split joined rows;
  - the shaping of the `run_code` answer.
- **The scraper's database writes and fetch flows** (`src/scrape_za.py`):
  - `ScrapeRecord`: normalising a scraped move record, and the SET list and UPDATE statement built from it;
  - `ScrapeTables`: the effects of the statements on the `moves` and `pokemon_moves` tables;
  - `ScrapeDb`: a class whose methods change those tables in place, as `merge_move_duplicates_by_name`, `update_move_record_cloud` and `migrate_moves_schema` do;
  - `ScrapeFlows`: the `view=pc` fallbacks and `critical_missing` of the three scrape functions.

## How the pieces fit

The modules share some general conventions:

- Python values are the datatype `PyValues.Value`.
- A dict is an insertion-ordered `seq<(string, Value)>`.
- An SQLite connection is a function `Db.Engine` from a statement and its parameters to result rows. Each row is a column-ordered sequence of `(name, value)` pairs in which a name may repeat; `dict(row)` follows `sqlite3.Row`, whose lookup by name matches ASCII names ignoring case and takes the first matching column.
- The functions that describe what the code should produce are proved about directly; the methods that build SQL text and parameter lists step by step are proved to produce exactly those functions.
- Every SQL text built is proved to hold as many `?` placeholders as it has parameters.

### Code sandbox

- The snippet is an `Env -> ExecResult` function.
- The host is a `Host`: the default path, and whether opening the read-only database fails.
- Whether the worker finishes, is still running at the deadline, or dies without a message is a `WorkerFate`.

### Scraper

The scraper's tables are sequences of rows in storage order. The model assumes three things about the schema; the code relies on them but does not create them:

- `moves.id` is the primary key.
- `moves.name` is UNIQUE.
- `pokemon_moves` is UNIQUE on `(pokemon_id, move_id, learn_method)`.

Under SQLite's UNIQUE rule NULLs are distinct: a NULL `name` never conflicts with another row, and neither does a NULL `learn_method`.

SQLite compares column names with ASCII letters case-folded, but `migrate_moves_schema` tests `col not in existing_cols` by exact spelling. On a legacy table with a column such as `Power`, the ALTER that adds `power` is refused with "duplicate column name". The resulting OperationalError ends the migration before its commit, and `run` does not catch it. `Migrate` returns the refused column together with the rows and statements of the partial migration, as the connection sees them when the error is raised.

## Model

| member | source | states |
|---|---|---|
| Db.PathJoin | src/db.py:9 | `os.path.join` of a directory and a name: the name alone after an empty directory, otherwise one `/` between them |
| Db.DefaultDbPath | src/db.py:7-10 | the `ZA_DB` variable when it is set, else `za.sqlite3` in the repository root |
| Db.ConnectionPath | src/db.py:13-14 | a non-empty given path wins; a missing or empty one falls back to the default |
| Db.TableColumns | src/db.py:33-35 | the set of names is exactly the `name` cells of the table_info rows |
| Db.RowsToDicts | src/db.py:38-39 | one dict per row, in row order, each the dict of its row |
| Db.BuildLike | src/db.py:42-45 | None stays None; otherwise the term wrapped in one `%` on each side |
| Db.BoundParams | src/db.py:53 | `tuple(params or [])`: None binds nothing; a given list binds exactly its items, in order |
| Db.ExecuteQuery | src/db.py:48-54 | every row the engine returns for the statement and its parameters (None as no parameters), as dicts, in order |
| Db.ExecuteOne | src/db.py:57-64 | None exactly when there is no row or the first row is empty; otherwise the dict of the first row |
| Db.ExecuteOneIsFirstOfQuery | src/db.py:53-64 | `execute_one` is the first dict of `execute_query`, or None when there is no non-empty first |
| PyValues.Set | src/db.py:39 | `d[k] = v`: a present key keeps its position and takes the new value, an absent one is appended; the keys stay distinct |
| PyValues.SameColumn | src/db.py:39 | a `sqlite3.Row` takes a name for a column when the two are equal, or both ASCII, of one length and equal letter by letter ignoring case |
| PyValues.RowGet | src/db.py:39 | `row[k]`, defined when some column matches `k`: the value of the first column that matches |
| PyValues.DictOver | src/db.py:39 | storing `row[k]` under each name in turn gives a dict with distinct keys, exactly the names stored |
| PyValues.RowToDict | src/db.py:39 | `dict(row)` walks `row.keys()` in order; it has distinct keys, exactly the row's column names, each at its first position |
| PyValues.RowToDictGet | src/db.py:39 | in `dict(row)` each name of the row holds `row[k]`, the value of the first column matching it ignoring ASCII case; any other name reads None |
| PyValues.RowToDictDistinct | src/db.py:39 | a row whose column names are pairwise distinct, even ignoring ASCII case, becomes a dict with the same entries in the same order |
| PyValues.RepeatedColumnKeepsFirst | src/db.py:39 | a row with two `id` columns gives `{"id": <first value>}` |
| PyValues.CaseVariantsReadFirst | src/db.py:39 | columns `ID` then `id` give a dict with both keys, each holding the first column's value |
| PyValues.LastValue | src/scrape_za.py:158 | the value of the rightmost pair with the name, None without one: what SQLite stores when one UPDATE assigns a column twice |
| PyValues.Get | src/tools.py:463-465 | `d.get(k)`: None when absent, else the value stored under the key |
| CodeEnvironment.SafeBuiltins | src/code_environment.py:32-54 | `_safe_builtins`: the nineteen allowlisted names, in source order (what they include and exclude: the next two rows) |
| CodeEnvironment.SafeBuiltinsIncludes | src/code_environment.py:32-54 | the allowlist has nineteen names, `print` and `len` among them |
| CodeEnvironment.SafeBuiltinsExcludes | src/code_environment.py:32-54 | `open`, `exec`, `eval`, `__import__`, `compile` and `getattr` are not in the allowlist |
| CodeEnvironment.BuiltinsTable | src/code_environment.py:32-54 | the names bound in `__builtins__` are the allowlist, in its order |
| CodeEnvironment.PreloadedModules | src/code_environment.py:80-84 | the four modules handed to the snippet ready-imported: `math`, `statistics`, `json`, `re` |
| CodeEnvironment.InitialEnv | src/code_environment.py:78-91 | the snippet sees exactly the ten names; `__builtins__` is the allowlist, `args` the caller's dict, `result` None |
| CodeEnvironment.ReadOnlyUri | src/code_environment.py:18-21 | the URI is `file:`, then the connection path (the given one or the default), then `?mode=ro` |
| CodeEnvironment.ParamsTuple | src/code_environment.py:69 | a list or tuple is bound as its items; any other value is bound as a one-element tuple |
| CodeEnvironment.Sql | src/code_environment.py:68-70 | every row of the query, in order, as a dict |
| CodeEnvironment.Scalar | src/code_environment.py:72-75 | None without a row; the single value of a one-column first row; the dict of a wider first row |
| CodeEnvironment.ScalarIsFirstOfSql | src/code_environment.py:68-75 | `scalar` reads the first dict `sql` gives: None exactly when `sql` is empty; the first column's value for one column; the whole dict otherwise |
| CodeEnvironment.ScalarIgnoresLaterRows | src/code_environment.py:72-75 | two results with the same first row give the same `scalar` |
| CodeEnvironment.ArgsOrEmpty | src/code_environment.py:65 | missing arguments become the empty dict |
| CodeEnvironment.RunUserCode | src/code_environment.py:57-107 | an open failure is the error; otherwise a raising snippet gives its error; a completing one gives what it printed and its `result` (None when unassigned) |
| CodeEnvironment.UnassignedResultIsNone | src/code_environment.py:90-106 | a snippet that leaves `result` as it started yields result None and its printed text |
| CodeEnvironment.CapStdout | src/code_environment.py:115-116 | the captured text cut to at most 10000 characters, as a prefix |
| CodeEnvironment.WorkerMessage | src/code_environment.py:112-119 | success becomes an ok message with the result and the capped stdout; failure becomes an error message with its text |
| CodeEnvironment.Channel.constructor | src/code_environment.py:132 | a new `multiprocessing.Queue` (the class `Channel`, whose field is the queued messages) holds no message |
| CodeEnvironment.Channel.Put | src/code_environment.py:117-119 | the queue gains the message at its end |
| CodeEnvironment.Channel.IsEmpty | src/code_environment.py:140 | true exactly when no message is queued |
| CodeEnvironment.Channel.Get | src/code_environment.py:142 | returns the first queued message and removes it |
| CodeEnvironment.WorkerRunCode | src/code_environment.py:110-119 | the worker posts exactly one message, the one for its run, and nothing else |
| CodeEnvironment.TimeoutOutcome | src/code_environment.py:136-139 | result None, empty stdout, and the error `timeout after <seconds>s` |
| CodeEnvironment.CrashOutcome | src/code_environment.py:140-141 | result None, empty stdout, and the error `no result (crash or empty output)` |
| CodeEnvironment.Relay | src/code_environment.py:142-145 | an ok message's data is returned unchanged with no error; a failed one gives result None, empty stdout and its error |
| CodeEnvironment.Supervise | src/code_environment.py:135-145 | a live worker means the timeout outcome; an empty queue means the crash outcome; otherwise the first message is relayed and consumed |
| CodeEnvironment.InvocationOutcome | src/code_environment.py:122-145 | the timeout outcome for a worker still running, the crash outcome for one that exited without a message, else the relayed message of its run |
| CodeEnvironment.RunUserCodeWithTimeout | src/code_environment.py:122-145 | the outcome for each fate of the worker: timeout, crash, or the relayed message of the run |
| CodeEnvironment.InvocationGuarantees | src/code_environment.py:122-145 | a timeout has result None, empty stdout and a `timeout after` error; a completion has no error exactly when the run succeeded, its result, and at most 10000 characters of its stdout as a prefix |
| Tools.ParseDirective | src/tools.py:178-182 | a leading `-` means descending and is dropped from the key; otherwise ascending on the whole text |
| Tools.Directive | src/tools.py:178-182 | the text of a directive: `-` before the key when descending, the key alone otherwise |
| Tools.DirectiveRoundTrip | src/tools.py:178-182 | writing a parsed directive back gives the original text |
| Tools.ParseDirectiveRoundTrip | src/tools.py:178-182 | any key not starting with `-` survives writing it and parsing it again, direction included |
| Tools.OrderClause | src/tools.py:185 | `f"{key} {direction}"`, with `DESC` for a descending directive and `ASC` otherwise |
| Tools.OrderClauses | src/tools.py:177-185 | one `key ASC`/`key DESC` clause per directive, in input order |
| Tools.FirstUnsupported | src/tools.py:177-184 | None exactly when every key is allowed; otherwise the first key, in input order, that is not allowed |
| Tools.SortSql | src/tools.py:172-186 | what `_parse_sort` returns: `""` for a missing or empty list, a `ValueError` naming the first key outside the allowlist, else ` ORDER BY ` and the clauses joined by `, ` |
| Tools.ParseSort | src/tools.py:172-186 | the loop yields `""` for a missing or empty list, the error for the first unsupported key, else ` ORDER BY ` and the joined clauses |
| Tools.SortSqlRejectsExactly | src/tools.py:183-186 | a non-empty list fails exactly when some key is outside the allowlist; on success the clause lists every directive in order |
| Tools.SortSqlPlaceholders | src/tools.py:186 | a successful ORDER BY over placeholder-free column names holds no placeholder |
| Tools.OrderByPlaceholders | src/tools.py:185-186 | an ORDER BY over allowed keys holds no placeholder |
| Tools.SelectExistingColumns | src/tools.py:189-191 | exactly the listed columns the table has, each as often as listed, in listed order (a subsequence) |
| Tools.SelectExistingColumnsCons | src/tools.py:191 | the filter keeps or drops the first column and filters the rest the same way |
| Tools.SelectedHaveNoPlaceholder | src/tools.py:189-191 | filtering placeholder-free names gives placeholder-free names |
| Tools.MoveColumnsHaveNoPlaceholder | src/tools.py:311-333 | the twenty-one move columns both handlers select from (`base_select_cols`, `msel_base`; the constant `MoveColumns`) hold no `?` |
| Tools.Resolve | src/tools.py:208-212 | None exactly when no candidate is a column; otherwise the first candidate, in order, that is |
| Tools.ClampLimit | src/tools.py:292 | a missing or zero limit becomes 10, a negative one 0, a positive one stays |
| Tools.ClampOffset | src/tools.py:293 | a missing, zero or negative offset becomes 0, a positive one stays |
| Tools.ShapeRunCode | src/tools.py:549-552 | result and stdout copied; the error key present exactly when the outcome has a non-empty error |
| Tools.RunCodeHandler | src/tools.py:541-552 | the answer is the shaped outcome of a 10-second invocation with the arguments defaulted to `{}` |
| Tools.EmptyErrorIsDropped | src/tools.py:550-551 | a snippet that raises with an empty message answers with no error key, result None and empty stdout |
| ToolsSearch.ThenBalanced | src/tools.py:214-215 | appending balanced clause and parameter lists keeps them balanced |
| ToolsSearch.LikeFilter | src/tools.py:217-222 | a missing or empty term adds nothing; otherwise one clause and the `%term%` pattern |
| ToolsSearch.ExactFilter | src/tools.py:355-366 | a missing or empty flag adds nothing; otherwise one clause and the flag |
| ToolsSearch.AddLike | src/tools.py:217-222 | the lists gain exactly the `LIKE` filter of the term |
| ToolsSearch.AddExact | src/tools.py:355-366 | the lists gain exactly the equality filter of the flag |
| ToolsSearch.Marks | src/tools.py:343 | `",".join(["?"] * n)`: n marks separated by commas |
| ToolsSearch.MarksPlaceholders | src/tools.py:343 | `",".join(["?"] * n)` holds n placeholders |
| ToolsSearch.BoundFilters | src/tools.py:239-244 | the lower bound first with `>=`, then the upper with `<=`, each only when given |
| ToolsSearch.BoundBalanced | src/tools.py:239-244 | one placeholder per bound |
| ToolsSearch.SpecFilters | src/tools.py:235-244 | a range whose candidates name no column, or resolve to the empty name, adds nothing; otherwise its bounds on the resolved column |
| ToolsSearch.RangeFilters | src/tools.py:235-244 | the ranges' filters appended range by range, each on its resolved column |
| ToolsSearch.RangeFiltersBalanced | src/tools.py:225-244 | the range filters hold one placeholder per value |
| ToolsSearch.AppendRanges | src/tools.py:235-244 | the loop appends exactly the range filters, range by range |
| ToolsSearch.BoundsFilters | src/tools.py:378-384 | the fixed-column bounds' filters appended column by column, whether or not the table has the column |
| ToolsSearch.BoundsFiltersBalanced | src/tools.py:369-384 | the fixed-column range filters hold one placeholder per value |
| ToolsSearch.AppendBounds | src/tools.py:378-384 | the loop appends exactly the fixed-column range filters |
| ToolsSearch.NonEmptyTypes | src/tools.py:248 | exactly the non-empty type names, as often as given, in order |
| ToolsSearch.GivenTypes | src/tools.py:247-248 | no types for a missing field, else the non-empty names as given, in order |
| ToolsSearch.TypePattern | src/tools.py:268 | the type quoted as a JSON string between `%` wildcards |
| ToolsSearch.JsonEachIn | src/tools.py:252-255 | the JSON1 clause of mode any: `EXISTS (SELECT 1 FROM json_each(pokemons.types_json) je WHERE je.value IN (` then n marks then `))` |
| ToolsSearch.StrValues | src/tools.py:256 | each type bound as itself, in order |
| ToolsSearch.TypePatterns | src/tools.py:266-273 | each type bound as its pattern, in order |
| ToolsSearch.JsonEachInPlaceholders | src/tools.py:252-255 | the JSON1 `IN` clause holds one placeholder per type |
| ToolsSearch.LikeAny | src/tools.py:264-269 | the fallback of mode any: n `types_json LIKE ?` clauses joined by ` OR `, in parentheses |
| ToolsSearch.LikeAnyPlaceholders | src/tools.py:264-269 | the OR-joined fallback holds one placeholder per type |
| ToolsSearch.JsonEachEqPlaceholders | src/tools.py:258-262 | the JSON1 clause of mode all holds one placeholder |
| ToolsSearch.TypeFilters | src/tools.py:247-273 | no types add nothing; mode any gives one clause, mode all one per type; the values are the types (JSON1) or their patterns (fallback) |
| ToolsSearch.TypeFiltersBalanced | src/tools.py:247-273 | every form of the type filter holds one placeholder per value |
| ToolsSearch.AppendTypeFilters | src/tools.py:247-273 | the branches and loops append exactly the type filters |
| ToolsSearch.InFilter | src/tools.py:342-349 | a missing or empty list adds nothing; otherwise `col IN (?,...)` with one mark and one value per item |
| ToolsSearch.InFilterBalanced | src/tools.py:342-349 | the `IN` clause holds one placeholder per listed value |
| ToolsSearch.AddIn | src/tools.py:342-349 | the lists gain exactly the `IN` filter |
| ToolsSearch.WhereSql | src/tools.py:275 | empty exactly when there are no clauses; holds the clauses' placeholders and no more |
| ToolsSearch.LimitOffsetPlaceholders | src/tools.py:295 | ` LIMIT ? OFFSET ?` (the constant `LimitOffset`) holds two placeholders |
| ToolsSearch.PageParams | src/tools.py:292-296 | the filter values, then the clamped limit, then the clamped offset |
| ToolsSearch.SearchStatement | src/tools.py:290-296 | fails exactly when the sort fails, with its error; otherwise the parameters are the page parameters |
| ToolsSearch.SearchStatementBalanced | src/tools.py:295-296 | the full SELECT holds exactly one placeholder per parameter |
| ToolsSearch.Search | src/tools.py:290-298 | the sort error, or the rows of the statement together with the clamped limit and offset |
| ToolsSearch.RunPage | src/tools.py:295-298 | the rows `execute_query` gives for the statement, with the page bounds |
| ToolsSearch.RunSearch | src/tools.py:290-298 | the answer is the page of rows for the statement, with the clamped limit and offset, or the sort error |
| ToolsSearch.PokemonRanges | src/tools.py:225-234 | eight ranges, every candidate column name free of placeholders |
| ToolsSearch.PokemonFilters | src/tools.py:214-273 | the filters of `search_pokemons` in handler order: name, obtain method, ranges, types |
| ToolsSearch.PokemonSortAllowed | src/tools.py:278-289 | the listed sort columns the table has, in listed order |
| ToolsSearch.PokemonStatement | src/tools.py:275-296 | the statement on `SELECT * FROM pokemons` with those filters, that sort allowlist and the page |
| ToolsSearch.SearchPokemons | src/tools.py:197-298 | the search of that statement: the sort error or the page of rows |
| ToolsSearch.PokemonWhere | src/tools.py:214-273 | the handler's filter steps build exactly the name, obtain-method, range and type filters, in that order |
| ToolsSearch.SearchPokemonsHandler | src/tools.py:197-298 | the handler answers what the search of its filters, sort and page gives |
| ToolsSearch.PokemonFiltersBalanced | src/tools.py:214-275 | the Pokémon filters hold one placeholder per value |
| ToolsSearch.PokemonStatementBalanced | src/tools.py:295-297 | the Pokémon SELECT holds exactly one placeholder per parameter |
| ToolsSearch.PokemonSortColumnsPlain | src/tools.py:278-288 | the candidate sort columns of `search_pokemons` hold no `?` |
| ToolsSearch.PokemonSortRefused | src/tools.py:278-290 | a sort is refused exactly when some key is not a listed sort column or not a column of the table |
| ToolsSearch.MoveTextFilters | src/tools.py:336-366 | the text, list and flag filters of `search_moves`, in handler order |
| ToolsSearch.MoveBounds | src/tools.py:369-377 | seven fixed-column ranges, every column name free of placeholders |
| ToolsSearch.MoveFilters | src/tools.py:336-384 | the text, list and flag filters, then the seven fixed-column bounds |
| ToolsSearch.MovesFrom | src/tools.py:403 | `SELECT ` then the selected columns joined by `, ` then ` FROM moves` |
| ToolsSearch.MoveStatement | src/tools.py:334-404 | the statement on the listed move columns the table has (`MoveColumns`), with the move filters, the fixed sort allowlist and the page |
| ToolsSearch.SearchMoves | src/tools.py:304-406 | the search of that statement: the sort error or the page of rows |
| ToolsSearch.MoveSortColumnsPlain | src/tools.py:388-397 | the eight sort columns of `search_moves` (the constant `MoveSortColumns`) hold no `?` |
| ToolsSearch.MoveWhere | src/tools.py:336-384 | the handler's filter steps build exactly the move filters, in source order |
| ToolsSearch.SearchMovesHandler | src/tools.py:304-406 | the handler answers what the search of its filters, sort and page gives |
| ToolsSearch.MoveTextFiltersBalanced | src/tools.py:336-366 | the text, list and flag filters hold one placeholder per value |
| ToolsSearch.MoveStatementBalanced | src/tools.py:403-405 | the move SELECT holds exactly one placeholder per parameter |
| ToolsDetail.DetailLookup | src/tools.py:413-422 | an error exactly when neither a non-zero id nor a non-empty name is given; by id whenever the id is non-zero, else by name |
| ToolsDetail.LookupParam | src/tools.py:419-422 | the id for a lookup by id, the name for one by name |
| ToolsDetail.ByIdSql | src/tools.py:420 | `SELECT <sel> FROM <table> WHERE id = ?` |
| ToolsDetail.ByNameSql | src/tools.py:422 | `SELECT <sel> FROM <table> WHERE name = ?` |
| ToolsDetail.LookupSql | src/tools.py:507-510 | the by-id statement for a lookup by id, the by-name one otherwise |
| ToolsDetail.WithoutKeys | src/tools.py:467 | the dict without the dropped keys, every other value unchanged |
| ToolsDetail.SplitRow | src/tools.py:462-468 | the three learn columns read with `get`, and the remaining columns as the nested record |
| ToolsDetail.Rejoin | src/tools.py:462-468 | reads a joined column back from a split row: the three learn columns from their fields, the rest from the nested record |
| ToolsDetail.SplitRowLosesNothing | src/tools.py:462-468 | every column of the joined row can be read back from its split |
| ToolsDetail.SplitRows | src/tools.py:460-468 | one entry per row, in order, each the split of its row |
| ToolsDetail.SplitEach | src/tools.py:460-468 | the loop builds exactly the split rows |
| ToolsDetail.JoinedMoveColumns | src/tools.py:450 | the listed move columns the table has, each prefixed by `m.` |
| ToolsDetail.PokemonMovesSql | src/tools.py:452-458 | the moves of a Pokémon joined with their learn columns, filtered on `pm.pokemon_id = ?`, ordered by move name |
| ToolsDetail.MovePokemonsSql | src/tools.py:517-523 | the Pokémon of a move joined with their learn columns, filtered on `pm.move_id = ?`, ordered by Pokémon name |
| ToolsDetail.PokemonDetailOf | src/tools.py:412-470 | the request error; a 404 exactly when the lookup finds nothing; a KeyError exactly when the row has no `id`; else the row and the split rows of its moves by that id |
| ToolsDetail.GetPokemonDetailHandler | src/tools.py:412-470 | the handler answers what `get_pokemon_detail` specifies |
| ToolsDetail.MoveDetailOf | src/tools.py:476-535 | the request error; a 404 exactly when the lookup finds nothing; a KeyError exactly when the row has no `id`; else the row and the split rows of its Pokémon by that id |
| ToolsDetail.GetMoveDetailHandler | src/tools.py:476-535 | the handler answers what `get_move_detail` specifies |
| ToolsDetail.FoundRowsHaveTheirColumns | src/tools.py:459 | a first row with an `id` column is found, and its dict has an `id` key |
| ScrapeRecord.KeyText | src/scrape_za.py:79-144 | the text of each key the code reads or writes |
| ScrapeRecord.Field | src/scrape_za.py:79 | `data.get(key)`: None when the key is absent |
| ScrapeRecord.Pick | src/scrape_za.py:86-88 | `data.get(primary)`, or `data.get(alias)` when that is None |
| ScrapeRecord.NormalizedValue | src/scrape_za.py:78-114 | the value `normalized` holds under each key, by key: own value, legacy fallback, base-timing mirror, or None for a key it does not hold |
| ScrapeRecord.NormalizedOf | src/scrape_za.py:78-114 | the record `normalized` (the datatype `Normalized`, one field per key it holds), built field by field from the data |
| ScrapeRecord.NormalizedOfGet | src/scrape_za.py:78-114 | each normalised key holds its own value; the four aliased keys fall back to their legacy key only when theirs is None; the two plus timings mirror the base timing only when theirs is None |
| ScrapeRecord.TakeWithAlias | src/scrape_za.py:86-88 | the primary value, or the alias's when the primary is None |
| ScrapeRecord.MirrorIfNone | src/scrape_za.py:111-114 | the value, or the base value when it is None |
| ScrapeRecord.NormalizeMove | src/scrape_za.py:78-114 | the step-by-step dict is the normalised record of the data |
| ScrapeRecord.Mapping | src/scrape_za.py:117-145 | the twenty-three (key, column) pairs of `mapping`, legacy alias columns included, in source order |
| ScrapeRecord.MappingHasNoPlaceholder | src/scrape_za.py:117-145 | no mapped column holds a `?` |
| ScrapeRecord.MappingNamesOnce | src/scrape_za.py:117-145 | the mapping writes the `name` column once, first |
| ScrapeRecord.Assigned | src/scrape_za.py:147-152 | the SET list: the (column, value) pairs of the mapping entries whose column exists, in mapping order, each with its key's normalised value |
| ScrapeRecord.AssignedStep | src/scrape_za.py:149-152 | one step of the mapping loop keeps or skips exactly one pair |
| ScrapeRecord.AssignedColumns | src/scrape_za.py:147-152 | the SET columns are the mapping's columns that exist, in mapping order |
| ScrapeRecord.AssignedValues | src/scrape_za.py:147-152 | each assigned column exists and holds the normalised value of a key the mapping pairs it with |
| ScrapeRecord.NothingToSetExactly | src/scrape_za.py:147-155 | there is nothing to set exactly when no mapped column exists |
| ScrapeRecord.NameAssignment | src/scrape_za.py:118-152 | the SET list sets `name` exactly when the column exists, and then to the normalised name |
| ScrapeRecord.BuildSetClause | src/scrape_za.py:147-152 | the loop's columns and values are those of the SET list |
| ScrapeRecord.SetParts | src/scrape_za.py:151 | one `col=?` part per SET column, in order |
| ScrapeRecord.SetPartsPlaceholders | src/scrape_za.py:151 | one placeholder per `col=?` part |
| ScrapeRecord.UpdateStatementOf | src/scrape_za.py:157-158 | `UPDATE moves SET ` then the parts joined by `, ` then ` WHERE id=?`, with the move id appended to the values |
| ScrapeRecord.UpdateStatementBalanced | src/scrape_za.py:157-158 | the values end with the move id and match the statement's placeholders one for one |
| ScrapeTables.Column | src/scrape_za.py:158 | a column the row has no entry for reads as NULL |
| ScrapeTables.SetRow | src/scrape_za.py:158 | the SET never changes the row's id |
| ScrapeTables.SetRowColumn | src/scrape_za.py:158 | after the SET a column holds its rightmost assignment, or its old value when not assigned |
| ScrapeTables.ApplyUpdate | src/scrape_za.py:158-161 | the row with the id is updated, every other row is as it was, no row is added or removed |
| ScrapeTables.ApplyUpdateColumns | src/scrape_za.py:158-161 | column by column: assigned columns of the updated row hold their values, everything else is unchanged |
| ScrapeTables.UpdateConflicts | src/scrape_za.py:158-167 | the UNIQUE `name` constraint fails: the updated row would carry a non-NULL name another row has |
| ScrapeTables.ExecUpdate | src/scrape_za.py:160-167 | an IntegrityError exactly when the update would duplicate another row's name; otherwise the updated table |
| ScrapeTables.IdsUnique | src/scrape_za.py:65 | `id` is the key the DELETE and UPDATE statements name a row by: no two rows share it |
| ScrapeTables.DuplicateIds | src/scrape_za.py:47-48 | the ids of the other rows with that name; none when the name is NULL |
| ScrapeTables.RelationsOf | src/scrape_za.py:54 | exactly the relations of that move |
| ScrapeTables.DropRelations | src/scrape_za.py:64 | exactly the relations of other moves remain; key uniqueness is kept |
| ScrapeTables.DropMove | src/scrape_za.py:65 | exactly the rows with other ids remain |
| ScrapeTables.SameKey | src/scrape_za.py:56-62 | two relations collide on `(pokemon_id, move_id, learn_method)`, a NULL learn method never colliding |
| ScrapeTables.KeysUnique | src/scrape_za.py:56-62 | no two relations of the table collide |
| ScrapeTables.InsertOrIgnore | src/scrape_za.py:56-62 | the row is appended or the table is unchanged; afterwards it is there or a row with its key was; key uniqueness is kept |
| ScrapeTables.Retarget | src/scrape_za.py:61 | the relation moved to the canonical move, its other cells kept |
| ScrapeTables.Repoint | src/scrape_za.py:54-62 | the inner loop: each relation of the duplicate, in order, inserted-or-ignored under the canonical move |
| ScrapeTables.RepointFacts | src/scrape_za.py:54-62 | the old relations stay in front; every appended row belongs to the canonical move; uniqueness is kept; every moved relation has a canonical counterpart |
| ScrapeTables.MergeOne | src/scrape_za.py:52-65 | one pass: re-point the duplicate's relations, then delete its relations and its row |
| ScrapeTables.MergeOneFacts | src/scrape_za.py:52-65 | one duplicate's row and relations are gone, the others kept, each of its relations has a canonical counterpart, uniqueness kept |
| ScrapeTables.MergeAll | src/scrape_za.py:52-65 | the passes over the duplicates, in order |
| ScrapeTables.MergeAllFacts | src/scrape_za.py:52-65 | the same for the whole list of duplicates: the rows of exactly those ids removed, their relations carried over |
| ScrapeTables.Merge | src/scrape_za.py:49-50 | with no duplicates the tables are unchanged |
| ScrapeTables.MergeFacts | src/scrape_za.py:41-66 | afterwards no other row carries the name and no relation refers to a removed row; no row is added; the canonical row and rows without the name are kept |
| ScrapeTables.SetListOf | src/scrape_za.py:117-152 | the SET list of a scraped record over the existing columns |
| ScrapeTables.NamesUnique | src/scrape_za.py:164-167 | the UNIQUE `name` constraint holds: no two rows carry the same non-NULL name |
| ScrapeTables.UpdateRecord | src/scrape_za.py:69-171 | nothing happens exactly when there is nothing to set; relations change only when the first UPDATE failed and the name is truthy |
| ScrapeTables.UpdatedName | src/scrape_za.py:79-152 | when the `name` column exists, the updated row's name is the data's name |
| ScrapeTables.UpdateRetry | src/scrape_za.py:164-171 | on a conflict the SET list holds `name`; a truthy name leads to the merge and a retry that succeeds; a falsy one leaves the tables unchanged and fails |
| ScrapeTables.ExpectedColumns | src/scrape_za.py:181-202 | the twenty expected columns with their SQL types, in insertion order |
| ScrapeTables.MissingColumns | src/scrape_za.py:204-205 | exactly the expected columns that do not exist, in expected order |
| ScrapeTables.AlterStatement | src/scrape_za.py:206 | `ALTER TABLE moves ADD COLUMN <col> <type>` |
| ScrapeTables.AlterStatements | src/scrape_za.py:206 | one `ALTER TABLE moves ADD COLUMN col type` per added column, in order |
| ScrapeTables.AddColumns | src/scrape_za.py:204-206 | the `table_info` rows after each ADD COLUMN in turn: the new column last, nullable, without default |
| ScrapeTables.AddColumnsShape | src/scrape_za.py:204-206 | the old columns stay in front; each added one has its name and type |
| ScrapeTables.AddColumnsNames | src/scrape_za.py:204-206 | the column set grows by exactly the added names |
| ScrapeTables.SameSqlName | src/scrape_za.py:206 | SQLite takes two names for one column name when they have one length and agree character by character once ASCII letters are case-folded |
| ScrapeTables.NameTaken | src/scrape_za.py:206 | `ADD COLUMN col` is refused with "duplicate column name" when a column of the table is the same SQL name |
| ScrapeTables.Refused | src/scrape_za.py:204-206 | an added column is refused when the original table or an earlier added column takes its name |
| ScrapeTables.AddColumnsTaken | src/scrape_za.py:204-206 | after ADD COLUMN of a list, a name is taken exactly when it was taken before or one of the added names is the same SQL name |
| ScrapeTables.FirstRefused | src/scrape_za.py:204-206 | how many missing columns are added before the first refused one: all before it are accepted, and the one at it is refused |
| ScrapeTables.Migrate | src/scrape_za.py:174-207 | the expected columns missing by exact name are added in order until SQLite refuses one; the result holds the rows, the statements and the refused column |
| ScrapeTables.MigrateFacts | src/scrape_za.py:174-207 | when nothing is refused: every expected column then exists; old columns are kept in front; only expected, missing columns are added, with their types; one statement per addition |
| ScrapeTables.MigrateDuplicate | src/scrape_za.py:204-207 | when an ALTER is refused: the columns before it were each accepted and added in order; the last statement is the refused ALTER; its column is expected, missing by exact name, and taken up to case |
| ScrapeTables.MigrateFailsExactly | src/scrape_za.py:204-207 | with no two expected names the same up to case: the migration fails exactly when an expected column is missing by exact name but a column has its name up to case; the refused column is expected and is still absent afterwards |
| ScrapeTables.OnlyCaseVariantRefused | src/scrape_za.py:204-207 | when exactly one expected name is taken up to case and not exactly, the migration fails on that column and leaves it out |
| ScrapeTables.ExpectedColumnsNames | src/scrape_za.py:181-202 | no two of the twenty expected names are the same up to case |
| ScrapeTables.MigrateSchemaFailsExactly | src/scrape_za.py:174-207 | `migrate_moves_schema` fails exactly on a table that has an expected column only in another case |
| ScrapeTables.LegacyPowerColumnRefused | src/scrape_za.py:174-207 | on a table with columns `id` and `Power`, the ALTER of `power` is refused and `power` stays missing |
| ScrapeTables.MigrateIdempotent | src/scrape_za.py:174-207 | migrating a table after a successful migration adds nothing, executes nothing and succeeds |
| ScrapeDb.MovesDb.constructor | src/scrape_za.py:41-46 | a connection to the `moves` and `pokemon_moves` tables and the `table_info` of `moves` (the class `MovesDb`), holding exactly the given rows |
| ScrapeDb.MovesDb.State | src/scrape_za.py:41-46 | both tables as one value, for the contracts of the methods |
| ScrapeDb.PairsOfSplit | src/scrape_za.py:147-158 | the SET columns and values the loop collects pair up into the SET list again |
| ScrapeDb.MovesDb.MergeDuplicatesByName | src/scrape_za.py:41-66 | the tables become the merge of the duplicates of the name |
| ScrapeDb.MovesDb.MergeDuplicate | src/scrape_za.py:52-65 | one loop pass: repoint, delete the relations, delete the row |
| ScrapeDb.MovesDb.RepointRelations | src/scrape_za.py:54-62 | the inner loop performs the INSERT OR IGNORE of each relation of the duplicate, in order |
| ScrapeDb.MovesDb.ExecuteUpdate | src/scrape_za.py:160-162 | reports an IntegrityError exactly on a conflict, and then changes nothing; otherwise applies the update |
| ScrapeDb.MovesDb.UpdateMoveRecord | src/scrape_za.py:69-171 | the new tables and outcome are those of `UpdateRecord`; no statement exactly when there is nothing to update; the statement is the UPDATE of the SET list |
| ScrapeDb.MovesDb.MigrateSchema | src/scrape_za.py:174-207 | the loop's new columns, statements and refused column (if any) are those of `Migrate`; the tables' rows are untouched |
| ScrapeFlows.PcVariant | src/scrape_za.py:286 | the URL, then `&` when it already has a query or `?` when not, then `view=pc` |
| ScrapeFlows.HasSubstring | src/scrape_za.py:342 | Python's `t in s` for strings: `t` occurs at some position of `s` |
| ScrapeFlows.PcVariantHasView | src/scrape_za.py:342-343 | the PC variant always asks for `view=pc`, so it is never extended again |
| ScrapeFlows.NatText | src/scrape_za.py:294 | the decimal text of a natural number: only digits, never empty |
| ScrapeFlows.IntText | src/scrape_za.py:294 | `str(n)`: never empty, starting with `-` exactly for a negative number |
| ScrapeFlows.DigitsValue | src/scrape_za.py:294 | the number a string of decimal digits stands for |
| ScrapeFlows.NatTextRoundTrip | src/scrape_za.py:294 | the decimal text of a key reads back as the key |
| ScrapeFlows.KeyUrl | src/scrape_za.py:294 | the base URL followed by the key's decimal digits |
| ScrapeFlows.Blank | src/scrape_za.py:300 | `v in (None, "", "-")` |
| ScrapeFlows.CriticalKeys | src/scrape_za.py:301 | the nine critical keys, in source order |
| ScrapeFlows.CriticalMissing | src/scrape_za.py:299-302 | data is missing exactly when the record is empty or one of the nine critical fields is None, `""` or `-` |
| ScrapeFlows.CriticalMissingIgnoresOtherKeys | src/scrape_za.py:299-302 | changing a non-critical field of a non-empty record does not change the verdict |
| ScrapeFlows.Usable | src/scrape_za.py:319-324 | `html` is truthy: a page was fetched and it is not empty |
| ScrapeFlows.Stamp | src/scrape_za.py:328-329 | `page_url` and `move_key` are set, every other field kept |
| ScrapeFlows.FromPage | src/scrape_za.py:317-326 | the record is what the parser made of the page at the URL, fetched directly or, when that gave a page, through the browser |
| ScrapeFlows.ScrapePokemonMoves | src/scrape_za.py:278-290 | the page's moves when there are any, else the moves of its PC variant |
| ScrapeFlows.ScrapeMoveDetail | src/scrape_za.py:293-330 | `move_key` is the key; `page_url` is the key URL or its `&view=pc` form; a complete first page is returned as is; complete data always comes from the page named |
| ScrapeFlows.ScrapeMoveDetailByUrl | src/scrape_za.py:333-366 | `move_key` is None; `page_url` is the URL or, only when it lacks `view=pc`, its PC variant; a complete first page is returned as is; complete data always comes from the page named |

## Left out

**Outside the model**
- Executing the snippet (`exec`, `redirect_stdout`) and the worker process, its `join` timeout and `terminate`: the snippet is a function of its environment, and the worker's fate is a parameter.
- The SQLite engine, JSON1 detection, `PRAGMA query_only` and `conn.commit()`: the engine is a parameter, and whether JSON1 is present is a boolean input.
- Transactions and connection closing are not modelled.
- The text of a float: the timeout seconds reach the error message as text (`"10.0"` for `run_code`).
- The float-valued bounds of `search_moves`: each bound is an opaque `Value`.
- FastAPI routing, `HTTPException` objects, pydantic input classes and `_load_prompt_text`: the handlers take the input fields directly, and errors are the `Failure` datatype.
- Network fetches, `cloud_fetch_html`'s exceptions, Playwright, BeautifulSoup and the `parse_*` functions: they are parameters of the scrape flows.
- `MOVE_SEARCH_BASE` is defined in another module; it is a parameter.
- `init_db`, the `upsert_*` functions, `run` and `main` are not part of this model.

**Simplifications and weaker contracts**
- Db.ExecuteQuery: the engine answers every statement with rows. Statements SQLite rejects are not modelled: an OperationalError for a missing column, or a syntax error, would propagate out of `execute_query` and `execute_one`.
- ToolsSearch.SearchMovesHandler: the seven fixed range columns are filtered on whether or not the table has them (src/tools.py:369-384), and when no listed move column exists the statement starts `SELECT  FROM moves` (src/tools.py:334, 403). SQLite rejects both; here the engine answers them, so the handler returns a page.
- ToolsDetail.GetMoveDetailHandler: with no listed move column the lookup is `SELECT  FROM moves WHERE ...` (src/tools.py:505-510), which SQLite rejects; here the engine answers it.
- ToolsDetail.GetPokemonDetailHandler: with no listed move column the moves query ends its select list with a comma (src/tools.py:450-458), which SQLite rejects; here the engine answers it.
- ScrapeTables.UpdateConflicts: only the UNIQUE constraint on `moves.name` is modelled as a cause of IntegrityError, and only for a name clash with another row.
- ScrapeTables.Migrate: "duplicate column name" is the only way an ALTER fails here. The table is taken to exist: `init_db`, which `run` calls first, is not part of this model.
- ScrapeTables.Migrate: after a refused ALTER, the model keeps the columns added before it. Whether they survive the connection depends on its transaction state, which is not modelled.
- ScrapeTables.UpdateRecord: an IntegrityError raised by the retry propagates in the code. Here it is the outcome `IntegrityFailure`, and the tables keep the effects of any merge already made.
- ScrapeFlows.CriticalMissing: a scraped record holds only the keys the code reads or writes. A dict whose only keys are others counts as empty here, while Python's `not data` would treat it as non-empty.
- ScrapeFlows.ScrapeMoveDetail: by-key scraping always appends `&view=pc`, as the code does, even when the base URL has no query. Only by-URL scraping chooses between `?` and `&`.
- CodeEnvironment.Supervise: the code can take the non-dict message branch, but the worker only posts dicts, so it is not modelled. A missing `error` key would give `"unknown error"`; the worker always sets that key.
