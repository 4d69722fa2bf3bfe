/** The database helpers of `src/db.py`. SQLite itself is not modelled: a
    connection is an `Engine`, a function from a statement's text and its
    bound parameters to the result rows in the order SQLite yields them. */
module Db {
  import opened Wrappers
  import opened PyValues

  type Engine = (string, seq<Value>) -> seq<Row>

  /** POSIX `os.path.join(dir, name)` for a relative `name`. */
  function PathJoin(dir: string, name: string): (p: string)
    ensures dir == "" ==> p == name
    ensures dir != "" ==> p == dir + (if dir[|dir| - 1] == '/' then "" else "/") + name
  {
    if dir == "" then name
    else if dir[|dir| - 1] == '/' then dir + name
    else dir + "/" + name
  }

  /** `DEFAULT_DB_PATH`: the `ZA_DB` environment variable when it is set,
      else `za.sqlite3` in the repository root. */
  function DefaultDbPath(zaDbVariable: Option<string>, repositoryRoot: string): (p: string)
    ensures zaDbVariable.Some? ==> p == zaDbVariable.value
    ensures zaDbVariable.None? ==> p == PathJoin(repositoryRoot, "za.sqlite3")
  {
    zaDbVariable.GetOr(PathJoin(repositoryRoot, "za.sqlite3"))
  }

  /** `db_path or DEFAULT_DB_PATH`: an absent or empty override falls back
      to the default location (used by `get_connection` and by the
      sandbox's read-only open). */
  function ConnectionPath(dbPath: Option<string>, defaultPath: string): (path: string)
    ensures dbPath.Some? && dbPath.value != "" ==> path == dbPath.value
    ensures dbPath.None? || dbPath.value == "" ==> path == defaultPath
  {
    if dbPath.Some? && dbPath.value != "" then dbPath.value else defaultPath
  }

  /** One row of `PRAGMA table_info(t)`: (cid, name, type, notnull,
      dflt_value, pk). */
  datatype TableInfoRow = TableInfoRow(cid: int, name: string, declaredType: string, notNull: int, defaultValue: Value, pk: int)

  /** `get_table_columns`: the set of the names (field 1) of the
      `table_info` rows. */
  function TableColumns(info: seq<TableInfoRow>): (cols: set<string>)
    ensures forall i :: 0 <= i < |info| ==> info[i].name in cols
    ensures forall c :: c in cols ==> exists i :: 0 <= i < |info| && info[i].name == c
  {
    set i | 0 <= i < |info| :: info[i].name
  }

  /** `rows_to_dicts`: every row, in order, as a dict. */
  function RowsToDicts(rows: seq<Row>): (ds: seq<Dict>)
    ensures |ds| == |rows|
    ensures forall i :: 0 <= i < |rows| ==> ds[i] == RowToDict(rows[i])
  {
    seq(|rows|, i requires 0 <= i < |rows| => RowToDict(rows[i]))
  }

  /** `build_like`: None stays None; a term is wrapped in `%` on both sides,
      so the pattern matches any text containing the term. */
  function BuildLike(term: Option<string>): (r: Option<string>)
    ensures term.None? <==> r.None?
    ensures term.Some? ==> |r.value| == |term.value| + 2
    ensures term.Some? ==> r.value[0] == '%' && r.value[|r.value| - 1] == '%'
    ensures term.Some? ==> r.value[1..|r.value| - 1] == term.value
  {
    match term
    case None => None
    case Some(t) => Some("%" + t + "%")
  }

  /** `tuple(params or [])`: None and an empty sequence both bind nothing. */
  function BoundParams(params: Option<seq<Value>>): (bound: seq<Value>)
    ensures params.None? ==> bound == []
    ensures params.Some? ==> bound == params.value
  {
    match params
    case None => []
    case Some(ps) => ps
  }

  /** `execute_query`: all result rows, in order, each as a dict. */
  function ExecuteQuery(engine: Engine, sql: string, params: Option<seq<Value>>): (ds: seq<Dict>)
    ensures |ds| == |engine(sql, BoundParams(params))|
    ensures forall i :: 0 <= i < |ds| ==> ds[i] == RowToDict(engine(sql, BoundParams(params))[i])
  {
    RowsToDicts(engine(sql, BoundParams(params)))
  }

  /** `execute_one`: None when there is no row (or the first row is empty,
      since an empty `sqlite3.Row` is falsy), else the first row as a dict. */
  function ExecuteOne(engine: Engine, sql: string, params: Option<seq<Value>>): (d: Option<Dict>)
    ensures d.None? <==> engine(sql, BoundParams(params)) == [] || engine(sql, BoundParams(params))[0] == []
    ensures d.Some? ==> d.value == RowToDict(engine(sql, BoundParams(params))[0])
  {
    var rows := engine(sql, BoundParams(params));
    if rows == [] || rows[0] == [] then None else Some(RowToDict(rows[0]))
  }

  /** `execute_one` is the first element of what `execute_query` returns for
      the same statement, and is None exactly when that list is empty or
      starts with an empty dict; the rows after the first play no part. */
  lemma ExecuteOneIsFirstOfQuery(engine: Engine, sql: string, params: Option<seq<Value>>)
    ensures var all := ExecuteQuery(engine, sql, params);
            ExecuteOne(engine, sql, params) == if all == [] || all[0] == [] then None else Some(all[0])
  {
    var rows := engine(sql, BoundParams(params));
    if rows != [] {
      var d := RowToDict(rows[0]);
      if rows[0] == [] { assert d == []; }
      else { assert HasKey(rows[0], rows[0][0].0); assert HasKey(d, rows[0][0].0); }
    }
  }
}
