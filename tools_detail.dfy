/** The two detail tools of `src/tools.py`: look one Pokémon (or one move)
    up by id or by name, then list what it is linked to through
    `pokemon_moves`, each link split into how it is learned and the row on
    the other side. */
module ToolsDetail {
  import opened Wrappers
  import opened PyValues
  import Db
  import opened SqlText
  import opened Tools

  // ---------------------------------------------------------------------
  // Which row a request names
  // ---------------------------------------------------------------------

  /** A request names its row by id or by name. */
  datatype Lookup = ById(id: int) | ByName(name: string)

  const MissingKey: string := "Either id or name is required"

  /** A request with neither a truthy id nor a non-empty name is refused; a
      truthy id wins over any name, so id 0 counts as no id at all. */
  function DetailLookup(id: Option<int>, name: Option<string>): (r: Result<Lookup, Failure>)
    ensures r.Err? <==> (id.None? || id.value == 0) && (name.None? || name.value == "")
    ensures r.Err? ==> r.error == ValueError(MissingKey)
    ensures r.Ok? && r.value.ById? <==> id.Some? && id.value != 0
    ensures r.Ok? && r.value.ById? ==> r.value.id == id.value
    ensures r.Ok? && r.value.ByName? ==> name.Some? && name.value != "" && r.value.name == name.value
  {
    if (id.None? || id.value == 0) && (name.None? || name.value == "") then Err(ValueError(MissingKey))
    else if id.Some? && id.value != 0 then Ok(ById(id.value))
    else Ok(ByName(name.value))
  }

  /** The value bound to the lookup's placeholder. */
  function LookupParam(lookup: Lookup): Value {
    match lookup
    case ById(id) => VInt(id)
    case ByName(name) => VStr(name)
  }

  /** `f"SELECT {sel} FROM {table} WHERE id = ?"`. */
  function ByIdSql(sel: string, table: string): string {
    "SELECT " + sel + " FROM " + table + " WHERE id = ?"
  }

  /** `f"SELECT {sel} FROM {table} WHERE name = ?"`. */
  function ByNameSql(sel: string, table: string): string {
    "SELECT " + sel + " FROM " + table + " WHERE name = ?"
  }

  /** The statement of a lookup. */
  function LookupSql(sel: string, table: string, lookup: Lookup): string {
    if lookup.ById? then ByIdSql(sel, table) else ByNameSql(sel, table)
  }

  // ---------------------------------------------------------------------
  // Splitting a joined row
  // ---------------------------------------------------------------------

  /** `{k: v for k, v in d.items() if k not in drop}`: the other entries, in
      their order. */
  function WithoutKeys(d: Dict, drop: set<string>): (r: Dict)
    ensures forall k :: HasKey(r, k) <==> HasKey(d, k) && k !in drop
    ensures forall k :: k !in drop ==> Get(r, k) == Get(d, k)
    ensures DistinctKeys(d) ==> DistinctKeys(r)
    decreases |d|
  {
    if d == [] then []
    else
      var rest := WithoutKeys(d[1..], drop);
      assert d == [d[0]] + d[1..];
      HasKeyCons(d[0], d[1..]);
      DistinctKeysCons(d[0], d[1..]);
      if d[0].0 in drop then rest
      else
        var r := [d[0]] + rest;
        HasKeyCons(d[0], rest);
        DistinctKeysCons(d[0], rest);
        r
  }

  /** The columns that say how a move is learned. */
  const LearnKeys: set<string> := {"learn_method", "level", "tm_no"}

  /** One link: how the move is learned, and the row on the other side
      (under `"move"` in the Pokémon detail, `"pokemon"` in the move detail). */
  datatype LearnEntry = LearnEntry(learnMethod: Value, level: Value, tmNo: Value, other: Dict)

  /** The split of one joined row. */
  function SplitRow(r: Dict): (e: LearnEntry)
    ensures e.learnMethod == Get(r, "learn_method") && e.level == Get(r, "level") && e.tmNo == Get(r, "tm_no")
    ensures forall k :: HasKey(e.other, k) <==> HasKey(r, k) && k !in LearnKeys
  {
    LearnEntry(Get(r, "learn_method"), Get(r, "level"), Get(r, "tm_no"), WithoutKeys(r, LearnKeys))
  }

  /** The value a split row gives back for a column of the joined row. */
  function Rejoin(e: LearnEntry, k: string): Value {
    if k == "learn_method" then e.learnMethod
    else if k == "level" then e.level
    else if k == "tm_no" then e.tmNo
    else Get(e.other, k)
  }

  /** Splitting loses nothing: every column of the joined row can be read
      back from the split, and the other side keeps its columns distinct. */
  lemma SplitRowLosesNothing(r: Dict)
    requires DistinctKeys(r)
    ensures forall k :: Rejoin(SplitRow(r), k) == Get(r, k)
    ensures DistinctKeys(SplitRow(r).other)
  {
    var e := SplitRow(r);
    forall k ensures Rejoin(e, k) == Get(r, k) {
      if k !in LearnKeys {
        assert Get(e.other, k) == Get(r, k);
      }
    }
  }

  /** The split of every row, in row order. */
  function SplitRows(rows: seq<Dict>): (es: seq<LearnEntry>)
    ensures |es| == |rows| && forall i :: 0 <= i < |rows| ==> es[i] == SplitRow(rows[i])
  {
    seq(|rows|, i requires 0 <= i < |rows| => SplitRow(rows[i]))
  }

  /** The loop `for r in rows: ... append(...)` of both handlers. */
  method SplitEach(rows: seq<Dict>) returns (entries: seq<LearnEntry>)
    ensures entries == SplitRows(rows)
  {
    entries := [];
    for i := 0 to |rows|
      invariant entries == SplitRows(rows[..i])
    {
      var r := rows[i];
      var learnMethod := Get(r, "learn_method");
      var level := Get(r, "level");
      var tmNo := Get(r, "tm_no");
      var other := WithoutKeys(r, LearnKeys);
      entries := entries + [LearnEntry(learnMethod, level, tmNo, other)];
      assert SplitRows(rows[..i + 1]) == SplitRows(rows[..i]) + [SplitRow(r)];
    }
    assert rows[..|rows|] == rows;
  }

  // ---------------------------------------------------------------------
  // get_pokemon_detail
  // ---------------------------------------------------------------------

  /** The answer of `get_pokemon_detail`. */
  datatype PokemonDetail = PokemonDetail(pokemon: Dict, moves: seq<LearnEntry>)

  const Indent: string := "\n        "

  /** The move columns of the join, each as `m.{c}`. */
  function JoinedMoveColumns(mcols: set<string>): (sel: seq<string>)
    ensures |sel| == |SelectExistingColumns(MoveColumns, mcols)|
    ensures forall i :: 0 <= i < |sel| ==> sel[i] == "m." + SelectExistingColumns(MoveColumns, mcols)[i]
  {
    var cols := SelectExistingColumns(MoveColumns, mcols);
    seq(|cols|, i requires 0 <= i < |cols| => "m." + cols[i])
  }

  /** The moves a Pokémon learns, with how, in move-name order. */
  function PokemonMovesSql(msel: string): string {
    Indent + "SELECT pm.learn_method, pm.level, pm.tm_no, " + msel +
    Indent + "FROM pokemon_moves pm" +
    Indent + "JOIN moves m ON m.id = pm.move_id" +
    Indent + "WHERE pm.pokemon_id = ?" +
    Indent + "ORDER BY m.name ASC" + "\n    "
  }

  /** What `get_pokemon_detail` answers, given the columns of `moves`: the
      request error, a 404 when no Pokémon matches, else the Pokémon and the
      split rows of its moves, looked up by its `id`. */
  function PokemonDetailOf(engine: Db.Engine, mcols: set<string>, id: Option<int>, name: Option<string>)
    : (r: Result<PokemonDetail, Failure>)
    ensures DetailLookup(id, name).Err? ==> r == Err(DetailLookup(id, name).error)
    ensures DetailLookup(id, name).Ok? ==>
              var found := Db.ExecuteOne(engine, LookupSql("*", "pokemons", DetailLookup(id, name).value),
                                         Some([LookupParam(DetailLookup(id, name).value)]));
              (found.None? <==> r == Err(HttpError(404, "Pokemon not found"))) &&
              (found.Some? && !HasKey(found.value, "id") <==> r == Err(KeyError("id"))) &&
              (r.Ok? ==> found.Some? && r.value.pokemon == found.value &&
                         r.value.moves == SplitRows(Db.ExecuteQuery(engine, PokemonMovesSql(Join(JoinedMoveColumns(mcols), ", ")),
                                                                    Some([Get(found.value, "id")]))))
  {
    match DetailLookup(id, name)
    case Err(e) => Err(e)
    case Ok(lookup) =>
      var found := Db.ExecuteOne(engine, LookupSql("*", "pokemons", lookup), Some([LookupParam(lookup)]));
      if found.None? || found.value == [] then Err(HttpError(404, "Pokemon not found"))
      else if !HasKey(found.value, "id") then Err(KeyError("id"))
      else
        var sql := PokemonMovesSql(Join(JoinedMoveColumns(mcols), ", "));
        Ok(PokemonDetail(found.value, SplitRows(Db.ExecuteQuery(engine, sql, Some([Get(found.value, "id")])))))
  }

  /** `get_pokemon_detail_handler`, given the columns of `moves`. */
  method GetPokemonDetailHandler(engine: Db.Engine, mcols: set<string>, id: Option<int>, name: Option<string>)
    returns (r: Result<PokemonDetail, Failure>)
    ensures r == PokemonDetailOf(engine, mcols, id, name)
  {
    if (id.None? || id.value == 0) && (name.None? || name.value == "") {
      return Err(ValueError(MissingKey));
    }
    var psel := "*";
    var pokemon;
    if id.Some? && id.value != 0 {
      pokemon := Db.ExecuteOne(engine, ByIdSql(psel, "pokemons"), Some([VInt(id.value)]));
    } else {
      pokemon := Db.ExecuteOne(engine, ByNameSql(psel, "pokemons"), Some([VStr(name.value)]));
    }
    if pokemon.None? || pokemon.value == [] {
      return Err(HttpError(404, "Pokemon not found"));
    }
    var msel := Join(JoinedMoveColumns(mcols), ", ");
    var sql := PokemonMovesSql(msel);
    if !HasKey(pokemon.value, "id") {
      return Err(KeyError("id"));
    }
    var rows := Db.ExecuteQuery(engine, sql, Some([Get(pokemon.value, "id")]));
    var moves := SplitEach(rows);
    r := Ok(PokemonDetail(pokemon.value, moves));
  }

  // ---------------------------------------------------------------------
  // get_move_detail
  // ---------------------------------------------------------------------

  /** The answer of `get_move_detail`. */
  datatype MoveDetail = MoveDetail(move: Dict, pokemons: seq<LearnEntry>)

  /** The Pokémon that learn a move, with how, in Pokémon-name order. */
  function MovePokemonsSql(psel: string): string {
    Indent + "SELECT pm.learn_method, pm.level, pm.tm_no, " + psel +
    Indent + "FROM pokemon_moves pm" +
    Indent + "JOIN pokemons p ON p.id = pm.pokemon_id" +
    Indent + "WHERE pm.move_id = ?" +
    Indent + "ORDER BY p.name ASC" + "\n    "
  }

  /** What `get_move_detail` answers, given the columns of `moves`: the
      request error, a 404 when no move matches, else the move (only the
      listed columns the table has) and the split rows of the Pokémon that
      learn it, looked up by its `id`. */
  function MoveDetailOf(engine: Db.Engine, mcols: set<string>, id: Option<int>, name: Option<string>)
    : (r: Result<MoveDetail, Failure>)
    ensures DetailLookup(id, name).Err? ==> r == Err(DetailLookup(id, name).error)
    ensures DetailLookup(id, name).Ok? ==>
              var msel := Join(SelectExistingColumns(MoveColumns, mcols), ", ");
              var found := Db.ExecuteOne(engine, LookupSql(msel, "moves", DetailLookup(id, name).value),
                                         Some([LookupParam(DetailLookup(id, name).value)]));
              (found.None? <==> r == Err(HttpError(404, "Move not found"))) &&
              (found.Some? && !HasKey(found.value, "id") <==> r == Err(KeyError("id"))) &&
              (r.Ok? ==> found.Some? && r.value.move == found.value &&
                         r.value.pokemons == SplitRows(Db.ExecuteQuery(engine, MovePokemonsSql("p.*"),
                                                                       Some([Get(found.value, "id")]))))
  {
    match DetailLookup(id, name)
    case Err(e) => Err(e)
    case Ok(lookup) =>
      var msel := Join(SelectExistingColumns(MoveColumns, mcols), ", ");
      var found := Db.ExecuteOne(engine, LookupSql(msel, "moves", lookup), Some([LookupParam(lookup)]));
      if found.None? || found.value == [] then Err(HttpError(404, "Move not found"))
      else if !HasKey(found.value, "id") then Err(KeyError("id"))
      else
        Ok(MoveDetail(found.value,
                      SplitRows(Db.ExecuteQuery(engine, MovePokemonsSql("p.*"), Some([Get(found.value, "id")])))))
  }

  /** `get_move_detail_handler`, given the columns of `moves`. */
  method GetMoveDetailHandler(engine: Db.Engine, mcols: set<string>, id: Option<int>, name: Option<string>)
    returns (r: Result<MoveDetail, Failure>)
    ensures r == MoveDetailOf(engine, mcols, id, name)
  {
    if (id.None? || id.value == 0) && (name.None? || name.value == "") {
      return Err(ValueError(MissingKey));
    }
    var msel := Join(SelectExistingColumns(MoveColumns, mcols), ", ");
    var move;
    if id.Some? && id.value != 0 {
      move := Db.ExecuteOne(engine, ByIdSql(msel, "moves"), Some([VInt(id.value)]));
    } else {
      move := Db.ExecuteOne(engine, ByNameSql(msel, "moves"), Some([VStr(name.value)]));
    }
    if move.None? || move.value == [] {
      return Err(HttpError(404, "Move not found"));
    }
    var psel := "p.*";
    var sql := MovePokemonsSql(psel);
    if !HasKey(move.value, "id") {
      return Err(KeyError("id"));
    }
    var rows := Db.ExecuteQuery(engine, sql, Some([Get(move.value, "id")]));
    var pokemons := SplitEach(rows);
    r := Ok(MoveDetail(move.value, pokemons));
  }

  /** When the lookup's first row carries an `id` column, `execute_one`
      finds a dict and that dict has an `id` key: the 404 and the KeyError
      branches of the detail handlers are then not taken. */
  lemma FoundRowsHaveTheirColumns(engine: Db.Engine, sql: string, params: seq<Value>)
    requires engine(sql, params) != [] && HasKey(engine(sql, params)[0], "id")
    ensures Db.ExecuteOne(engine, sql, Some(params)).Some?
    ensures HasKey(Db.ExecuteOne(engine, sql, Some(params)).value, "id")
  {
    var row := engine(sql, params)[0];
    assert HasKey(RowToDict(row), "id");
  }
}
