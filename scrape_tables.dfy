/** The two tables the move scraper writes (`src/scrape_za.py`) and what
    its statements do to them: the UPDATE of one move, the merge of
    duplicate moves (`merge_move_duplicates_by_name`), the schema
    migration (`migrate_moves_schema`) and the update with its single
    retry (`update_move_record_cloud`).

    The schema is not part of the repository's scraper; this model takes
    `moves` to have an `id` primary key and a UNIQUE `name` column (the
    conflict the update recovers from), and `pokemon_moves` to be UNIQUE
    on (pokemon_id, move_id, learn_method), where, as in SQLite, a NULL
    learn method never conflicts. */
module ScrapeTables {
  import opened Wrappers
  import opened PyValues
  import opened ScrapeRecord
  import Db

  /** A row of `moves`: its `id` and its other columns by name; a column
      the row has no entry for holds NULL. */
  datatype MoveRow = MoveRow(id: int, cols: map<string, Value>)

  function Column(r: MoveRow, col: string): Value {
    if col in r.cols then r.cols[col] else VNone
  }

  /** A row of `pokemon_moves`. */
  datatype Relation = Relation(pokemonId: int, moveId: int, learnMethod: Value, level: Value, tmNo: Value)

  /** Both tables, each in storage order. */
  datatype Tables = Tables(moves: seq<MoveRow>, relations: seq<Relation>)

  // ---------------------------------------------------------------------
  // UPDATE moves SET ... WHERE id=?

  /** A row after `SET c1=v1, c2=v2, ...`, the assignments taking effect in
      order (so the rightmost assignment to a column wins). */
  function SetRow(r: MoveRow, a: seq<(string, Value)>): (r': MoveRow)
    ensures r'.id == r.id
    decreases |a|
  {
    if a == [] then r
    else
      var r0 := SetRow(r, a[..|a| - 1]);
      MoveRow(r0.id, r0.cols[a[|a| - 1].0 := a[|a| - 1].1])
  }

  /** Each column of the updated row holds its last assigned value, and the
      columns the SET list does not name are unchanged. */
  lemma {:induction false} SetRowColumn(r: MoveRow, a: seq<(string, Value)>, c: string)
    ensures Column(SetRow(r, a), c) == if HasKey(a, c) then LastValue(a, c) else Column(r, c)
    decreases |a|
  {
    if a != [] {
      var init := a[..|a| - 1];
      SetRowColumn(r, init, c);
      if a[|a| - 1].0 != c {
        assert HasKey(a, c) <==> HasKey(init, c) by {
          if HasKey(a, c) {
            var i :| 0 <= i < |a| && a[i].0 == c;
            assert init[i] == a[i];
          }
          if HasKey(init, c) {
            var i :| 0 <= i < |init| && init[i].0 == c;
            assert a[i] == init[i];
          }
        }
      } else {
        assert HasKey(a, c) by { assert a[|a| - 1].0 == c; }
      }
    }
  }

  /** The UNIQUE `name` constraint fails when the updated row would carry a
      non-NULL name that another row has. */
  predicate UpdateConflicts(moves: seq<MoveRow>, moveId: int, a: seq<(string, Value)>) {
    exists i, j :: 0 <= i < |moves| && 0 <= j < |moves| && moves[i].id == moveId && moves[j].id != moveId &&
      Column(SetRow(moves[i], a), "name") != VNone &&
      Column(SetRow(moves[i], a), "name") == Column(moves[j], "name")
  }

  /** The table after the UPDATE: the row `moveId` has the assignments
      applied, every other row is as it was. */
  function ApplyUpdate(moves: seq<MoveRow>, moveId: int, a: seq<(string, Value)>): (ms: seq<MoveRow>)
    ensures |ms| == |moves|
    ensures forall i :: 0 <= i < |moves| && moves[i].id != moveId ==> ms[i] == moves[i]
    ensures forall i :: 0 <= i < |moves| && moves[i].id == moveId ==> ms[i] == SetRow(moves[i], a)
  {
    seq(|moves|, i requires 0 <= i < |moves| => if moves[i].id == moveId then SetRow(moves[i], a) else moves[i])
  }

  /** Executing the UPDATE: the new table, or None for an IntegrityError
      (which leaves the table as it was). */
  function ExecUpdate(moves: seq<MoveRow>, moveId: int, a: seq<(string, Value)>): (r: Option<seq<MoveRow>>)
    ensures r.None? <==> UpdateConflicts(moves, moveId, a)
    ensures r.Some? ==> r.value == ApplyUpdate(moves, moveId, a)
  {
    if UpdateConflicts(moves, moveId, a) then None else Some(ApplyUpdate(moves, moveId, a))
  }

  // ---------------------------------------------------------------------
  // merge_move_duplicates_by_name

  /** `SELECT id FROM moves WHERE name=? AND id<>?`: the ids of the other
      rows with that name, in table order (`name = NULL` matches nothing). */
  function DuplicateIds(moves: seq<MoveRow>, canonical: int, name: Value): (ids: seq<int>)
    ensures forall id :: id in ids <==>
      name != VNone && id != canonical && exists r :: r in moves && r.id == id && Column(r, "name") == name
    decreases |moves|
  {
    if moves == [] then []
    else
      var rest := DuplicateIds(moves[1..], canonical, name);
      assert forall r :: r in moves <==> r == moves[0] || r in moves[1..];
      if name != VNone && moves[0].id != canonical && Column(moves[0], "name") == name then [moves[0].id] + rest
      else rest
  }

  /** `SELECT ... FROM pokemon_moves WHERE move_id=?`, in table order. */
  function RelationsOf(rels: seq<Relation>, moveId: int): (rs: seq<Relation>)
    ensures forall x :: x in rs <==> x in rels && x.moveId == moveId
    decreases |rels|
  {
    if rels == [] then []
    else
      var rest := RelationsOf(rels[1..], moveId);
      assert forall x :: x in rels <==> x == rels[0] || x in rels[1..];
      if rels[0].moveId == moveId then [rels[0]] + rest else rest
  }

  /** `DELETE FROM pokemon_moves WHERE move_id=?`. */
  function DropRelations(rels: seq<Relation>, moveId: int): (rs: seq<Relation>)
    ensures forall x :: x in rs <==> x in rels && x.moveId != moveId
    ensures KeysUnique(rels) ==> KeysUnique(rs)
    decreases |rels|
  {
    if rels == [] then []
    else
      var rest := DropRelations(rels[1..], moveId);
      assert forall x :: x in rels <==> x == rels[0] || x in rels[1..];
      assert KeysUnique(rels) ==> KeysUnique(rels[1..]) by {
        if KeysUnique(rels) {
          forall i, j | 0 <= i < j < |rels[1..]| ensures !SameKey(rels[1..][i], rels[1..][j]) {
            assert rels[1..][i] == rels[i + 1] && rels[1..][j] == rels[j + 1];
          }
        }
      }
      if rels[0].moveId != moveId then
        var rs := [rels[0]] + rest;
        assert KeysUnique(rels) ==> KeysUnique(rs) by {
          if KeysUnique(rels) {
            forall i, j | 0 <= i < j < |rs| ensures !SameKey(rs[i], rs[j]) {
              if i == 0 {
                assert rs[j] in rels[1..];
                var k :| 0 <= k < |rels[1..]| && rels[1..][k] == rs[j];
                assert rels[k + 1] == rs[j];
              } else {
                assert rs[i] == rest[i - 1] && rs[j] == rest[j - 1];
              }
            }
          }
        }
        rs
      else rest
  }

  /** `DELETE FROM moves WHERE id=?`. */
  function DropMove(moves: seq<MoveRow>, id: int): (ms: seq<MoveRow>)
    ensures forall r :: r in ms <==> r in moves && r.id != id
    decreases |moves|
  {
    if moves == [] then []
    else
      var rest := DropMove(moves[1..], id);
      assert forall r :: r in moves <==> r == moves[0] || r in moves[1..];
      if moves[0].id != id then [moves[0]] + rest else rest
  }

  /** Two relations collide on the UNIQUE key of `pokemon_moves`. */
  predicate SameKey(x: Relation, y: Relation) {
    x.pokemonId == y.pokemonId && x.moveId == y.moveId && x.learnMethod == y.learnMethod && x.learnMethod != VNone
  }

  predicate KeysUnique(rels: seq<Relation>) {
    forall i, j :: 0 <= i < j < |rels| ==> !SameKey(rels[i], rels[j])
  }

  /** `INSERT OR IGNORE INTO pokemon_moves`: the row is appended unless it
      collides with one already there. */
  function InsertOrIgnore(rels: seq<Relation>, x: Relation): (rs: seq<Relation>)
    ensures rs == rels || rs == rels + [x]
    ensures x in rs || exists y :: y in rels && SameKey(y, x)
    ensures KeysUnique(rels) ==> KeysUnique(rs)
  {
    if exists y :: y in rels && SameKey(y, x) then rels
    else
      var rs := rels + [x];
      assert KeysUnique(rels) ==> KeysUnique(rs) by {
        if KeysUnique(rels) {
          forall i, j | 0 <= i < j < |rs| ensures !SameKey(rs[i], rs[j]) {
            if j == |rels| { assert rs[i] in rels; } else { assert rs[i] == rels[i] && rs[j] == rels[j]; }
          }
        }
      }
      rs
  }

  /** The relation `x` moved to the canonical move. */
  function Retarget(x: Relation, canonical: int): (y: Relation)
    ensures y.moveId == canonical
    ensures y.pokemonId == x.pokemonId && y.learnMethod == x.learnMethod && y.level == x.level && y.tmNo == x.tmNo
  {
    x.(moveId := canonical)
  }

  /** The inner loop of the merge: each relation of a duplicate, in order,
      inserted-or-ignored under the canonical move. */
  function Repoint(rels: seq<Relation>, moved: seq<Relation>, canonical: int): seq<Relation>
    decreases |moved|
  {
    if moved == [] then rels
    else InsertOrIgnore(Repoint(rels, moved[..|moved| - 1], canonical), Retarget(moved[|moved| - 1], canonical))
  }
  /** The repointing up to one more moved relation. */
  lemma RepointStep(rels: seq<Relation>, moved: seq<Relation>, canonical: int, j: nat)
    requires j < |moved|
    ensures Repoint(rels, moved[..j + 1], canonical) == InsertOrIgnore(Repoint(rels, moved[..j], canonical), Retarget(moved[j], canonical))
  {
    assert moved[..j + 1][..j] == moved[..j];
  }


  /** Re-pointing only appends rows of the canonical move, keeps the key
      unique, and leaves every moved relation represented under the
      canonical move: either by its own copy or by the row it collided
      with, which has the same pokemon and learn method. */
  lemma {:induction false} RepointFacts(rels: seq<Relation>, moved: seq<Relation>, canonical: int)
    ensures var rs := Repoint(rels, moved, canonical);
      |rels| <= |rs| && rs[..|rels|] == rels &&
      (forall i :: |rels| <= i < |rs| ==> rs[i].moveId == canonical) &&
      (KeysUnique(rels) ==> KeysUnique(rs)) &&
      (forall y :: y in moved ==> exists z :: z in rs && z.moveId == canonical &&
                                      z.pokemonId == y.pokemonId && z.learnMethod == y.learnMethod)
    decreases |moved|
  {
    if moved != [] {
      var init := moved[..|moved| - 1];
      var last := moved[|moved| - 1];
      var base := Repoint(rels, init, canonical);
      var rs := Repoint(rels, moved, canonical);
      RepointFacts(rels, init, canonical);
      var x := Retarget(last, canonical);
      assert rs == InsertOrIgnore(base, x);
      assert rs[..|base|] == base;
      assert rs[..|rels|] == rels by { assert base[..|rels|] == rels; }
      forall y | y in moved
        ensures exists z :: z in rs && z.moveId == canonical && z.pokemonId == y.pokemonId && z.learnMethod == y.learnMethod
      {
        if y in init {
          var z :| z in base && z.moveId == canonical && z.pokemonId == y.pokemonId && z.learnMethod == y.learnMethod;
          assert z in rs;
        } else {
          assert y == last;
          if x !in rs {
            var z :| z in base && SameKey(z, x);
            assert z in rs;
          }
        }
      }
    }
  }

  /** One pass of the outer loop: the duplicate's relations re-pointed,
      then its relations and its row deleted. */
  function MergeOne(t: Tables, canonical: int, dup: int): Tables {
    var rels := Repoint(t.relations, RelationsOf(t.relations, dup), canonical);
    Tables(DropMove(t.moves, dup), DropRelations(rels, dup))
  }

  /** The outer loop over the duplicates, in order. */
  function MergeAll(t: Tables, canonical: int, dups: seq<int>): Tables
    decreases |dups|
  {
    if dups == [] then t
    else MergeOne(MergeAll(t, canonical, dups[..|dups| - 1]), canonical, dups[|dups| - 1])
  }

  /** `merge_move_duplicates_by_name`; with no duplicate it changes
      nothing. */
  function Merge(t: Tables, canonical: int, name: Value): (r: Tables)
    ensures DuplicateIds(t.moves, canonical, name) == [] ==> r == t
  {
    MergeAll(t, canonical, DuplicateIds(t.moves, canonical, name))
  }

  /** One merge pass keeps every row but the duplicate's, drops every
      relation of the duplicate, keeps every other relation, adds only
      relations of the canonical move, represents each of the duplicate's
      relations under the canonical move, and keeps the key unique. */
  lemma MergeOneFacts(t: Tables, canonical: int, dup: int)
    requires dup != canonical
    ensures var r := MergeOne(t, canonical, dup);
      (forall m :: m in r.moves <==> m in t.moves && m.id != dup) &&
      (forall x :: x in r.relations ==> x.moveId != dup && (x in t.relations || x.moveId == canonical)) &&
      (forall x :: x in t.relations && x.moveId != dup ==> x in r.relations) &&
      (forall y :: y in t.relations && y.moveId == dup ==>
         exists z :: z in r.relations && z.moveId == canonical && z.pokemonId == y.pokemonId && z.learnMethod == y.learnMethod) &&
      (KeysUnique(t.relations) ==> KeysUnique(r.relations))
  {
    var moved := RelationsOf(t.relations, dup);
    var rels := Repoint(t.relations, moved, canonical);
    var r := MergeOne(t, canonical, dup);
    RepointFacts(t.relations, moved, canonical);
    forall x | x in rels ensures x in t.relations || x.moveId == canonical {
      var i :| 0 <= i < |rels| && rels[i] == x;
      if i < |t.relations| { assert rels[..|t.relations|][i] == x; }
    }
    forall x | x in t.relations ensures x in rels {
      var i :| 0 <= i < |t.relations| && t.relations[i] == x;
      assert rels[..|t.relations|][i] == x;
    }
  }

  /** What the whole merge does, for duplicates that exclude the
      canonical move: the rows left are exactly those of the other ids, no
      relation refers to a duplicate, relations of other moves are kept,
      new relations belong to the canonical move, each relation of a
      duplicate is represented under the canonical move, and the key of
      `pokemon_moves` stays unique. */
  lemma {:induction false} MergeAllFacts(t: Tables, canonical: int, dups: seq<int>)
    requires canonical !in dups
    ensures var r := MergeAll(t, canonical, dups);
      (forall m :: m in r.moves <==> m in t.moves && m.id !in dups) &&
      (forall x :: x in r.relations ==> x.moveId !in dups && (x in t.relations || x.moveId == canonical)) &&
      (forall x :: x in t.relations && x.moveId !in dups ==> x in r.relations) &&
      (forall y :: y in t.relations && y.moveId in dups ==>
         exists z :: z in r.relations && z.moveId == canonical && z.pokemonId == y.pokemonId && z.learnMethod == y.learnMethod) &&
      (KeysUnique(t.relations) ==> KeysUnique(r.relations))
    decreases |dups|
  {
    if dups != [] {
      var init := dups[..|dups| - 1];
      var d := dups[|dups| - 1];
      assert forall e :: e in dups <==> e in init || e == d;
      var t1 := MergeAll(t, canonical, init);
      var r := MergeAll(t, canonical, dups);
      MergeAllFacts(t, canonical, init);
      MergeOneFacts(t1, canonical, d);
      forall y | y in t.relations && y.moveId in dups
        ensures exists z :: z in r.relations && z.moveId == canonical && z.pokemonId == y.pokemonId && z.learnMethod == y.learnMethod
      {
        if y.moveId in init {
          var z :| z in t1.relations && z.moveId == canonical && z.pokemonId == y.pokemonId && z.learnMethod == y.learnMethod;
          assert z in r.relations;
        } else {
          assert y in t1.relations;
        }
      }
    }
  }

  /** `id` is the primary key of `moves`. */
  predicate IdsUnique(moves: seq<MoveRow>) {
    forall i, j :: 0 <= i < |moves| && 0 <= j < |moves| && moves[i].id == moves[j].id ==> i == j
  }

  /** After the merge no row other than the canonical one has the name, no
      relation refers to a removed row, no row appears that was not there,
      and every row that does not carry the name is kept. */
  lemma MergeFacts(t: Tables, canonical: int, name: Value)
    requires IdsUnique(t.moves)
    ensures var r := Merge(t, canonical, name);
      (name != VNone ==> forall m :: m in r.moves && m.id != canonical ==> Column(m, "name") != name) &&
      (name != VNone ==> forall x, m :: x in r.relations && m in t.moves && m.id == x.moveId && m.id != canonical ==>
                                          Column(m, "name") != name) &&
      (forall m :: m in r.moves ==> m in t.moves) &&
      (forall m :: m in t.moves && (m.id == canonical || Column(m, "name") != name) ==> m in r.moves)
  {
    var dups := DuplicateIds(t.moves, canonical, name);
    MergeAllFacts(t, canonical, dups);
    var r := Merge(t, canonical, name);
    forall m | m in t.moves && (m.id == canonical || Column(m, "name") != name) ensures m in r.moves {
      forall q | q in t.moves && q.id == m.id ensures q == m {
        var i :| 0 <= i < |t.moves| && t.moves[i] == m;
        var j :| 0 <= j < |t.moves| && t.moves[j] == q;
      }
    }
  }

  // ---------------------------------------------------------------------
  // update_move_record_cloud

  /** `moves` satisfies its UNIQUE `name` constraint. */
  predicate NamesUnique(moves: seq<MoveRow>) {
    forall i, j :: 0 <= i < |moves| && 0 <= j < |moves| && i != j && Column(moves[i], "name") != VNone ==>
      Column(moves[i], "name") != Column(moves[j], "name")
  }

  /** The updated table: each column the SET list names holds its value in
      the row `moveId`; everything else is as it was. */
  lemma ApplyUpdateColumns(moves: seq<MoveRow>, moveId: int, a: seq<(string, Value)>)
    ensures var ms := ApplyUpdate(moves, moveId, a);
      forall i, c :: 0 <= i < |moves| ==>
        (ms[i].id == moves[i].id &&
         Column(ms[i], c) == if moves[i].id == moveId && HasKey(a, c) then LastValue(a, c) else Column(moves[i], c))
  {
    var ms := ApplyUpdate(moves, moveId, a);
    forall i, c | 0 <= i < |moves|
      ensures ms[i].id == moves[i].id &&
        Column(ms[i], c) == if moves[i].id == moveId && HasKey(a, c) then LastValue(a, c) else Column(moves[i], c)
    {
      if moves[i].id == moveId { SetRowColumn(moves[i], a, c); }
    }
  }

  /** How the update ended: no column to set, the UPDATE succeeded (on the
      first attempt or after the merge), or the IntegrityError of the retry
      propagated. */
  datatype UpdateOutcome = NothingToUpdate | Updated(retried: bool) | IntegrityFailure

  /** The SET list of the update of a scraped record. */
  function SetListOf(existing: set<string>, data: Record): seq<(string, Value)> {
    Assigned(Mapping(), existing, NormalizedOf(data))
  }

  /** `update_move_record_cloud` on the tables: no statement when nothing
      is to be set; otherwise the UPDATE, and on an IntegrityError the merge
      of the duplicates of `data["name"]` (only when that name is truthy)
      and one more UPDATE. */
  function UpdateRecord(t: Tables, existing: set<string>, moveId: int, data: Record): (res: (Tables, UpdateOutcome))
    ensures res.1 == NothingToUpdate <==> SetListOf(existing, data) == []
    ensures res.1 == NothingToUpdate ==> res.0 == t
    ensures res.0.relations != t.relations ==> res.1 != Updated(false) && Truthy(Field(data, Name))
  {
    var a := SetListOf(existing, data);
    if a == [] then (t, NothingToUpdate)
    else
      match ExecUpdate(t.moves, moveId, a)
      case Some(ms) => (t.(moves := ms), Updated(false))
      case None =>
        var t1 := if Truthy(Field(data, Name)) then Merge(t, moveId, Field(data, Name)) else t;
        match ExecUpdate(t1.moves, moveId, a)
        case Some(ms) => (t1.(moves := ms), Updated(true))
        case None => (t1, IntegrityFailure)
  }

  /** The row the update targets takes the record's name whenever the
      table has a `name` column. */
  lemma UpdatedName(r: MoveRow, existing: set<string>, data: Record)
    requires "name" in existing
    ensures Column(SetRow(r, SetListOf(existing, data)), "name") == Field(data, Name)
  {
    NameAssignment(existing, NormalizedOf(data));
    SetRowColumn(r, SetListOf(existing, data), "name");
  }

  /** The retry: when the first UPDATE fails and the record's name is
      truthy, the merge leaves no other row with that name and the second
      UPDATE succeeds on the merged tables; when the name is falsy the
      retry runs on unchanged tables and fails the same way. In a table
      whose names are unique the first UPDATE can only fail when it sets
      `name`. */
  lemma UpdateRetry(t: Tables, existing: set<string>, moveId: int, data: Record)
    requires IdsUnique(t.moves) && NamesUnique(t.moves)
    requires UpdateConflicts(t.moves, moveId, SetListOf(existing, data))
    ensures "name" in existing
    ensures Truthy(Field(data, Name)) ==>
      var t1 := Merge(t, moveId, Field(data, Name));
      UpdateRecord(t, existing, moveId, data) == (t1.(moves := ApplyUpdate(t1.moves, moveId, SetListOf(existing, data))), Updated(true))
    ensures !Truthy(Field(data, Name)) ==> UpdateRecord(t, existing, moveId, data) == (t, IntegrityFailure)
  {
    var a := SetListOf(existing, data);
    var i, j :| 0 <= i < |t.moves| && 0 <= j < |t.moves| && t.moves[i].id == moveId && t.moves[j].id != moveId &&
      Column(SetRow(t.moves[i], a), "name") != VNone && Column(SetRow(t.moves[i], a), "name") == Column(t.moves[j], "name");
    if "name" !in existing {
      NameAssignment(existing, NormalizedOf(data));
      SetRowColumn(t.moves[i], a, "name");
      assert false;
    }
    var name := Field(data, Name);
    if Truthy(name) {
      var t1 := Merge(t, moveId, name);
      MergeFacts(t, moveId, name);
      assert !UpdateConflicts(t1.moves, moveId, a) by {
        forall i', j' | 0 <= i' < |t1.moves| && 0 <= j' < |t1.moves| && t1.moves[i'].id == moveId && t1.moves[j'].id != moveId
          ensures Column(SetRow(t1.moves[i'], a), "name") != Column(t1.moves[j'], "name")
        {
          UpdatedName(t1.moves[i'], existing, data);
          assert t1.moves[j'] in t1.moves;
        }
      }
    }
  }

  // ---------------------------------------------------------------------
  // migrate_moves_schema

  /** `expected` of `migrate_moves_schema`: each column with its SQL type,
      in insertion order. */
  function ExpectedColumns(): seq<(string, string)> {
    [("move_key", "INTEGER"), ("name", "TEXT"), ("type", "TEXT"), ("category", "TEXT"),
     ("power", "INTEGER"), ("activation_time", "REAL"), ("startup_time", "REAL"),
     ("startup_time_q", "REAL"), ("startup_time_plus", "REAL"), ("recovery_time", "REAL"),
     ("total_time", "REAL"), ("total_time_plus", "REAL"), ("dps", "REAL"),
     ("direct_attack", "TEXT"), ("finger_wag", "TEXT"), ("protect", "TEXT"),
     ("substitute", "TEXT"), ("range_", "TEXT"), ("effect", "TEXT"), ("page_url", "TEXT")]
  }

  /** Column lists no two of whose names SQLite takes for one name. */
  predicate SqlDistinctNames(cols: seq<(string, string)>) {
    forall i, j :: 0 <= i < j < |cols| ==> !SameSqlName(cols[i].0, cols[j].0)
  }

  /** The expected columns that are not in `existing`, in expected order. */
  function MissingColumns(expected: seq<(string, string)>, existing: set<string>): (ms: seq<(string, string)>)
    ensures forall e :: e in ms <==> e in expected && e.0 !in existing
    ensures SqlDistinctNames(expected) ==> SqlDistinctNames(ms)
    decreases |expected|
  {
    if expected == [] then []
    else
      var init := expected[..|expected| - 1];
      var last := expected[|expected| - 1];
      var rest := MissingColumns(init, existing);
      assert forall e :: e in expected <==> e in init || e == last;
      if last.0 !in existing then
        assert SqlDistinctNames(expected) ==> SqlDistinctNames(rest + [last]) by {
          if SqlDistinctNames(expected) {
            forall i | 0 <= i < |rest| ensures !SameSqlName(rest[i].0, last.0) {
              assert rest[i] in init;
              var k :| 0 <= k < |init| && init[k] == rest[i];
              assert expected[k] == init[k];
            }
          }
        }
        rest + [last]
      else rest
  }

  /** Nothing is missing when every expected name exists. */
  lemma {:induction false} NothingMissing(expected: seq<(string, string)>, existing: set<string>)
    requires forall e :: e in expected ==> e.0 in existing
    ensures MissingColumns(expected, existing) == []
    decreases |expected|
  {
    if expected != [] {
      var init := expected[..|expected| - 1];
      assert forall e :: e in init ==> e in expected;
      assert expected[|expected| - 1] in expected;
      NothingMissing(init, existing);
    }
  }

  /** Dropping expected columns from the end drops missing ones from the end. */
  lemma {:induction false} MissingPrefix(expected: seq<(string, string)>, existing: set<string>, i: nat)
    requires i <= |expected|
    ensures var p := MissingColumns(expected[..i], existing);
      var ms := MissingColumns(expected, existing);
      |p| <= |ms| && ms[..|p|] == p
    decreases |expected|
  {
    if i < |expected| {
      var init := expected[..|expected| - 1];
      MissingPrefix(init, existing, i);
      assert init[..i] == expected[..i];
      var rest := MissingColumns(init, existing);
      var p := MissingColumns(expected[..i], existing);
      assert rest[..|p|] == p;
      if expected[|expected| - 1].0 !in existing {
        assert (rest + [expected[|expected| - 1]])[..|rest|] == rest;
      }
    } else {
      assert expected[..i] == expected;
    }
  }

  /** `ALTER TABLE moves ADD COLUMN {col} {coltype}`. */
  function AlterStatement(col: string, colType: string): string {
    "ALTER TABLE moves ADD COLUMN " + col + " " + colType
  }

  function AlterStatements(added: seq<(string, string)>): (sts: seq<string>)
    ensures |sts| == |added| && forall i :: 0 <= i < |added| ==> sts[i] == AlterStatement(added[i].0, added[i].1)
  {
    seq(|added|, i requires 0 <= i < |added| => AlterStatement(added[i].0, added[i].1))
  }

  /** The `table_info` rows after ADD COLUMN of each of `added` in order:
      each new column comes last, nullable, without default. */
  function AddColumns(info: seq<Db.TableInfoRow>, added: seq<(string, string)>): seq<Db.TableInfoRow>
    decreases |added|
  {
    if added == [] then info
    else
      var base := AddColumns(info, added[..|added| - 1]);
      var last := added[|added| - 1];
      base + [Db.TableInfoRow(|base|, last.0, last.1, 0, VNone, 0)]
  }

  /** Adding columns keeps the old rows in front and adds one row, with
      that name and type, per added column. */
  lemma {:induction false} AddColumnsShape(info: seq<Db.TableInfoRow>, added: seq<(string, string)>)
    ensures var r := AddColumns(info, added);
      |r| == |info| + |added| && r[..|info|] == info &&
      forall i :: 0 <= i < |added| ==> r[|info| + i].name == added[i].0 && r[|info| + i].declaredType == added[i].1
    decreases |added|
  {
    if added != [] {
      var init := added[..|added| - 1];
      var base := AddColumns(info, init);
      var r := AddColumns(info, added);
      AddColumnsShape(info, init);
      assert r[..|base|] == base;
      assert r[..|info|] == base[..|info|];
      forall i | 0 <= i < |added| ensures r[|info| + i].name == added[i].0 && r[|info| + i].declaredType == added[i].1 {
        if i < |init| { assert r[|info| + i] == base[|info| + i]; assert init[i] == added[i]; }
      }
    }
  }

  /** The columns after adding are the old ones and the added ones. */
  lemma AddColumnsNames(info: seq<Db.TableInfoRow>, added: seq<(string, string)>)
    ensures Db.TableColumns(AddColumns(info, added)) == Db.TableColumns(info) + set i | 0 <= i < |added| :: added[i].0
  {
    var r := AddColumns(info, added);
    AddColumnsShape(info, added);
    var names := set i | 0 <= i < |added| :: added[i].0;
    forall c | c in Db.TableColumns(r) ensures c in Db.TableColumns(info) + names {
      var i :| 0 <= i < |r| && r[i].name == c;
      if i < |info| { assert r[..|info|][i] == r[i]; } else { assert added[i - |info|].0 == c; }
    }
    forall c | c in Db.TableColumns(info) ensures c in Db.TableColumns(r) {
      var i :| 0 <= i < |info| && info[i].name == c;
      assert r[..|info|][i] == r[i];
    }
    forall c | c in names ensures c in Db.TableColumns(r) {
      var i :| 0 <= i < |added| && added[i].0 == c;
      assert r[|info| + i].name == c;
    }
  }

  /** Whether SQLite takes `a` and `b` for the same column name: one length,
      and the same characters once ASCII letters are case-folded (SQLite
      folds no other character). */
  predicate SameSqlName(a: string, b: string) {
    |a| == |b| && forall i :: 0 <= i < |a| ==> AsciiLower(a[i]) == AsciiLower(b[i])
  }

  /** Whether `ALTER TABLE ... ADD COLUMN col` is refused with "duplicate
      column name": a column of the table has the same SQL name. */
  predicate NameTaken(info: seq<Db.TableInfoRow>, col: string) {
    exists j :: 0 <= j < |info| && SameSqlName(info[j].name, col)
  }

  /** SQLite takes every name for itself. */
  lemma SameSqlNameReflexive(a: string)
    ensures SameSqlName(a, a)
  {
  }

  /** A column name is taken after ADD COLUMN of `added` exactly when it was
      taken before or one of the added names is the same SQL name. */
  lemma AddColumnsTaken(info: seq<Db.TableInfoRow>, added: seq<(string, string)>, col: string)
    ensures NameTaken(AddColumns(info, added), col) <==>
      NameTaken(info, col) || exists j :: 0 <= j < |added| && SameSqlName(added[j].0, col)
  {
    var r := AddColumns(info, added);
    AddColumnsShape(info, added);
    if NameTaken(r, col) {
      var j :| 0 <= j < |r| && SameSqlName(r[j].name, col);
      if j < |info| { assert r[..|info|][j] == r[j]; } else { assert SameSqlName(added[j - |info|].0, col); }
    }
    if NameTaken(info, col) {
      var j :| 0 <= j < |info| && SameSqlName(info[j].name, col);
      assert r[..|info|][j] == r[j];
    }
    if exists j :: 0 <= j < |added| && SameSqlName(added[j].0, col) {
      var j :| 0 <= j < |added| && SameSqlName(added[j].0, col);
      assert r[|info| + j].name == added[j].0;
    }
  }

  /** Whether SQLite refuses ADD COLUMN of `added[j]` after adding the
      columns before it: its name is taken in the table or by one of them. */
  predicate Refused(info: seq<Db.TableInfoRow>, added: seq<(string, string)>, j: nat)
    requires j < |added|
  {
    NameTaken(info, added[j].0) || exists i :: 0 <= i < j && SameSqlName(added[i].0, added[j].0)
  }

  /** How many of `added`, counted from `i`, SQLite adds in order before the
      first it refuses. */
  function FirstRefusedFrom(info: seq<Db.TableInfoRow>, added: seq<(string, string)>, i: nat): (k: nat)
    requires i <= |added|
    requires forall j :: 0 <= j < i ==> !Refused(info, added, j)
    ensures i <= k <= |added|
    ensures forall j :: 0 <= j < k ==> !Refused(info, added, j)
    ensures k < |added| ==> Refused(info, added, k)
    decreases |added| - i
  {
    if i == |added| || Refused(info, added, i) then i
    else FirstRefusedFrom(info, added, i + 1)
  }

  /** The number of `added` that ADD COLUMN accepts, in order, before the
      first refused one (all of them when none is refused). */
  function FirstRefused(info: seq<Db.TableInfoRow>, added: seq<(string, string)>): (k: nat)
    ensures k <= |added|
    ensures forall j :: 0 <= j < k ==> !Refused(info, added, j)
    ensures k < |added| ==> Refused(info, added, k)
  {
    FirstRefusedFrom(info, added, 0)
  }

  /** The first refusal is determined by the two facts FirstRefused states. */
  lemma FirstRefusedIs(info: seq<Db.TableInfoRow>, added: seq<(string, string)>, p: nat)
    requires p <= |added|
    requires forall j :: 0 <= j < p ==> !Refused(info, added, j)
    requires p < |added| ==> Refused(info, added, p)
    ensures FirstRefused(info, added) == p
  {
  }

  /** Whether SQLite accepts each of `added` in turn. */
  predicate AcceptedAll(info: seq<Db.TableInfoRow>, added: seq<(string, string)>) {
    forall j :: 0 <= j < |added| ==> !Refused(info, added, j)
  }

  /** The missing columns of one more expected column. */
  lemma MissingStep(expected: seq<(string, string)>, existing: set<string>, i: nat)
    requires i < |expected|
    ensures MissingColumns(expected[..i + 1], existing) ==
      if expected[i].0 in existing then MissingColumns(expected[..i], existing)
      else MissingColumns(expected[..i], existing) + [expected[i]]
  {
    assert expected[..i + 1][..i] == expected[..i] && expected[..i + 1][i] == expected[i];
  }

  /** Adding one more column appends its row and its statement. */
  lemma AddOneMore(info: seq<Db.TableInfoRow>, ms: seq<(string, string)>, c: (string, string))
    ensures AddColumns(info, ms + [c]) == AddColumns(info, ms) + [Db.TableInfoRow(|AddColumns(info, ms)|, c.0, c.1, 0, VNone, 0)]
    ensures AlterStatements(ms + [c]) == AlterStatements(ms) + [AlterStatement(c.0, c.1)]
  {
    assert (ms + [c])[..|ms|] == ms;
  }

  /** SQLite accepts one more column exactly when its name is free in the
      table as it then is. */
  lemma AcceptOneMore(info: seq<Db.TableInfoRow>, ms: seq<(string, string)>, c: (string, string))
    requires AcceptedAll(info, ms)
    ensures Refused(info, ms + [c], |ms|) <==> NameTaken(AddColumns(info, ms), c.0)
    ensures !NameTaken(AddColumns(info, ms), c.0) ==> AcceptedAll(info, ms + [c])
  {
    var ms' := ms + [c];
    assert forall j :: 0 <= j < |ms| ==> ms'[j] == ms[j];
    AddColumnsTaken(info, ms, c.0);
    forall j | 0 <= j < |ms| ensures Refused(info, ms', j) == Refused(info, ms, j) {
      assert forall i :: 0 <= i < j ==> ms'[i] == ms[i];
    }
  }

  /** Whether a column is refused depends only on the columns up to it. */
  lemma RefusedOnPrefix(info: seq<Db.TableInfoRow>, big: seq<(string, string)>, small: seq<(string, string)>)
    requires |small| <= |big| && big[..|small|] == small
    ensures forall j :: 0 <= j < |small| ==> (Refused(info, big, j) <==> Refused(info, small, j))
  {
    assert forall j :: 0 <= j < |small| ==> big[j] == small[j];
  }

  /** A list whose first refused column comes right after `ms` has its
      first refusal there. */
  lemma StopIndex(info: seq<Db.TableInfoRow>, missing: seq<(string, string)>, ms: seq<(string, string)>, c: (string, string))
    requires |ms| < |missing| && missing[..|ms| + 1] == ms + [c]
    requires AcceptedAll(info, ms) && Refused(info, ms + [c], |ms|)
    ensures FirstRefused(info, missing) == |ms|
  {
    var ms' := ms + [c];
    RefusedOnPrefix(info, missing, ms');
    assert ms'[..|ms|] == ms;
    RefusedOnPrefix(info, ms', ms);
    FirstRefusedIs(info, missing, |ms|);
  }

  /** Migrate's result when the first refused column comes after `ms`. */
  lemma MigrateRefusedAfter(info: seq<Db.TableInfoRow>, expected: seq<(string, string)>, ms: seq<(string, string)>, c: (string, string))
    requires |ms| < |MissingColumns(expected, Db.TableColumns(info))|
    requires MissingColumns(expected, Db.TableColumns(info))[..|ms| + 1] == ms + [c]
    requires FirstRefused(info, MissingColumns(expected, Db.TableColumns(info))) == |ms|
    ensures Migrate(info, expected) == Migration(AddColumns(info, ms), AlterStatements(ms + [c]), Some(c.0))
  {
    var missing := MissingColumns(expected, Db.TableColumns(info));
    assert missing[..|ms|] == ms by { assert missing[..|ms|] == missing[..|ms| + 1][..|ms|]; }
    assert missing[|ms|] == (ms + [c])[|ms|];
  }

  /** The migration loop stopping at a refused column gives Migrate's result. */
  lemma MigrateStop(info: seq<Db.TableInfoRow>, expected: seq<(string, string)>, i: nat)
    requires i < |expected| && expected[i].0 !in Db.TableColumns(info)
    requires AcceptedAll(info, MissingColumns(expected[..i], Db.TableColumns(info)))
    requires Refused(info, MissingColumns(expected[..i], Db.TableColumns(info)) + [expected[i]], |MissingColumns(expected[..i], Db.TableColumns(info))|)
    ensures Migrate(info, expected) ==
      Migration(AddColumns(info, MissingColumns(expected[..i], Db.TableColumns(info))),
                AlterStatements(MissingColumns(expected[..i], Db.TableColumns(info))) + [AlterStatement(expected[i].0, expected[i].1)],
                Some(expected[i].0))
  {
    var existing := Db.TableColumns(info);
    var missing := MissingColumns(expected, existing);
    var ms := MissingColumns(expected[..i], existing);
    var ms' := ms + [expected[i]];
    MissingStep(expected, existing, i);
    MissingPrefix(expected, existing, i + 1);
    assert missing[..|ms'|] == ms';
    StopIndex(info, missing, ms, expected[i]);
    MigrateRefusedAfter(info, expected, ms, expected[i]);
    AddOneMore(info, ms, expected[i]);
  }

  /** One turn of the migration loop over `expected[i]`, from the table and
      statements reached after `expected[..i]`: an expected column present by
      its exact name is skipped, a free one is added, and a taken one ends
      the migration with Migrate's result. */
  lemma MigrateTurn(info0: seq<Db.TableInfoRow>, expected: seq<(string, string)>, i: nat,
                    info: seq<Db.TableInfoRow>, statements: seq<string>)
    requires i < |expected|
    requires info == AddColumns(info0, MissingColumns(expected[..i], Db.TableColumns(info0)))
    requires statements == AlterStatements(MissingColumns(expected[..i], Db.TableColumns(info0)))
    requires AcceptedAll(info0, MissingColumns(expected[..i], Db.TableColumns(info0)))
    ensures expected[i].0 in Db.TableColumns(info0) ==>
      MissingColumns(expected[..i + 1], Db.TableColumns(info0)) == MissingColumns(expected[..i], Db.TableColumns(info0))
    ensures expected[i].0 !in Db.TableColumns(info0) && !NameTaken(info, expected[i].0) ==>
      info + [Db.TableInfoRow(|info|, expected[i].0, expected[i].1, 0, VNone, 0)] ==
        AddColumns(info0, MissingColumns(expected[..i + 1], Db.TableColumns(info0))) &&
      statements + [AlterStatement(expected[i].0, expected[i].1)] ==
        AlterStatements(MissingColumns(expected[..i + 1], Db.TableColumns(info0))) &&
      AcceptedAll(info0, MissingColumns(expected[..i + 1], Db.TableColumns(info0)))
    ensures expected[i].0 !in Db.TableColumns(info0) && NameTaken(info, expected[i].0) ==>
      Migrate(info0, expected) ==
        Migration(info, statements + [AlterStatement(expected[i].0, expected[i].1)], Some(expected[i].0))
  {
    var existing := Db.TableColumns(info0);
    var ms := MissingColumns(expected[..i], existing);
    MissingStep(expected, existing, i);
    if expected[i].0 !in existing {
      AddOneMore(info0, ms, expected[i]);
      AcceptOneMore(info0, ms, expected[i]);
      if NameTaken(info, expected[i].0) {
        MigrateStop(info0, expected, i);
      }
    }
  }

  /** The migration loop running to its end gives Migrate's result. */
  lemma MigrateEnd(info: seq<Db.TableInfoRow>, expected: seq<(string, string)>)
    requires AcceptedAll(info, MissingColumns(expected, Db.TableColumns(info)))
    ensures Migrate(info, expected) ==
      Migration(AddColumns(info, MissingColumns(expected, Db.TableColumns(info))),
                AlterStatements(MissingColumns(expected, Db.TableColumns(info))), None)
  {
    var ms := MissingColumns(expected, Db.TableColumns(info));
    FirstRefusedIs(info, ms, |ms|);
  }

  /** What `migrate_moves_schema` leaves: the `table_info` rows, the ALTER
      statements executed, and the column whose ALTER SQLite refused with
      "duplicate column name", if one was. That OperationalError ends the
      function before its commit and is not caught by `run`; the rows are
      the table as the connection sees it then. */
  datatype Migration = Migration(info: seq<Db.TableInfoRow>, statements: seq<string>, duplicate: Option<string>)

  /** `migrate_moves_schema`: the expected columns missing by their exact
      name (`col not in existing_cols`) are added in order, until SQLite
      refuses one whose name the table already has up to case. */
  function Migrate(info: seq<Db.TableInfoRow>, expected: seq<(string, string)>): Migration {
    var missing := MissingColumns(expected, Db.TableColumns(info));
    var k := FirstRefused(info, missing);
    if k == |missing| then Migration(AddColumns(info, missing), AlterStatements(missing), None)
    else Migration(AddColumns(info, missing[..k]), AlterStatements(missing[..k + 1]), Some(missing[k].0))
  }

  /** When no ALTER is refused, every expected column exists afterwards; the
      old columns are kept as they were, in front; each added column was
      expected and missing, with its expected type; and one ALTER statement
      is issued per added column. */
  lemma MigrateFacts(info: seq<Db.TableInfoRow>, expected: seq<(string, string)>)
    ensures var m := Migrate(info, expected);
      var (r, sts) := (m.info, m.statements);
      m.duplicate.None? ==>
      (forall e :: e in expected ==> e.0 in Db.TableColumns(r)) &&
      |r| >= |info| && r[..|info|] == info &&
      (forall i :: |info| <= i < |r| ==> (r[i].name, r[i].declaredType) in expected && r[i].name !in Db.TableColumns(info)) &&
      |sts| == |r| - |info| &&
      (forall i :: 0 <= i < |sts| ==> sts[i] == AlterStatement(r[|info| + i].name, r[|info| + i].declaredType))
  {
    var missing := MissingColumns(expected, Db.TableColumns(info));
    if FirstRefused(info, missing) == |missing| {
      var r := AddColumns(info, missing);
      AddColumnsShape(info, missing);
      AddColumnsNames(info, missing);
      forall e | e in expected ensures e.0 in Db.TableColumns(r) {
        if e.0 !in Db.TableColumns(info) {
          var i :| 0 <= i < |missing| && missing[i] == e;
        }
      }
      forall i | |info| <= i < |r| ensures (r[i].name, r[i].declaredType) in expected && r[i].name !in Db.TableColumns(info) {
        assert missing[i - |info|] in missing;
      }
    }
  }

  /** When an ALTER is refused, the migration has added, in order and each
      accepted, the missing columns before it and no other; the last
      statement is the refused one, for a missing expected column whose name
      the table already takes up to case. */
  lemma MigrateDuplicate(info: seq<Db.TableInfoRow>, expected: seq<(string, string)>)
    ensures var m := Migrate(info, expected);
      var missing := MissingColumns(expected, Db.TableColumns(info));
      var k := |m.statements| - 1;
      m.duplicate.Some? ==>
      0 <= k < |missing| && m.duplicate.value == missing[k].0 &&
      m.duplicate.value !in Db.TableColumns(info) &&
      NameTaken(m.info, m.duplicate.value) &&
      m.info == AddColumns(info, missing[..k]) && m.statements == AlterStatements(missing[..k + 1]) &&
      (forall j :: 0 <= j < k ==> !Refused(info, missing, j))
  {
    var missing := MissingColumns(expected, Db.TableColumns(info));
    var k := FirstRefused(info, missing);
    if k < |missing| {
      assert missing[k] in missing;
      AddColumnsTaken(info, missing[..k], missing[k].0);
      if !NameTaken(info, missing[k].0) {
        var i :| 0 <= i < k && SameSqlName(missing[i].0, missing[k].0);
        assert missing[..k][i] == missing[i];
      }
    }
  }

  /** With no two names SQLite confuses, a column is refused exactly when
      the table had its name before the migration. */
  lemma RefusedByTableOnly(info: seq<Db.TableInfoRow>, added: seq<(string, string)>)
    requires SqlDistinctNames(added)
    ensures forall j :: 0 <= j < |added| ==> (Refused(info, added, j) <==> NameTaken(info, added[j].0))
  {
  }

  /** With no two names SQLite confuses, a name no earlier column had is not
      among the columns added before it. */
  lemma AcceptedBeforeAbsent(info: seq<Db.TableInfoRow>, added: seq<(string, string)>, k: nat)
    requires SqlDistinctNames(added) && k < |added|
    requires added[k].0 !in Db.TableColumns(info)
    ensures added[k].0 !in Db.TableColumns(AddColumns(info, added[..k]))
  {
    var c := added[k].0;
    AddColumnsNames(info, added[..k]);
    SameSqlNameReflexive(c);
    forall j | 0 <= j < k ensures added[..k][j].0 != c {
      assert added[..k][j] == added[j];
    }
  }

  /** For expected columns no two of whose names SQLite confuses, as in
      `migrate_moves_schema`: the migration fails exactly when an expected
      column is missing by its exact name while a column of the table has
      its name up to case (a legacy `Power` column for `power`); the refused
      column is such an expected one and is still absent afterwards. */
  lemma MigrateFailsExactly(info: seq<Db.TableInfoRow>, expected: seq<(string, string)>)
    requires SqlDistinctNames(expected)
    ensures var m := Migrate(info, expected);
      (m.duplicate.Some? <==> exists e :: e in expected && e.0 !in Db.TableColumns(info) && NameTaken(info, e.0)) &&
      (m.duplicate.Some? ==>
         m.duplicate.value !in Db.TableColumns(info) && NameTaken(info, m.duplicate.value) &&
         m.duplicate.value !in Db.TableColumns(m.info) &&
         exists i :: 0 <= i < |expected| && expected[i].0 == m.duplicate.value)
  {
    var existing := Db.TableColumns(info);
    var missing := MissingColumns(expected, existing);
    RefusedByTableOnly(info, missing);
    var k := FirstRefused(info, missing);
    if exists e :: e in expected && e.0 !in existing && NameTaken(info, e.0) {
      var e :| e in expected && e.0 !in existing && NameTaken(info, e.0);
      var i :| 0 <= i < |missing| && missing[i] == e;
      assert Refused(info, missing, i);
    }
    if k < |missing| {
      assert missing[k] in missing;
      AcceptedBeforeAbsent(info, missing, k);
    }
  }

  /** When exactly one expected name is taken up to case, and not by its
      exact spelling, the migration stops at that column and leaves it out. */
  lemma OnlyCaseVariantRefused(info: seq<Db.TableInfoRow>, expected: seq<(string, string)>, i: nat)
    requires SqlDistinctNames(expected) && i < |expected|
    requires expected[i].0 !in Db.TableColumns(info) && NameTaken(info, expected[i].0)
    requires forall j :: 0 <= j < |expected| && j != i ==> !NameTaken(info, expected[j].0)
    ensures var m := Migrate(info, expected);
      m.duplicate == Some(expected[i].0) && expected[i].0 !in Db.TableColumns(m.info)
  {
    assert expected[i] in expected;
    MigrateFailsExactly(info, expected);
  }

  /** The length and the case-folded first character of a name: names
      with different tags are never the same SQL name. */
  function NameTag(s: string): (int, char) {
    (|s|, if s == [] then ' ' else AsciiLower(s[0]))
  }

  lemma SameTags(a: string, b: string)
    requires SameSqlName(a, b)
    ensures NameTag(a) == NameTag(b)
  {
  }

  /** The tags of the expected columns of `migrate_moves_schema`, in order. */
  function ExpectedTagList(): (tags: seq<(int, char)>)
    ensures forall i, j :: 0 <= i < j < |tags| ==> tags[i] != tags[j]
  {
    [(8, 'm'), (4, 'n'), (4, 't'), (8, 'c'), (5, 'p'), (15, 'a'), (12, 's'), (14, 's'), (17, 's'), (13, 'r'),
     (10, 't'), (15, 't'), (3, 'd'), (13, 'd'), (10, 'f'), (7, 'p'), (10, 's'), (6, 'r'), (6, 'e'), (8, 'p')]
  }

  /** No two expected columns of `migrate_moves_schema` have the same tag. */
  lemma ExpectedTags()
    ensures var e := ExpectedColumns();
      forall i, j :: 0 <= i < j < |e| ==> NameTag(e[i].0) != NameTag(e[j].0)
  {
    var e := ExpectedColumns();
    var tags := ExpectedTagList();
    assert |tags| == |e| && forall i :: 0 <= i < |e| ==> NameTag(e[i].0) == tags[i];
  }

  /** Every expected column name has at least three characters. */
  lemma ExpectedLengths()
    ensures var e := ExpectedColumns();
      forall i :: 0 <= i < |e| ==> |e[i].0| >= 3
  {
  }

  /** No two expected columns of `migrate_moves_schema` have names SQLite
      confuses. */
  lemma ExpectedColumnsNames()
    ensures SqlDistinctNames(ExpectedColumns())
  {
    var e := ExpectedColumns();
    ExpectedTags();
    forall i, j | 0 <= i < j < |e| ensures !SameSqlName(e[i].0, e[j].0) {
      if SameSqlName(e[i].0, e[j].0) { SameTags(e[i].0, e[j].0); }
    }
  }

  /** `migrate_moves_schema` fails exactly on a table with a column such as
      `Power`: an expected name in other case. */
  lemma MigrateSchemaFailsExactly(info: seq<Db.TableInfoRow>)
    ensures var m := Migrate(info, ExpectedColumns());
      (m.duplicate.Some? <==> exists e :: e in ExpectedColumns() && e.0 !in Db.TableColumns(info) && NameTaken(info, e.0)) &&
      (m.duplicate.Some? ==> NameTaken(info, m.duplicate.value) && m.duplicate.value !in Db.TableColumns(m.info))
  {
    ExpectedColumnsNames();
    MigrateFailsExactly(info, ExpectedColumns());
  }

  /** In a legacy `moves` table with an `id` column and its power column
      spelt `Power`, `power` is the only expected name taken up to case. */
  lemma LegacyPowerColumnNames(info: seq<Db.TableInfoRow>)
    requires |info| == 2 && info[0].name == "id" && info[1].name == "Power"
    ensures var e := ExpectedColumns();
      e[4].0 == "power" && "power" !in Db.TableColumns(info) && NameTaken(info, "power") &&
      forall j :: 0 <= j < |e| && j != 4 ==> !NameTaken(info, e[j].0)
  {
    var e := ExpectedColumns();
    assert SameSqlName(info[1].name, "power");
    ExpectedLengths();
    ExpectedTags();
    forall j | 0 <= j < |e| && j != 4 ensures !NameTaken(info, e[j].0) {
      if k :| 0 <= k < |info| && SameSqlName(info[k].name, e[j].0) {
        SameTags(info[k].name, e[j].0);
        assert false;
      }
    }
  }

  /** That table: the ALTER for `power` is refused, and the table is left
      without `power`. */
  lemma LegacyPowerColumnRefused(info: seq<Db.TableInfoRow>)
    requires |info| == 2 && info[0].name == "id" && info[1].name == "Power"
    ensures var m := Migrate(info, ExpectedColumns());
      m.duplicate == Some("power") && "power" !in Db.TableColumns(m.info)
  {
    LegacyPowerColumnNames(info);
    ExpectedColumnsNames();
    OnlyCaseVariantRefused(info, ExpectedColumns(), 4);
  }

  /** Migrating a successfully migrated table adds nothing. */
  lemma MigrateIdempotent(info: seq<Db.TableInfoRow>, expected: seq<(string, string)>)
    ensures var m := Migrate(info, expected);
      m.duplicate.None? ==> Migrate(m.info, expected) == Migration(m.info, [], None)
  {
    var m := Migrate(info, expected);
    MigrateFacts(info, expected);
    if m.duplicate.None? {
      NothingMissing(expected, Db.TableColumns(m.info));
    }

  }
}
