/** The scraper's connection to its database (`src/scrape_za.py`) as an
    object whose tables the three write paths change in place:
    `merge_move_duplicates_by_name`, `update_move_record_cloud` and
    `migrate_moves_schema`. Each statement they execute takes effect as
    the matching function of `ScrapeTables` says; each method is proved
    to leave the tables as the specification of `ScrapeTables` gives. */
module ScrapeDb {
  import opened Wrappers
  import opened PyValues
  import opened ScrapeRecord
  import opened ScrapeTables
  import Db

  /** `(col, value)` pairs of two parallel lists. */
  function Pairs(cols: seq<string>, values: seq<Value>): (ps: seq<(string, Value)>)
    requires |cols| == |values|
    ensures |ps| == |cols| && forall i :: 0 <= i < |cols| ==> ps[i] == (cols[i], values[i])
  {
    seq(|cols|, i requires 0 <= i < |cols| => (cols[i], values[i]))
  }

  /** Splitting a SET list into its columns and its values and pairing them
      again gives the SET list back. */
  lemma PairsOfSplit(a: seq<(string, Value)>)
    ensures Pairs(Keys(a), Values(a)) == a
  {
    assert forall i :: 0 <= i < |a| ==> Pairs(Keys(a), Values(a))[i] == a[i];
  }

  class MovesDb {
    /** `PRAGMA table_info(moves)`. */
    var info: seq<Db.TableInfoRow>
    var moves: seq<MoveRow>
    /** `pokemon_moves`. */
    var relations: seq<Relation>

    constructor (info: seq<Db.TableInfoRow>, moves: seq<MoveRow>, relations: seq<Relation>)
      ensures this.info == info && this.moves == moves && this.relations == relations
    {
      this.info := info;
      this.moves := moves;
      this.relations := relations;
    }

    function State(): Tables
      reads this
    {
      Tables(moves, relations)
    }

    /** `merge_move_duplicates_by_name`: the duplicates are looked up once;
        each, in order, is merged into the canonical move. */
    method MergeDuplicatesByName(canonical: int, name: Value)
      modifies this
      ensures State() == Merge(old(State()), canonical, name)
      ensures info == old(info)
    {
      var duplicates := DuplicateIds(moves, canonical, name);
      if duplicates == [] {
        return;
      }
      ghost var t0 := State();
      for k := 0 to |duplicates|
        invariant State() == MergeAll(t0, canonical, duplicates[..k])
        invariant info == old(info)
      {
        MergeDuplicate(canonical, duplicates[k]);
        assert duplicates[..k + 1][..k] == duplicates[..k];
      }
      assert duplicates[..|duplicates|] == duplicates;
    }

    /** The body of the loop over the duplicates: the duplicate's relations
        re-pointed, then its relations and its row deleted. */
    method MergeDuplicate(canonical: int, dupId: int)
      modifies this
      ensures State() == MergeOne(old(State()), canonical, dupId)
      ensures info == old(info)
    {
      RepointRelations(canonical, dupId);
      relations := DropRelations(relations, dupId);
      moves := DropMove(moves, dupId);
    }

    /** The relations of the duplicate, selected once, each inserted (or
        ignored) under the canonical move, in order. */
    method RepointRelations(canonical: int, dupId: int)
      modifies this
      ensures relations == Repoint(old(relations), RelationsOf(old(relations), dupId), canonical)
      ensures moves == old(moves) && info == old(info)
    {
      var rows := RelationsOf(relations, dupId);
      ghost var r0 := relations;
      for j := 0 to |rows|
        invariant relations == Repoint(r0, rows[..j], canonical)
        invariant moves == old(moves) && info == old(info)
      {
        RepointStep(r0, rows, canonical, j);
        relations := InsertOrIgnore(relations, Retarget(rows[j], canonical));
      }
      assert rows[..|rows|] == rows;
    }

    /** One execution of the UPDATE (`do_update`): either it takes effect
        or it raises an IntegrityError and changes nothing. */
    method ExecuteUpdate(moveId: int, assigns: seq<(string, Value)>) returns (integrityError: bool)
      modifies this
      ensures integrityError == UpdateConflicts(old(moves), moveId, assigns)
      ensures moves == if integrityError then old(moves) else ApplyUpdate(old(moves), moveId, assigns)
      ensures relations == old(relations) && info == old(info)
    {
      match ExecUpdate(moves, moveId, assigns)
      case None =>
        integrityError := true;
      case Some(ms) =>
        moves := ms;
        integrityError := false;
    }

    /** `update_move_record_cloud`: returns how it ended and the statement
        it executed (None when there was nothing to set). */
    method UpdateMoveRecord(moveId: int, data: Record) returns (outcome: UpdateOutcome, statement: Option<UpdateStatement>)
      modifies this
      ensures (State(), outcome) == UpdateRecord(old(State()), Db.TableColumns(old(info)), moveId, data)
      ensures info == old(info)
      ensures statement.None? <==> outcome == NothingToUpdate
      ensures statement.Some? ==>
        var a := SetListOf(Db.TableColumns(info), data);
        statement.value == UpdateStatementOf(Keys(a), Values(a), moveId)
    {
      var existing := Db.TableColumns(info);
      var normalized := NormalizeMove(data);
      var setColumns, values := BuildSetClause(existing, normalized);
      ghost var a := SetListOf(existing, data);
      if setColumns == [] {
        assert a == [] by { assert |a| == |Keys(a)|; }
        return NothingToUpdate, None;
      }
      statement := Some(UpdateStatementOf(setColumns, values, moveId));
      PairsOfSplit(a);
      var assigns := Pairs(setColumns, values);
      var failed := ExecuteUpdate(moveId, assigns);
      if !failed {
        return Updated(false), statement;
      }
      if Truthy(Field(data, Name)) {
        MergeDuplicatesByName(moveId, Field(data, Name));
      }
      failed := ExecuteUpdate(moveId, assigns);
      outcome := if failed then IntegrityFailure else Updated(true);
    }

    /** `migrate_moves_schema`: the columns are read once; each expected
        column that is missing by its exact name, in order, is added with its
        type, until SQLite refuses one whose name the table has up to case.
        Returns the statements executed and the refused column, if any. */
    method MigrateSchema() returns (statements: seq<string>, duplicate: Option<string>)
      modifies this
      ensures Migration(info, statements, duplicate) == Migrate(old(info), ExpectedColumns())
      ensures moves == old(moves) && relations == old(relations)
    {
      var expected := ExpectedColumns();
      var existing := Db.TableColumns(info);
      ghost var info0 := info;
      statements := [];
      duplicate := None;
      for i := 0 to |expected|
        invariant info == AddColumns(info0, MissingColumns(expected[..i], existing))
        invariant statements == AlterStatements(MissingColumns(expected[..i], existing))
        invariant AcceptedAll(info0, MissingColumns(expected[..i], existing))
        invariant duplicate == None
        invariant moves == old(moves) && relations == old(relations)
      {
        var (col, colType) := expected[i];
        MigrateTurn(info0, expected, i, info, statements);
        if col !in existing {
          if NameTaken(info, col) {
            statements := statements + [AlterStatement(col, colType)];
            duplicate := Some(col);
            return;
          }
          statements := statements + [AlterStatement(col, colType)];
          info := info + [Db.TableInfoRow(|info|, col, colType, 0, VNone, 0)];
        }
      }
      assert expected[..|expected|] == expected;
      MigrateEnd(info0, expected);
    }
  }
}
