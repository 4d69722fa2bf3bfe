/** The Python values that cross the boundaries of the modelled core: SQL
    parameters, row values, the sandbox's `result` and the scraper's records.
    A Python `dict` is an insertion-ordered association list with distinct
    keys; a `sqlite3.Row` is the ordered list of (column name, value) pairs
    of one result row, in which a column name may repeat. */
module PyValues {

  /** A JSON-like Python value. `VFloat` carries a float as an opaque number
      (it is only compared and passed on); `VObject` stands for a host object
      that is not data (a module, a helper function, the connection). */
  datatype Value =
    | VNone
    | VBool(b: bool)
    | VInt(i: int)
    | VFloat(x: real)
    | VStr(s: string)
    | VList(items: seq<Value>)
    | VTuple(items: seq<Value>)
    | VDict(entries: seq<(string, Value)>)
    | VObject(kind: string)

  /** Python truthiness (`bool(v)`). */
  predicate Truthy(v: Value) {
    match v
    case VNone => false
    case VBool(b) => b
    case VInt(i) => i != 0
    case VFloat(x) => x != 0.0
    case VStr(s) => s != ""
    case VList(items) => items != []
    case VTuple(items) => items != []
    case VDict(entries) => entries != []
    case VObject(_) => true
  }

  /** An insertion-ordered dict. */
  type Dict = seq<(string, Value)>

  /** One result row: the columns in projection order. */
  type Row = seq<(string, Value)>

  /** The first components of a list of pairs, in order: the keys of a
      dict, the column names of a row. */
  function Keys<K, V>(d: seq<(K, V)>): (ks: seq<K>)
    ensures |ks| == |d| && forall i :: 0 <= i < |d| ==> ks[i] == d[i].0
  {
    seq(|d|, i requires 0 <= i < |d| => d[i].0)
  }

  /** The second components of a list of pairs, in order. */
  function Values<K, V>(d: seq<(K, V)>): (vs: seq<V>)
    ensures |vs| == |d| && forall i :: 0 <= i < |d| ==> vs[i] == d[i].1
  {
    seq(|d|, i requires 0 <= i < |d| => d[i].1)
  }

  lemma KeysCons<K, V>(p: (K, V), rest: seq<(K, V)>)
    ensures Keys([p] + rest) == [p.0] + Keys(rest)
  {
  }

  predicate DistinctKeys(d: seq<(string, Value)>) {
    forall i, j :: 0 <= i < j < |d| ==> d[i].0 != d[j].0
  }

  predicate HasKey(d: seq<(string, Value)>, k: string) {
    exists i :: 0 <= i < |d| && d[i].0 == k
  }

  /** The keys of a list with one more entry at the front. */
  lemma HasKeyCons(p: (string, Value), rest: seq<(string, Value)>)
    ensures forall k :: HasKey([p] + rest, k) <==> p.0 == k || HasKey(rest, k)
  {
    var d := [p] + rest;
    forall k ensures HasKey(d, k) <==> p.0 == k || HasKey(rest, k) {
      if HasKey(d, k) && p.0 != k {
        var i :| 0 <= i < |d| && d[i].0 == k;
        assert rest[i - 1].0 == k;
      }
      if HasKey(rest, k) {
        var i :| 0 <= i < |rest| && rest[i].0 == k;
        assert d[i + 1].0 == k;
      }
      if p.0 == k {
        assert d[0].0 == k;
      }
    }
  }

  /** A list with one more entry at the front has distinct keys exactly when
      the rest has and does not hold that entry's key. */
  lemma DistinctKeysCons(p: (string, Value), rest: seq<(string, Value)>)
    ensures DistinctKeys([p] + rest) <==> !HasKey(rest, p.0) && DistinctKeys(rest)
  {
    var d := [p] + rest;
    assert forall i :: 0 <= i < |rest| ==> d[i + 1] == rest[i];
    if DistinctKeys(d) {
      forall j | 0 <= j < |rest| ensures rest[j].0 != p.0 {
        assert d[j + 1].0 != d[0].0;
      }
      forall a, b | 0 <= a < b < |rest| ensures rest[a].0 != rest[b].0 {
        assert d[a + 1].0 != d[b + 1].0;
      }
    }
    if !HasKey(rest, p.0) && DistinctKeys(rest) {
      forall a, b | 0 <= a < b < |d| ensures d[a].0 != d[b].0 {
        if a == 0 {
          assert rest[b - 1].0 == d[b].0;
        } else {
          assert rest[a - 1].0 != rest[b - 1].0;
        }
      }
    }
  }

  /** `d.get(k)`: the value stored under `k` (the first entry with that key;
      for a dict there is only one), or None when `k` is absent. */
  function Get(d: seq<(string, Value)>, k: string): (v: Value)
    ensures !HasKey(d, k) ==> v == VNone
    ensures forall i :: 0 <= i < |d| && d[i].0 == k && (forall j :: 0 <= j < i ==> d[j].0 != k) ==> v == d[i].1
  {
    if d == [] then VNone
    else if d[0].0 == k then d[0].1
    else
      var v := Get(d[1..], k);
      assert forall i :: 1 <= i < |d| ==> d[1..][i - 1] == d[i];
      v
  }

  /** `d[k] = v`: overwrite the value in place when `k` is present (the key
      keeps its position), append `(k, v)` otherwise. */
  function Set(d: Dict, k: string, v: Value): (r: Dict)
    requires DistinctKeys(d)
    ensures DistinctKeys(r)
    ensures HasKey(d, k) ==> |r| == |d| && forall i :: 0 <= i < |d| ==> r[i] == (if d[i].0 == k then (k, v) else d[i])
    ensures !HasKey(d, k) ==> r == d + [(k, v)]
  {
    if HasKey(d, k) then
      seq(|d|, i requires 0 <= i < |d| => if d[i].0 == k then (k, v) else d[i])
    else
      d + [(k, v)]
  }

  /** ASCII lower case of one character. */
  function AsciiLower(c: char): char {
    if 'A' <= c <= 'Z' then (c as int + 32) as char else c
  }

  predicate IsAscii(s: string) {
    forall i :: 0 <= i < |s| ==> s[i] as int < 128
  }

  /** Whether a `sqlite3.Row` takes `b` as the name of column `a`: the same
      string, or two ASCII strings of one length that differ only in the case
      of their letters (a non-ASCII name only matches itself). */
  predicate SameColumn(a: string, b: string) {
    a == b || (IsAscii(a) && IsAscii(b) && |a| == |b| &&
               forall i :: 0 <= i < |a| ==> AsciiLower(a[i]) == AsciiLower(b[i]))
  }

  predicate HasColumn(row: Row, k: string) {
    exists i :: 0 <= i < |row| && SameColumn(row[i].0, k)
  }

  /** `row[k]` on a `sqlite3.Row`: the value of the first column whose name
      matches `k`; the source raises IndexError when none does. */
  function RowGet(row: Row, k: string): (v: Value)
    requires HasColumn(row, k)
    ensures forall i :: 0 <= i < |row| && SameColumn(row[i].0, k) && (forall j :: 0 <= j < i ==> !SameColumn(row[j].0, k)) ==> v == row[i].1
    decreases |row|
  {
    if SameColumn(row[0].0, k) then row[0].1
    else
      RowGetTail(row, k);
      var v := RowGet(row[1..], k);
      assert forall i :: 1 <= i < |row| ==> row[1..][i - 1] == row[i];
      v
  }

  lemma RowGetTail(row: Row, k: string)
    requires HasColumn(row, k) && !SameColumn(row[0].0, k)
    ensures HasColumn(row[1..], k)
  {
    var i :| 0 <= i < |row| && SameColumn(row[i].0, k);
    assert row[1..][i - 1] == row[i];
  }

  /** Every name of a row matches one of its columns, and the names are
      exactly the keys the row has. */
  lemma KeysAreColumns(row: Row)
    ensures forall i :: 0 <= i < |row| ==> HasColumn(row, Keys(row)[i])
    ensures forall k :: k in Keys(row) <==> HasKey(row, k)
  {
    forall i | 0 <= i < |row| ensures HasColumn(row, Keys(row)[i]) {
      assert SameColumn(row[i].0, Keys(row)[i]);
    }
    forall k | HasKey(row, k) ensures k in Keys(row) {
      var i :| 0 <= i < |row| && row[i].0 == k;
      assert Keys(row)[i] == k;
    }
  }

  /** The dict that `d[k] = row[k]` for each `k` of `names`, in order,
      builds from an empty dict. */
  function DictOver(row: Row, names: seq<string>): (d: Dict)
    requires forall i :: 0 <= i < |names| ==> HasColumn(row, names[i])
    ensures DistinctKeys(d)
    ensures forall k :: HasKey(d, k) <==> k in names
    decreases |names|
  {
    if names == [] then []
    else
      var init := names[..|names| - 1];
      var k := names[|names| - 1];
      assert forall i :: 0 <= i < |init| ==> init[i] == names[i];
      var before := DictOver(row, init);
      var d := Set(before, k, RowGet(row, k));
      SetHasKey(before, k, RowGet(row, k));
      assert names == init + [k];
      d
  }

  /** `dict(row)` of a `sqlite3.Row`: Python walks `row.keys()` in column
      order and stores `row[k]` under each name, so a name that repeats keeps
      its first position, and every name takes the value of the first column
      that matches it ignoring ASCII case. */
  function RowToDict(row: Row): (d: Dict)
    ensures DistinctKeys(d)
    ensures forall k :: HasKey(d, k) <==> HasKey(row, k)
  {
    KeysAreColumns(row);
    DictOver(row, Keys(row))
  }

  /** The value of the LAST pair named `k` (None if there is none): when an
      UPDATE assigns one column twice, SQLite keeps the rightmost value. */
  function LastValue(row: Row, k: string): Value
    decreases |row|
  {
    if row == [] then VNone
    else if row[|row| - 1].0 == k then row[|row| - 1].1
    else LastValue(row[..|row| - 1], k)
  }

  /** In a concatenation the last column named `k` is in the second part
      when that part has one, else in the first. */
  lemma {:induction false} LastValueConcat(x: Row, y: Row, k: string)
    ensures LastValue(x + y, k) == if HasKey(y, k) then LastValue(y, k) else LastValue(x, k)
    decreases |y|
  {
    if y != [] {
      var init := y[..|y| - 1];
      assert (x + y)[..|x + y| - 1] == x + init;
      LastValueConcat(x, init, k);
      if y[|y| - 1].0 != k {
        assert HasKey(y, k) <==> HasKey(init, k) by {
          if HasKey(y, k) {
            var i :| 0 <= i < |y| && y[i].0 == k;
            assert init[i] == y[i];
          }
          if HasKey(init, k) {
            var i :| 0 <= i < |init| && init[i].0 == k;
            assert y[i] == init[i];
          }
        }
      }
    } else {
      assert x + y == x;
    }
  }

  lemma SetHasKey(d: Dict, k: string, v: Value)
    requires DistinctKeys(d)
    ensures forall q :: HasKey(Set(d, k, v), q) <==> HasKey(d, q) || q == k
  {
    var r := Set(d, k, v);
    forall q | HasKey(d, q) || q == k ensures HasKey(r, q) {
      if HasKey(d, q) {
        var i :| 0 <= i < |d| && d[i].0 == q;
        assert r[i].0 == q;
      } else {
        assert r[|d|].0 == k;
      }
    }
    forall q | HasKey(r, q) ensures HasKey(d, q) || q == k {
      var i :| 0 <= i < |r| && r[i].0 == q;
      if i < |d| && d[i].0 != k { assert d[i] == r[i]; }
    }
  }

  lemma SetGet(d: Dict, k: string, v: Value, q: string)
    requires DistinctKeys(d)
    ensures Get(Set(d, k, v), q) == if q == k then v else Get(d, q)
  {
    var r := Set(d, k, v);
    if HasKey(d, k) {
      if HasKey(d, q) {
        var i :| 0 <= i < |d| && d[i].0 == q;
        assert r[i].0 == q;
        assert forall j :: 0 <= j < i ==> r[j].0 != q;
      } else {
        if q == k { assert false; }
        forall i | 0 <= i < |r| ensures r[i].0 != q {
          assert r[i].0 == k || r[i] == d[i];
        }
      }
    } else {
      if HasKey(d, q) {
        var i :| 0 <= i < |d| && d[i].0 == q;
        assert r[i] == d[i];
      } else if q == k {
        assert r[|d|] == (k, v);
      } else {
        forall i | 0 <= i < |r| ensures r[i].0 != q {
          if i < |d| { assert r[i] == d[i]; } else { assert r[i] == (k, v); }
        }
      }
    }
  }

  /** The dict built over `names` holds, under each of them, `row[k]`. */
  lemma {:induction false} DictOverGet(row: Row, names: seq<string>, k: string)
    requires forall i :: 0 <= i < |names| ==> HasColumn(row, names[i])
    requires k in names
    ensures HasColumn(row, k) && Get(DictOver(row, names), k) == RowGet(row, k)
    decreases |names|
  {
    var init := names[..|names| - 1];
    var last := names[|names| - 1];
    assert names == init + [last];
    assert forall i :: 0 <= i < |init| ==> init[i] == names[i];
    SetGet(DictOver(row, init), last, RowGet(row, last), k);
    if k != last {
      DictOverGet(row, init, k);
    }
  }

  /** `dict(row)[k]` is `row[k]`, the value of the first column whose name
      matches `k` ignoring ASCII case; a name the row lacks reads as None. */
  lemma RowToDictGet(row: Row, k: string)
    ensures HasKey(row, k) ==> HasColumn(row, k) && Get(RowToDict(row), k) == RowGet(row, k)
    ensures !HasKey(row, k) ==> Get(RowToDict(row), k) == VNone
  {
    KeysAreColumns(row);
    if HasKey(row, k) {
      DictOverGet(row, Keys(row), k);
    }
  }

  /** No two columns of the row match each other. */
  predicate DistinctColumns(row: Row) {
    forall i, j :: 0 <= i < j < |row| ==> !SameColumn(row[i].0, row[j].0)
  }

  /** Column `i`, when no earlier column matches its name, is what `row[k]`
      finds for that name. */
  lemma RowGetAt(row: Row, i: nat)
    requires i < |row|
    requires forall j :: 0 <= j < i ==> !SameColumn(row[j].0, row[i].0)
    ensures HasColumn(row, row[i].0) && RowGet(row, row[i].0) == row[i].1
  {
    assert SameColumn(row[i].0, row[i].0);
  }

  /** Over the first `m` names of a row whose columns are pairwise distinct,
      the dict is the first `m` columns. */
  lemma {:induction false} DictOverPrefix(row: Row, m: nat)
    requires DistinctColumns(row) && m <= |row|
    ensures forall i :: 0 <= i < m ==> HasColumn(row, Keys(row)[..m][i])
    ensures DictOver(row, Keys(row)[..m]) == row[..m]
  {
    KeysPrefixAreColumns(row, m);
    if m > 0 {
      DictOverPrefix(row, m - 1);
      var names := Keys(row)[..m];
      var before := row[..m - 1];
      var k := row[m - 1].0;
      PrefixOfPrefix(Keys(row), m);
      assert names[m - 1] == k;
      DistinctColumnsLast(row, m - 1);
      RowGetAt(row, m - 1);
      DictOverLast(row, names);
      assert DictOver(row, names) == Set(before, k, row[m - 1].1);
      assert row[..m] == before + [row[m - 1]];
    }
  }

  lemma KeysPrefixAreColumns(row: Row, m: nat)
    requires m <= |row|
    ensures forall i :: 0 <= i < m ==> HasColumn(row, Keys(row)[..m][i])
  {
    KeysAreColumns(row);
    forall i | 0 <= i < m ensures HasColumn(row, Keys(row)[..m][i]) {
      assert Keys(row)[..m][i] == Keys(row)[i];
    }
  }

  lemma PrefixOfPrefix<T>(s: seq<T>, m: nat)
    requires 0 < m <= |s|
    ensures s[..m][..m - 1] == s[..m - 1]
  {
  }

  /** One step of `DictOver`: the last name is stored over the dict of the
      others. */
  lemma DictOverLast(row: Row, names: seq<string>)
    requires names != []
    requires forall i :: 0 <= i < |names| ==> HasColumn(row, names[i])
    ensures DictOver(row, names) ==
      Set(DictOver(row, names[..|names| - 1]), names[|names| - 1], RowGet(row, names[|names| - 1]))
  {
  }

  /** In a row of pairwise distinct columns, column `i` matches no earlier
      one, and its name is not among them. */
  lemma DistinctColumnsLast(row: Row, i: nat)
    requires DistinctColumns(row) && i < |row|
    ensures forall j :: 0 <= j < i ==> !SameColumn(row[j].0, row[i].0)
    ensures !HasKey(row[..i], row[i].0)
  {
    forall j | 0 <= j < i ensures row[..i][j].0 != row[i].0 {
      assert row[..i][j] == row[j];
      assert !SameColumn(row[j].0, row[i].0);
    }
  }

  /** A row whose column names are pairwise distinct, even ignoring case,
      becomes a dict with the same entries in the same order. */
  lemma RowToDictDistinct(row: Row)
    requires DistinctColumns(row)
    ensures RowToDict(row) == row
  {
    DictOverPrefix(row, |row|);
    assert Keys(row)[..|row|] == Keys(row);
    assert row[..|row|] == row;
  }

  /** A repeated column name keeps the value of its first column. */
  lemma RepeatedColumnKeepsFirst()
    ensures RowToDict([("id", VInt(1)), ("id", VInt(2))]) == [("id", VInt(1))]
  {
    var row := [("id", VInt(1)), ("id", VInt(2))];
    assert Keys(row) == ["id", "id"];
    assert SameColumn(row[0].0, "id");
    assert RowGet(row, "id") == VInt(1);
    assert DictOver(row, ["id"]) == [("id", VInt(1))];
    assert ["id", "id"][..1] == ["id"];
  }

  /** Two names that differ only in case both read the first column. */
  lemma CaseVariantsReadFirst()
    ensures RowToDict([("ID", VInt(1)), ("id", VInt(2))]) == [("ID", VInt(1)), ("id", VInt(1))]
  {
    var row := [("ID", VInt(1)), ("id", VInt(2))];
    assert Keys(row) == ["ID", "id"];
    assert SameColumn(row[0].0, "ID");
    assert SameColumn(row[0].0, "id");
    assert RowGet(row, "ID") == VInt(1);
    assert RowGet(row, "id") == VInt(1);
    assert DictOver(row, ["ID"]) == [("ID", VInt(1))];
    assert ["ID", "id"][..1] == ["ID"];
  }
}
