/** The two search tools of `src/tools.py`. Each one gathers a WHERE clause
    per filter the request sets, binds the filter values in clause order,
    appends the sort and the page, and returns the rows of that page. */
module ToolsSearch {
  import opened Wrappers
  import opened PyValues
  import opened SqlText
  import Db
  import opened Tools

  // ---------------------------------------------------------------------
  // Clauses and their values
  // ---------------------------------------------------------------------

  /** The `where` list and the `params` list of a handler. */
  datatype Filters = Filters(where: seq<string>, params: seq<Value>)

  const NoFilters: Filters := Filters([], [])

  /** The clauses and values of `b` appended after those of `a`. */
  function Then(a: Filters, b: Filters): Filters {
    Filters(a.where + b.where, a.params + b.params)
  }

  /** The clauses hold exactly as many placeholders as there are values. */
  predicate Balanced(f: Filters) {
    SumPlaceholders(f.where) == |f.params|
  }

  lemma ThenBalanced(a: Filters, b: Filters)
    requires Balanced(a) && Balanced(b)
    ensures Balanced(Then(a, b))
  {
    SumPlaceholdersAppend(a.where, b.where);
  }

  lemma ThenAssoc(a: Filters, b: Filters, c: Filters)
    ensures Then(Then(a, b), c) == Then(a, Then(b, c))
  {
    assert (a.where + b.where) + c.where == a.where + (b.where + c.where);
    assert (a.params + b.params) + c.params == a.params + (b.params + c.params);
  }

  /** One clause with one value. */
  function One(clause: string, v: Value): Filters {
    Filters([clause], [v])
  }

  lemma OneBalanced(clause: string, v: Value)
    requires Placeholders(clause) == 1
    ensures Balanced(One(clause, v))
  {
    assert [clause][..0] == [];
  }

  /** `if term: where.append(clause); params.append(build_like(term))`:
      an empty or missing term adds nothing, any other term binds a pattern
      that matches every text containing it. */
  function LikeFilter(clause: string, term: Option<string>): (f: Filters)
    ensures f == NoFilters <==> term.None? || term.value == ""
    ensures f != NoFilters ==> f.where == [clause] && |f.params| == 1 && f.params[0].VStr? &&
                               f.params[0].s == "%" + term.value + "%"
  {
    if term.Some? && term.value != "" then One(clause, VStr(Db.BuildLike(term).value)) else NoFilters
  }

  /** `if flag: where.append(clause); params.append(flag)`. */
  function ExactFilter(clause: string, flag: Option<string>): (f: Filters)
    ensures f == NoFilters <==> flag.None? || flag.value == ""
    ensures f != NoFilters ==> f.where == [clause] && f.params == [VStr(flag.value)]
  {
    if flag.Some? && flag.value != "" then One(clause, VStr(flag.value)) else NoFilters
  }

  lemma LikeFilterBalanced(clause: string, term: Option<string>)
    requires Placeholders(clause) == 1
    ensures Balanced(LikeFilter(clause, term))
  {
    if term.Some? && term.value != "" { OneBalanced(clause, VStr(Db.BuildLike(term).value)); }
  }

  lemma ExactFilterBalanced(clause: string, flag: Option<string>)
    requires Placeholders(clause) == 1
    ensures Balanced(ExactFilter(clause, flag))
  {
    if flag.Some? && flag.value != "" { OneBalanced(clause, VStr(flag.value)); }
  }

  lemma NoFiltersThen(f: Filters)
    ensures Then(Filters([], []), f) == f
  {
    assert [] + f.where == f.where && [] + f.params == f.params;
  }

  /** `if term: where.append(clause); params.append(build_like(term))`. */
  method AddLike(where0: seq<string>, params0: seq<Value>, clause: string, term: Option<string>)
    returns (where: seq<string>, params: seq<Value>)
    ensures Filters(where, params) == Then(Filters(where0, params0), LikeFilter(clause, term))
  {
    where, params := where0, params0;
    if term.Some? && term.value != "" {
      where := where + [clause];
      params := params + [VStr(Db.BuildLike(term).value)];
    }
  }

  /** `if flag: where.append(clause); params.append(flag)`. */
  method AddExact(where0: seq<string>, params0: seq<Value>, clause: string, flag: Option<string>)
    returns (where: seq<string>, params: seq<Value>)
    ensures Filters(where, params) == Then(Filters(where0, params0), ExactFilter(clause, flag))
  {
    where, params := where0, params0;
    if flag.Some? && flag.value != "" {
      where := where + [clause];
      params := params + [VStr(flag.value)];
    }
  }

  /** The values of a list, as bound strings. */
  function StrValues(ts: seq<string>): (vs: seq<Value>)
    ensures |vs| == |ts| && forall i :: 0 <= i < |ts| ==> vs[i] == VStr(ts[i])
  {
    seq(|ts|, i requires 0 <= i < |ts| => VStr(ts[i]))
  }

  /** `",".join(["?"] * n)`. */
  function Marks(n: nat): string {
    Join(Repeat("?", n), ",")
  }

  lemma MarksPlaceholders(n: nat)
    ensures Placeholders(Marks(n)) == n
  {
    JoinPlaceholders(Repeat("?", n), ",");
    RepeatPlaceholders("?", n);
  }

  // ---------------------------------------------------------------------
  // Numeric ranges
  // ---------------------------------------------------------------------

  /** The clauses of one column's bounds: `col >= ?` for a lower bound,
      then `col <= ?` for an upper bound, each with its value. */
  function BoundFilters(col: string, lo: Option<Value>, hi: Option<Value>): (f: Filters)
    ensures |f.where| == |f.params|
    ensures f.params == (if lo.Some? then [lo.value] else []) + (if hi.Some? then [hi.value] else [])
    ensures lo.Some? ==> f.where[0] == Slot(col + " >= ")
    ensures hi.Some? ==> f.where[|f.where| - 1] == Slot(col + " <= ")
  {
    Then(if lo.Some? then One(Slot(col + " >= "), lo.value) else NoFilters,
         if hi.Some? then One(Slot(col + " <= "), hi.value) else NoFilters)
  }

  lemma BoundBalanced(col: string, lo: Option<Value>, hi: Option<Value>)
    requires NoPlaceholder(col)
    ensures Balanced(BoundFilters(col, lo, hi))
  {
    var a := if lo.Some? then One(Slot(col + " >= "), lo.value) else NoFilters;
    var b := if hi.Some? then One(Slot(col + " <= "), hi.value) else NoFilters;
    if lo.Some? {
      assert NoPlaceholder(col + " >= ");
      SlotPlaceholders(col + " >= ");
      OneBalanced(Slot(col + " >= "), lo.value);
    }
    if hi.Some? {
      assert NoPlaceholder(col + " <= ");
      SlotPlaceholders(col + " <= ");
      OneBalanced(Slot(col + " <= "), hi.value);
    }
    ThenBalanced(a, b);
  }

  /** A range of `search_pokemons`: the names the column may have in the
      table, in order of preference, and the two optional bounds. */
  datatype RangeSpec = RangeSpec(candidates: seq<string>, lo: Option<Value>, hi: Option<Value>)

  /** One range is applied to the first candidate column the table has, and
      is dropped without a word when the table has none of them. */
  function SpecFilters(spec: RangeSpec, cols: set<string>): (f: Filters)
    ensures Resolve(spec.candidates, cols).None? || Resolve(spec.candidates, cols).value == "" ==> f == NoFilters
    ensures Resolve(spec.candidates, cols).Some? && Resolve(spec.candidates, cols).value != "" ==>
              f == BoundFilters(Resolve(spec.candidates, cols).value, spec.lo, spec.hi)
  {
    var col := Resolve(spec.candidates, cols);
    if col.None? || col.value == "" then NoFilters else BoundFilters(col.value, spec.lo, spec.hi)
  }

  /** The clauses of a list of ranges, in list order. */
  function RangeFilters(specs: seq<RangeSpec>, cols: set<string>): Filters
    decreases |specs|
  {
    if specs == [] then NoFilters
    else Then(RangeFilters(specs[..|specs| - 1], cols), SpecFilters(specs[|specs| - 1], cols))
  }

  /** Every candidate of every range is a plain column name. */
  predicate PlainCandidates(specs: seq<RangeSpec>) {
    forall i :: 0 <= i < |specs| ==> AllNoPlaceholder(specs[i].candidates)
  }

  lemma {:induction false} RangeFiltersBalanced(specs: seq<RangeSpec>, cols: set<string>)
    requires PlainCandidates(specs)
    ensures Balanced(RangeFilters(specs, cols))
    decreases |specs|
  {
    if specs != [] {
      var last := specs[|specs| - 1];
      RangeFiltersBalanced(specs[..|specs| - 1], cols);
      var col := Resolve(last.candidates, cols);
      if col.Some? && col.value != "" {
        var k :| 0 <= k < |last.candidates| && last.candidates[k] == col.value;
        assert NoPlaceholder(last.candidates[k]);
        BoundBalanced(col.value, last.lo, last.hi);
      }
      ThenBalanced(RangeFilters(specs[..|specs| - 1], cols), SpecFilters(last, cols));
    }
  }

  /** A range of `search_moves`: a fixed column and its optional bounds. */
  datatype Bound = Bound(col: string, lo: Option<Value>, hi: Option<Value>)

  /** The clauses of a list of fixed-column bounds, in list order; unlike the
      ranges of `search_pokemons`, the column is used whether or not the
      table has it. */
  function BoundsFilters(bounds: seq<Bound>): Filters
    decreases |bounds|
  {
    if bounds == [] then NoFilters
    else
      var b := bounds[|bounds| - 1];
      Then(BoundsFilters(bounds[..|bounds| - 1]), BoundFilters(b.col, b.lo, b.hi))
  }

  lemma {:induction false} BoundsFiltersBalanced(bounds: seq<Bound>)
    requires forall i :: 0 <= i < |bounds| ==> NoPlaceholder(bounds[i].col)
    ensures Balanced(BoundsFilters(bounds))
    decreases |bounds|
  {
    if bounds != [] {
      var b := bounds[|bounds| - 1];
      BoundsFiltersBalanced(bounds[..|bounds| - 1]);
      BoundBalanced(b.col, b.lo, b.hi);
      ThenBalanced(BoundsFilters(bounds[..|bounds| - 1]), BoundFilters(b.col, b.lo, b.hi));
    }
  }

  /** The loop over the ranges of `search_pokemons`. */
  /** The ranges up to one more spec. */
  lemma RangeFiltersStep(specs: seq<RangeSpec>, cols: set<string>, i: nat)
    requires i < |specs|
    ensures RangeFilters(specs[..i + 1], cols) == Then(RangeFilters(specs[..i], cols), SpecFilters(specs[i], cols))
  {
    assert specs[..i + 1][..i] == specs[..i];
  }

  method AppendRanges(where0: seq<string>, params0: seq<Value>, specs: seq<RangeSpec>, cols: set<string>)
    returns (where: seq<string>, params: seq<Value>)
    ensures Filters(where, params) == Then(Filters(where0, params0), RangeFilters(specs, cols))
  {
    where, params := where0, params0;
    for i := 0 to |specs|
      invariant Filters(where, params) == Then(Filters(where0, params0), RangeFilters(specs[..i], cols))
    {
      var spec := specs[i];
      ghost var before := Filters(where, params);
      var col := Resolve(spec.candidates, cols);
      if col.Some? && col.value != "" {
        ghost var lo := if spec.lo.Some? then One(Slot(col.value + " >= "), spec.lo.value) else NoFilters;
        ghost var hi := if spec.hi.Some? then One(Slot(col.value + " <= "), spec.hi.value) else NoFilters;
        if spec.lo.Some? {
          where := where + [Slot(col.value + " >= ")];
          params := params + [spec.lo.value];
        }
        assert Filters(where, params) == Then(before, lo);
        ghost var mid := Filters(where, params);
        if spec.hi.Some? {
          where := where + [Slot(col.value + " <= ")];
          params := params + [spec.hi.value];
        }
        assert Filters(where, params) == Then(mid, hi);
        ThenAssoc(before, lo, hi);
        assert SpecFilters(spec, cols) == Then(lo, hi);
      } else {
        assert SpecFilters(spec, cols) == NoFilters;
        assert Then(before, NoFilters) == before;
      }
      assert Filters(where, params) == Then(before, SpecFilters(spec, cols));
      ThenAssoc(Filters(where0, params0), RangeFilters(specs[..i], cols), SpecFilters(spec, cols));
      RangeFiltersStep(specs, cols, i);
    }
    assert specs[..|specs|] == specs;
  }

  /** The loop over the ranges of `search_moves`. */
  method AppendBounds(where0: seq<string>, params0: seq<Value>, bounds: seq<Bound>)
    returns (where: seq<string>, params: seq<Value>)
    ensures Filters(where, params) == Then(Filters(where0, params0), BoundsFilters(bounds))
  {
    where, params := where0, params0;
    for i := 0 to |bounds|
      invariant Filters(where, params) == Then(Filters(where0, params0), BoundsFilters(bounds[..i]))
    {
      var b := bounds[i];
      ghost var before := Filters(where, params);
      if b.lo.Some? {
        where := where + [Slot(b.col + " >= ")];
        params := params + [b.lo.value];
      }
      if b.hi.Some? {
        where := where + [Slot(b.col + " <= ")];
        params := params + [b.hi.value];
      }
      assert Filters(where, params) == Then(before, BoundFilters(b.col, b.lo, b.hi));
      ThenAssoc(Filters(where0, params0), BoundsFilters(bounds[..i]), BoundFilters(b.col, b.lo, b.hi));
      assert bounds[..i + 1][..i] == bounds[..i];
    }
    assert bounds[..|bounds|] == bounds;
  }

  // ---------------------------------------------------------------------
  // Type filters of search_pokemons
  // ---------------------------------------------------------------------

  /** `"any"` (a Pokémon of at least one of the types) or `"all"`. */
  datatype TypeMode = AnyType | AllTypes

  /** `[t for t in types if t]`. */
  function NonEmptyTypes(ts: seq<string>): (r: seq<string>)
    ensures forall t :: t in r <==> t in ts && t != ""
    ensures forall t :: t != "" ==> multiset(r)[t] == multiset(ts)[t]
    ensures IsSubsequence(r, ts)
    decreases |ts|
  {
    if ts == [] then []
    else
      var rest := NonEmptyTypes(ts[1..]);
      assert ts == [ts[0]] + ts[1..];
      assert multiset(ts) == multiset{ts[0]} + multiset(ts[1..]);
      if ts[0] != "" then
        var r := [ts[0]] + rest;
        assert r[1..] == rest;
        r
      else
        assert rest == [] || IsSubsequence(rest, ts[1..]);
        rest
  }

  /** The types a request filters on: none when the field is missing. */
  function GivenTypes(types: Option<seq<string>>): seq<string> {
    if types.None? then [] else NonEmptyTypes(types.value)
  }

  /** `f'%"{t}"%'`: the type as a quoted JSON string anywhere in the text. */
  function TypePattern(t: string): (p: string)
    ensures |p| == |t| + 4 && p[2..|p| - 2] == t
    ensures p[..2] == "%\"" && p[|p| - 2..] == "\"%"
  {
    "%\"" + t + "\"%"
  }

  function TypePatterns(ts: seq<string>): (vs: seq<Value>)
    ensures |vs| == |ts| && forall i :: 0 <= i < |ts| ==> vs[i] == VStr(TypePattern(ts[i]))
  {
    seq(|ts|, i requires 0 <= i < |ts| => VStr(TypePattern(ts[i])))
  }

  // The subquery text is written in short pieces; it is one string.
  const JsonEachHead: string := "EXISTS (SELECT 1 FROM " + "json_each(pokemons.types_json) " + "je WHERE je.value"

  /** The JSON1 clause of mode `"any"`: the type list holds one of `n` values. */
  function JsonEachIn(n: nat): string {
    JsonEachHead + " IN (" + Marks(n) + "))"
  }

  /** The JSON1 clause of mode `"all"`, one per type. */
  const JsonEachEq: string := Slot(JsonEachHead + " = ") + ")"

  /** The clause of the plain-text fallback, one per type. */
  const TypesJsonLike: string := Slot("types_json LIKE ")

  /** The fallback for mode `"any"`: the per-type clauses joined by OR. */
  function LikeAny(n: nat): string {
    "(" + Join(Repeat(TypesJsonLike, n), " OR ") + ")"
  }

  /** The type filters: JSON1 membership tests when the engine has JSON1,
      text patterns on `types_json` when it has not; mode `"any"` makes one
      clause for all the types, mode `"all"` one clause per type. Empty type
      names are dropped first and an empty list adds nothing. */
  function TypeFilters(types: Option<seq<string>>, mode: TypeMode, json1: bool): (f: Filters)
    ensures GivenTypes(types) == [] ==> f == NoFilters
    ensures GivenTypes(types) != [] ==> |f.where| == if mode == AnyType then 1 else |GivenTypes(types)|
    ensures f.params == if json1 then StrValues(GivenTypes(types)) else TypePatterns(GivenTypes(types))
  {
    var ts := GivenTypes(types);
    if ts == [] then NoFilters
    else if json1 then
      if mode == AnyType then Filters([JsonEachIn(|ts|)], StrValues(ts))
      else Filters(Repeat(JsonEachEq, |ts|), StrValues(ts))
    else
      if mode == AnyType then Filters([LikeAny(|ts|)], TypePatterns(ts))
      else Filters(Repeat(TypesJsonLike, |ts|), TypePatterns(ts))
  }

  lemma JsonEachHeadPlain()
    ensures NoPlaceholder(JsonEachHead)
  {
    assert NoPlaceholder("EXISTS (SELECT 1 FROM ");
    assert NoPlaceholder("json_each(pokemons.types_json) ");
    assert NoPlaceholder("je WHERE je.value");
  }

  lemma JsonEachInPlaceholders(n: nat)
    ensures Placeholders(JsonEachIn(n)) == n
  {
    JsonEachHeadPlain();
    PlainFragments();
    NoPlaceholderCount(JsonEachHead);
    MarksPlaceholders(n);
    NoPlaceholderCount(" IN (");
    NoPlaceholderCount("))");
    PlaceholdersConcat(JsonEachHead, " IN (");
    PlaceholdersConcat(JsonEachHead + " IN (", Marks(n));
    PlaceholdersConcat(JsonEachHead + " IN (" + Marks(n), "))");
  }

  lemma JsonEachEqPlaceholders()
    ensures Placeholders(JsonEachEq) == 1
  {
    JsonEachHeadPlain();
    PlainFragments();
    assert NoPlaceholder(JsonEachHead + " = ");
    SlotPlaceholders(JsonEachHead + " = ");
    NoPlaceholderCount(")");
    PlaceholdersConcat(Slot(JsonEachHead + " = "), ")");
  }

  lemma LikeAnyPlaceholders(n: nat)
    ensures Placeholders(LikeAny(n)) == n
  {
    PlainFragments();
    ClauseConstants();
    RepeatPlaceholders(TypesJsonLike, n);
    JoinPlaceholders(Repeat(TypesJsonLike, n), " OR ");
    var j := Join(Repeat(TypesJsonLike, n), " OR ");
    NoPlaceholderCount("(");
    NoPlaceholderCount(")");
    PlaceholdersConcat("(", j);
    PlaceholdersConcat("(" + j, ")");
  }

  lemma TypeFiltersBalanced(types: Option<seq<string>>, mode: TypeMode, json1: bool)
    ensures Balanced(TypeFilters(types, mode, json1))
  {
    var ts := GivenTypes(types);
    var n := |ts|;
    JsonEachInPlaceholders(n);
    JsonEachEqPlaceholders();
    LikeAnyPlaceholders(n);
    ClauseConstants();
    if ts != [] {
      if mode == AnyType {
        assert [JsonEachIn(n)][..0] == [] && [LikeAny(n)][..0] == [];
      } else {
        RepeatPlaceholders(JsonEachEq, n);
        RepeatPlaceholders(TypesJsonLike, n);
      }
    }
  }

  /** The type filter step of `search_pokemons`, with its loops. */
  method AppendTypeFilters(where0: seq<string>, params0: seq<Value>, types: Option<seq<string>>,
                           mode: TypeMode, json1: bool)
    returns (where: seq<string>, params: seq<Value>)
    ensures Filters(where, params) == Then(Filters(where0, params0), TypeFilters(types, mode, json1))
  {
    where, params := where0, params0;
    if types.None? || types.value == [] {
      assert GivenTypes(types) == [];
      return;
    }
    var ts := NonEmptyTypes(types.value);
    if ts == [] {
      return;
    }
    if json1 {
      if mode == AnyType {
        var placeholders := Marks(|ts|);
        where := where + [JsonEachHead + " IN (" + placeholders + "))"];
        params := params + StrValues(ts);
      } else {
        for k := 0 to |ts|
          invariant where == where0 + Repeat(JsonEachEq, k)
          invariant params == params0 + StrValues(ts[..k])
        {
          where := where + [JsonEachEq];
          params := params + [VStr(ts[k])];
          assert Repeat(JsonEachEq, k + 1) == Repeat(JsonEachEq, k) + [JsonEachEq];
          assert StrValues(ts[..k + 1]) == StrValues(ts[..k]) + [VStr(ts[k])];
        }
        assert ts[..|ts|] == ts;
      }
    } else {
      if mode == AnyType {
        var ors: seq<string> := [];
        for k := 0 to |ts|
          invariant ors == Repeat(TypesJsonLike, k)
          invariant where == where0
          invariant params == params0 + TypePatterns(ts[..k])
        {
          ors := ors + [TypesJsonLike];
          params := params + [VStr(TypePattern(ts[k]))];
          assert Repeat(TypesJsonLike, k + 1) == Repeat(TypesJsonLike, k) + [TypesJsonLike];
          assert TypePatterns(ts[..k + 1]) == TypePatterns(ts[..k]) + [VStr(TypePattern(ts[k]))];
        }
        assert ts[..|ts|] == ts;
        where := where + ["(" + Join(ors, " OR ") + ")"];
      } else {
        for k := 0 to |ts|
          invariant where == where0 + Repeat(TypesJsonLike, k)
          invariant params == params0 + TypePatterns(ts[..k])
        {
          where := where + [TypesJsonLike];
          params := params + [VStr(TypePattern(ts[k]))];
          assert Repeat(TypesJsonLike, k + 1) == Repeat(TypesJsonLike, k) + [TypesJsonLike];
          assert TypePatterns(ts[..k + 1]) == TypePatterns(ts[..k]) + [VStr(TypePattern(ts[k]))];
        }
        assert ts[..|ts|] == ts;
      }
    }
  }

  // ---------------------------------------------------------------------
  // Statements and pages
  // ---------------------------------------------------------------------

  /** `(" WHERE " + " AND ".join(where)) if where else ""`. */
  function WhereSql(where: seq<string>): (s: string)
    ensures s == "" <==> where == []
    ensures Placeholders(s) == SumPlaceholders(where)
  {
    if where == [] then ""
    else
      JoinPlaceholders(where, " AND ");
      NoPlaceholderCount(" WHERE ");
      PlaceholdersConcat(" WHERE ", Join(where, " AND "));
      " WHERE " + Join(where, " AND ")
  }

  const LimitOffset: string := Slot(" LIMIT ") + Slot(" OFFSET ")

  lemma LimitOffsetPlaceholders()
    ensures Placeholders(LimitOffset) == 2
  {
    SlotPlaceholders(" LIMIT ");
    SlotPlaceholders(" OFFSET ");
    PlaceholdersConcat(Slot(" LIMIT "), Slot(" OFFSET "));
  }

  /** A statement's text and the values bound to it. */
  datatype Statement = Statement(sql: string, params: seq<Value>)

  /** The answer of a search tool. */
  datatype SearchPage = SearchPage(items: seq<Dict>, limit: nat, offset: nat)

  /** The rows of a statement's page, with the page's bounds. */
  function RunPage(engine: Db.Engine, st: Statement, limit: nat, offset: nat): SearchPage {
    SearchPage(Db.ExecuteQuery(engine, st.sql, Some(st.params)), limit, offset)
  }

  /** Every statement of a search ends in the page: the filter values, then
      the limit and the offset. */
  function PageParams(f: Filters, limit: int, offset: int): (ps: seq<Value>)
    ensures |ps| == |f.params| + 2 && ps[..|f.params|] == f.params
    ensures ps[|ps| - 2] == VInt(ClampLimit(limit)) && ps[|ps| - 1] == VInt(ClampOffset(offset))
  {
    f.params + [VInt(ClampLimit(limit)), VInt(ClampOffset(offset))]
  }

  /** The statement of a search: the head, the WHERE clause, the ORDER BY
      clause and the page, with the filter values then the limit and the
      offset; or the sort error, in which case nothing is sent. */
  function SearchStatement(head: string, f: Filters, sort: Option<seq<string>>, allowed: seq<string>,
                           limit: int, offset: int): (r: Result<Statement, Failure>)
    ensures r.Err? <==> SortSql(sort, allowed).Err?
    ensures r.Err? ==> r.error == SortSql(sort, allowed).error
    ensures r.Ok? ==> r.value.params == PageParams(f, limit, offset)
  {
    var order := SortSql(sort, allowed);
    if order.Err? then Err(order.error)
    else Ok(Statement(head + WhereSql(f.where) + order.value + LimitOffset, PageParams(f, limit, offset)))
  }

  /** The answer of a search: the page's rows, or the sort error. */
  function Search(engine: Db.Engine, head: string, f: Filters, sort: Option<seq<string>>, allowed: seq<string>,
                  limit: int, offset: int): Result<SearchPage, Failure>
  {
    match SearchStatement(head, f, sort, allowed, limit, offset)
    case Err(e) => Err(e)
    case Ok(st) => Ok(RunPage(engine, st, ClampLimit(limit), ClampOffset(offset)))
  }

  /** The common tail of both handlers: the WHERE and ORDER BY clauses, the
      page, and the query. */
  method RunSearch(engine: Db.Engine, head: string, where: seq<string>, params0: seq<Value>,
                   sort: Option<seq<string>>, allowed: seq<string>, requestedLimit: int, requestedOffset: int)
    returns (r: Result<SearchPage, Failure>)
    ensures r == Search(engine, head, Filters(where, params0), sort, allowed, requestedLimit, requestedOffset)
  {
    var whereSql := if where == [] then "" else " WHERE " + Join(where, " AND ");
    var orderSql := "";
    if sort.Some? && sort.value != [] {
      var parsed := ParseSort(sort, allowed);
      if parsed.Err? {
        return Err(parsed.error);
      }
      orderSql := parsed.value;
    }
    var limit := ClampLimit(requestedLimit);
    var offset := ClampOffset(requestedOffset);
    var sql := head + whereSql + orderSql + LimitOffset;
    var params := params0 + [VInt(limit), VInt(offset)];
    assert SortSql(sort, allowed) == Ok(orderSql);
    var items := Db.ExecuteQuery(engine, sql, Some(params));
    r := Ok(SearchPage(items, limit, offset));
  }

  /** Whatever the filters and the sort, the statement of a search has one
      value per placeholder, provided its head and its sortable columns hold
      no `?` and its filters are balanced. */
  lemma SearchStatementBalanced(head: string, f: Filters, sort: Option<seq<string>>, allowed: seq<string>,
                                limit: int, offset: int)
    requires NoPlaceholder(head) && Balanced(f) && AllNoPlaceholder(allowed)
    requires SearchStatement(head, f, sort, allowed, limit, offset).Ok?
    ensures Placeholders(SearchStatement(head, f, sort, allowed, limit, offset).value.sql) ==
            |SearchStatement(head, f, sort, allowed, limit, offset).value.params|
  {
    var order := SortSql(sort, allowed).value;
    SortSqlPlaceholders(sort, allowed);
    NoPlaceholderCount(head);
    LimitOffsetPlaceholders();
    PlaceholdersConcat(head, WhereSql(f.where));
    PlaceholdersConcat(head + WhereSql(f.where), order);
    PlaceholdersConcat(head + WhereSql(f.where) + order, LimitOffset);
  }

  // ---------------------------------------------------------------------
  // search_pokemons
  // ---------------------------------------------------------------------

  /** The request of `search_pokemons`. */
  datatype PokemonSearch = PokemonSearch(
    nameLike: Option<string>, types: Option<seq<string>>, typeMode: TypeMode,
    dexNoMin: Option<int>, dexNoMax: Option<int>, hpMin: Option<int>, hpMax: Option<int>,
    attackMin: Option<int>, attackMax: Option<int>, defenseMin: Option<int>, defenseMax: Option<int>,
    spAttackMin: Option<int>, spAttackMax: Option<int>, spDefenseMin: Option<int>, spDefenseMax: Option<int>,
    speedMin: Option<int>, speedMax: Option<int>, bstMin: Option<int>, bstMax: Option<int>,
    obtainMethodLike: Option<string>, sort: Option<seq<string>>, limit: int, offset: int)

  function IntBound(b: Option<int>): Option<Value> {
    if b.Some? then Some(VInt(b.value)) else None
  }

  /** The eight ranges, each with the column names a schema may use for it. */
  function PokemonRanges(q: PokemonSearch): (specs: seq<RangeSpec>)
    ensures |specs| == 8 && PlainCandidates(specs)
  {
    var specs := [
      RangeSpec(["dex_no"], IntBound(q.dexNoMin), IntBound(q.dexNoMax)),
      RangeSpec(["hp"], IntBound(q.hpMin), IntBound(q.hpMax)),
      RangeSpec(["attack", "atk"], IntBound(q.attackMin), IntBound(q.attackMax)),
      RangeSpec(["defense", "def"], IntBound(q.defenseMin), IntBound(q.defenseMax)),
      RangeSpec(["sp_attack", "sp_atk", "spa"], IntBound(q.spAttackMin), IntBound(q.spAttackMax)),
      RangeSpec(["sp_defense", "sp_def", "spd"], IntBound(q.spDefenseMin), IntBound(q.spDefenseMax)),
      RangeSpec(["speed", "spe"], IntBound(q.speedMin), IntBound(q.speedMax)),
      RangeSpec(["bst", "total", "sum"], IntBound(q.bstMin), IntBound(q.bstMax))
    ];
    assert PlainCandidates(specs) by {
      forall i | 0 <= i < 8 ensures AllNoPlaceholder(specs[i].candidates) {
        var cs := specs[i].candidates;
        forall j | 0 <= j < |cs| ensures NoPlaceholder(cs[j]) {
        }
      }
    }
    specs
  }

  /** The columns `search_pokemons` may sort on, when the table has them. */
  const PokemonSortColumns: seq<string> :=
    ["name", "dex_no", "hp", "attack", "atk", "defense", "def", "sp_attack", "sp_atk", "spa",
     "sp_defense", "sp_def", "spd", "speed", "spe", "bst", "total", "sum"]

  lemma PokemonSortColumnsPlain()
    ensures AllNoPlaceholder(PokemonSortColumns)
  {
    forall i | 0 <= i < |PokemonSortColumns| ensures NoPlaceholder(PokemonSortColumns[i]) {
    }
  }

  const NameLike: string := Slot("name LIKE ")
  const ObtainMethodLike: string := Slot("obtain_method LIKE ")

  /** The filters of `search_pokemons`, in the order the handler adds them. */
  function PokemonFilters(q: PokemonSearch, pcols: set<string>, json1: bool): Filters {
    Then(Then(Then(LikeFilter(NameLike, q.nameLike), LikeFilter(ObtainMethodLike, q.obtainMethodLike)),
              RangeFilters(PokemonRanges(q), pcols)),
         TypeFilters(q.types, q.typeMode, json1))
  }

  const PokemonsFrom: string := "SELECT * FROM pokemons"

  /** The columns `search_pokemons` may sort on: the listed ones the table
      has. */
  function PokemonSortAllowed(pcols: set<string>): seq<string> {
    SelectExistingColumns(PokemonSortColumns, pcols)
  }

  /** The statement `search_pokemons` sends, or the sort error it raises. */
  function PokemonStatement(q: PokemonSearch, pcols: set<string>, json1: bool): Result<Statement, Failure> {
    SearchStatement(PokemonsFrom, PokemonFilters(q, pcols, json1), q.sort, PokemonSortAllowed(pcols),
                    q.limit, q.offset)
  }

  /** What `search_pokemons` answers. */
  function SearchPokemons(engine: Db.Engine, pcols: set<string>, json1: bool, q: PokemonSearch)
    : Result<SearchPage, Failure>
  {
    Search(engine, PokemonsFrom, PokemonFilters(q, pcols, json1), q.sort, PokemonSortAllowed(pcols),
           q.limit, q.offset)
  }

  /** The filter steps of `search_pokemons_handler`, in order. */
  method PokemonWhere(q: PokemonSearch, pcols: set<string>, json1: bool)
    returns (where: seq<string>, params: seq<Value>)
    ensures Filters(where, params) == PokemonFilters(q, pcols, json1)
  {
    where, params := AddLike([], [], NameLike, q.nameLike);
    NoFiltersThen(LikeFilter(NameLike, q.nameLike));
    where, params := AddLike(where, params, ObtainMethodLike, q.obtainMethodLike);
    where, params := AppendRanges(where, params, PokemonRanges(q), pcols);
    where, params := AppendTypeFilters(where, params, q.types, q.typeMode, json1);
  }

  /** `search_pokemons_handler`, given the columns of `pokemons` and whether
      the engine has JSON1. */
  method SearchPokemonsHandler(engine: Db.Engine, pcols: set<string>, json1: bool, q: PokemonSearch)
    returns (r: Result<SearchPage, Failure>)
    ensures r == SearchPokemons(engine, pcols, json1, q)
  {
    var where, params := PokemonWhere(q, pcols, json1);
    var allowedSort := SelectExistingColumns(PokemonSortColumns, pcols);
    r := RunSearch(engine, PokemonsFrom, where, params, q.sort, allowedSort, q.limit, q.offset);
  }

  lemma PokemonFiltersBalanced(q: PokemonSearch, pcols: set<string>, json1: bool)
    ensures Balanced(PokemonFilters(q, pcols, json1))
  {
    var a := LikeFilter(NameLike, q.nameLike);
    var b := LikeFilter(ObtainMethodLike, q.obtainMethodLike);
    var c := RangeFilters(PokemonRanges(q), pcols);
    var d := TypeFilters(q.types, q.typeMode, json1);
    ClauseConstants();
    LikeFilterBalanced(NameLike, q.nameLike);
    LikeFilterBalanced(ObtainMethodLike, q.obtainMethodLike);
    ThenBalanced(a, b);
    RangeFiltersBalanced(PokemonRanges(q), pcols);
    ThenBalanced(Then(a, b), c);
    TypeFiltersBalanced(q.types, q.typeMode, json1);
    ThenBalanced(Then(Then(a, b), c), d);
  }

  /** Every placeholder of the statement `search_pokemons` sends has exactly
      one value, whatever filters, schema and sort the request combines. */
  lemma PokemonStatementBalanced(q: PokemonSearch, pcols: set<string>, json1: bool)
    requires PokemonStatement(q, pcols, json1).Ok?
    ensures Placeholders(PokemonStatement(q, pcols, json1).value.sql) ==
            |PokemonStatement(q, pcols, json1).value.params|
  {
    PokemonFiltersBalanced(q, pcols, json1);
    PokemonSortColumnsPlain();
    SelectedHaveNoPlaceholder(PokemonSortColumns, pcols);
    PlainFragments();
    SearchStatementBalanced(PokemonsFrom, PokemonFilters(q, pcols, json1), q.sort, PokemonSortAllowed(pcols),
                            q.limit, q.offset);
  }

  /** A sort is refused exactly when one of its columns is outside the list
      or missing from the table. */
  lemma PokemonSortRefused(q: PokemonSearch, pcols: set<string>, json1: bool)
    requires q.sort.Some? && q.sort.value != []
    ensures PokemonStatement(q, pcols, json1).Err? <==>
            exists i :: 0 <= i < |q.sort.value| &&
              (ParseDirective(q.sort.value[i]).key !in PokemonSortColumns ||
               ParseDirective(q.sort.value[i]).key !in pcols)
  {
    SortSqlRejectsExactly(q.sort.value, SelectExistingColumns(PokemonSortColumns, pcols));
  }

  // ---------------------------------------------------------------------
  // search_moves
  // ---------------------------------------------------------------------

  /** The request of `search_moves`. The bounds are passed to the engine as
      given (integers for `power`, floats for the rest). */
  datatype MoveSearch = MoveSearch(
    nameLike: Option<string>, types: Option<seq<string>>, categories: Option<seq<string>>,
    powerMin: Option<Value>, powerMax: Option<Value>,
    activationTimeMin: Option<Value>, activationTimeMax: Option<Value>,
    startupTimeMin: Option<Value>, startupTimeMax: Option<Value>,
    startupTimeQMin: Option<Value>, startupTimeQMax: Option<Value>,
    recoveryTimeMin: Option<Value>, recoveryTimeMax: Option<Value>,
    totalTimeMin: Option<Value>, totalTimeMax: Option<Value>,
    dpsMin: Option<Value>, dpsMax: Option<Value>,
    directAttack: Option<string>, fingerWag: Option<string>, protect: Option<string>, substitute: Option<string>,
    rangeLike: Option<string>, sort: Option<seq<string>>, limit: int, offset: int)

  /** `f"{col} IN ({placeholders})"` with one value per list element; an
      empty or missing list adds nothing. Unlike the type names of
      `search_pokemons`, empty strings are kept. */
  function InFilter(col: string, values: Option<seq<string>>): (f: Filters)
    ensures f == NoFilters <==> values.None? || values.value == []
    ensures f != NoFilters ==> f.where == [col + " IN (" + Marks(|values.value|) + ")"] &&
                               f.params == StrValues(values.value)
  {
    if values.None? || values.value == [] then NoFilters
    else Filters([col + " IN (" + Marks(|values.value|) + ")"], StrValues(values.value))
  }

  lemma InFilterBalanced(col: string, values: Option<seq<string>>)
    requires NoPlaceholder(col)
    ensures Balanced(InFilter(col, values))
  {
    if values.Some? && values.value != [] {
      var n := |values.value|;
      PlainFragments();
      MarksPlaceholders(n);
      assert NoPlaceholder(col + " IN (");
      NoPlaceholderCount(col + " IN (");
      NoPlaceholderCount(")");
      PlaceholdersConcat(col + " IN (", Marks(n));
      PlaceholdersConcat(col + " IN (" + Marks(n), ")");
      assert [col + " IN (" + Marks(n) + ")"][..0] == [];
    }
  }

  /** `if values: where.append(f"{col} IN ({placeholders})"); params.extend(values)`. */
  method AddIn(where0: seq<string>, params0: seq<Value>, col: string, values: Option<seq<string>>)
    returns (where: seq<string>, params: seq<Value>)
    ensures Filters(where, params) == Then(Filters(where0, params0), InFilter(col, values))
  {
    where, params := where0, params0;
    if values.Some? && values.value != [] {
      var placeholders := Marks(|values.value|);
      where := where + [col + " IN (" + placeholders + ")"];
      params := params + StrValues(values.value);
    } else {
      assert where == where0 + [] && params == params0 + [];
    }
  }

  /** The seven ranges of `search_moves`. */
  function MoveBounds(q: MoveSearch): (bounds: seq<Bound>)
    ensures |bounds| == 7 && forall i :: 0 <= i < 7 ==> NoPlaceholder(bounds[i].col)
  {
    var bounds := [
      Bound("power", q.powerMin, q.powerMax),
      Bound("activation_time", q.activationTimeMin, q.activationTimeMax),
      Bound("startup_time", q.startupTimeMin, q.startupTimeMax),
      Bound("startup_time_q", q.startupTimeQMin, q.startupTimeQMax),
      Bound("recovery_time", q.recoveryTimeMin, q.recoveryTimeMax),
      Bound("total_time", q.totalTimeMin, q.totalTimeMax),
      Bound("dps", q.dpsMin, q.dpsMax)
    ];
    PlainFragments();
    bounds
  }

  const RangeLike: string := Slot("range_ LIKE ")
  const DirectAttackIs: string := Slot("direct_attack = ")
  const FingerWagIs: string := Slot("finger_wag = ")
  const ProtectIs: string := Slot("protect = ")
  const SubstituteIs: string := Slot("substitute = ")

  /** The fixed fragments of both statements hold no placeholder. This is
      the one lemma callers use; the three below only split the literals in
      groups small enough for the solver. */
  lemma PlainFragments()
    ensures NoPlaceholder("name LIKE ") && NoPlaceholder("obtain_method LIKE ") && NoPlaceholder("range_ LIKE ")
    ensures NoPlaceholder("direct_attack = ") && NoPlaceholder("finger_wag = ")
    ensures NoPlaceholder("protect = ") && NoPlaceholder("substitute = ")
    ensures NoPlaceholder("type") && NoPlaceholder("category") && NoPlaceholder("types_json LIKE ")
    ensures NoPlaceholder(" IN (") && NoPlaceholder(")") && NoPlaceholder("))") && NoPlaceholder("(")
    ensures NoPlaceholder(" OR ") && NoPlaceholder(" = ")
    ensures NoPlaceholder("SELECT ") && NoPlaceholder(" FROM moves") && NoPlaceholder(PokemonsFrom)
    ensures NoPlaceholder("power") && NoPlaceholder("activation_time") && NoPlaceholder("startup_time")
    ensures NoPlaceholder("startup_time_q") && NoPlaceholder("recovery_time") && NoPlaceholder("total_time")
    ensures NoPlaceholder("dps")
  {
    ClauseFragments();
    JoinFragments();
    HeadFragments();
  }

  lemma ClauseFragments()
    ensures NoPlaceholder("name LIKE ") && NoPlaceholder("obtain_method LIKE ") && NoPlaceholder("range_ LIKE ")
    ensures NoPlaceholder("direct_attack = ") && NoPlaceholder("finger_wag = ")
    ensures NoPlaceholder("protect = ") && NoPlaceholder("substitute = ")
  {
  }

  lemma JoinFragments()
    ensures NoPlaceholder("type") && NoPlaceholder("category") && NoPlaceholder("types_json LIKE ")
    ensures NoPlaceholder(" IN (") && NoPlaceholder(")") && NoPlaceholder("))") && NoPlaceholder("(")
    ensures NoPlaceholder(" OR ") && NoPlaceholder(" = ")
  {
  }

  lemma HeadFragments()
    ensures NoPlaceholder("SELECT ") && NoPlaceholder(" FROM moves") && NoPlaceholder(PokemonsFrom)
    ensures NoPlaceholder("power") && NoPlaceholder("activation_time") && NoPlaceholder("startup_time")
    ensures NoPlaceholder("startup_time_q") && NoPlaceholder("recovery_time") && NoPlaceholder("total_time")
    ensures NoPlaceholder("dps")
  {
  }

  /** Each single-value clause holds exactly one placeholder. */
  lemma ClauseConstants()
    ensures Placeholders(NameLike) == 1 && Placeholders(ObtainMethodLike) == 1
    ensures Placeholders(RangeLike) == 1 && Placeholders(DirectAttackIs) == 1
    ensures Placeholders(FingerWagIs) == 1 && Placeholders(ProtectIs) == 1
    ensures Placeholders(SubstituteIs) == 1 && Placeholders(TypesJsonLike) == 1
  {
    PlainFragments();
    SlotPlaceholders("name LIKE ");
    SlotPlaceholders("obtain_method LIKE ");
    SlotPlaceholders("range_ LIKE ");
    SlotPlaceholders("direct_attack = ");
    SlotPlaceholders("finger_wag = ");
    SlotPlaceholders("protect = ");
    SlotPlaceholders("substitute = ");
    SlotPlaceholders("types_json LIKE ");
  }

  /** The filters of `search_moves` before the ranges, in handler order. */
  function MoveTextFilters(q: MoveSearch): Filters {
    Then(Then(Then(Then(Then(Then(Then(
      LikeFilter(NameLike, q.nameLike),
      InFilter("type", q.types)),
      InFilter("category", q.categories)),
      LikeFilter(RangeLike, q.rangeLike)),
      ExactFilter(DirectAttackIs, q.directAttack)),
      ExactFilter(FingerWagIs, q.fingerWag)),
      ExactFilter(ProtectIs, q.protect)),
      ExactFilter(SubstituteIs, q.substitute))
  }

  /** All the filters of `search_moves`. */
  function MoveFilters(q: MoveSearch): Filters {
    Then(MoveTextFilters(q), BoundsFilters(MoveBounds(q)))
  }

  /** The columns `search_moves` may sort on; the list does not depend on
      the table. */
  const MoveSortColumns: seq<string> :=
    ["name", "power", "activation_time", "startup_time", "startup_time_q", "recovery_time", "total_time", "dps"]

  lemma MoveSortColumnsPlain()
    ensures AllNoPlaceholder(MoveSortColumns)
  {
    forall i | 0 <= i < |MoveSortColumns| ensures NoPlaceholder(MoveSortColumns[i]) {
    }
  }

  /** `f"SELECT {', '.join(select_cols)} FROM moves"`. */
  function MovesFrom(selectCols: seq<string>): string {
    "SELECT " + Join(selectCols, ", ") + " FROM moves"
  }

  /** The statement `search_moves` sends, or the sort error it raises; only
      the listed move columns the table has are selected. */
  function MoveStatement(q: MoveSearch, mcols: set<string>): Result<Statement, Failure> {
    SearchStatement(MovesFrom(SelectExistingColumns(MoveColumns, mcols)), MoveFilters(q), q.sort,
                    MoveSortColumns, q.limit, q.offset)
  }

  /** What `search_moves` answers. */
  function SearchMoves(engine: Db.Engine, mcols: set<string>, q: MoveSearch): Result<SearchPage, Failure> {
    Search(engine, MovesFrom(SelectExistingColumns(MoveColumns, mcols)), MoveFilters(q), q.sort,
           MoveSortColumns, q.limit, q.offset)
  }

  /** The filter steps of `search_moves_handler`, in order. */
  method MoveWhere(q: MoveSearch) returns (where: seq<string>, params: seq<Value>)
    ensures Filters(where, params) == MoveFilters(q)
  {
    where, params := AddLike([], [], NameLike, q.nameLike);
    NoFiltersThen(LikeFilter(NameLike, q.nameLike));
    where, params := AddIn(where, params, "type", q.types);
    where, params := AddIn(where, params, "category", q.categories);
    where, params := AddLike(where, params, RangeLike, q.rangeLike);
    where, params := AddExact(where, params, DirectAttackIs, q.directAttack);
    where, params := AddExact(where, params, FingerWagIs, q.fingerWag);
    where, params := AddExact(where, params, ProtectIs, q.protect);
    where, params := AddExact(where, params, SubstituteIs, q.substitute);
    assert Filters(where, params) == MoveTextFilters(q);
    where, params := AppendBounds(where, params, MoveBounds(q));
  }

  /** `search_moves_handler`, given the columns of `moves`. */
  method SearchMovesHandler(engine: Db.Engine, mcols: set<string>, q: MoveSearch)
    returns (r: Result<SearchPage, Failure>)
    ensures r == SearchMoves(engine, mcols, q)
  {
    var selectCols := SelectExistingColumns(MoveColumns, mcols);
    var where, params := MoveWhere(q);
    r := RunSearch(engine, MovesFrom(selectCols), where, params, q.sort, MoveSortColumns, q.limit, q.offset);
  }

  lemma MoveTextFiltersBalanced(q: MoveSearch)
    ensures Balanced(MoveTextFilters(q))
  {
    ClauseConstants();
    PlainFragments();
    var a := LikeFilter(NameLike, q.nameLike);
    LikeFilterBalanced(NameLike, q.nameLike);
    var b := InFilter("type", q.types);
    InFilterBalanced("type", q.types);
    ThenBalanced(a, b);
    var c := InFilter("category", q.categories);
    InFilterBalanced("category", q.categories);
    ThenBalanced(Then(a, b), c);
    var d := LikeFilter(RangeLike, q.rangeLike);
    LikeFilterBalanced(RangeLike, q.rangeLike);
    ThenBalanced(Then(Then(a, b), c), d);
    var e := ExactFilter(DirectAttackIs, q.directAttack);
    ExactFilterBalanced(DirectAttackIs, q.directAttack);
    ThenBalanced(Then(Then(Then(a, b), c), d), e);
    var g := ExactFilter(FingerWagIs, q.fingerWag);
    ExactFilterBalanced(FingerWagIs, q.fingerWag);
    ThenBalanced(Then(Then(Then(Then(a, b), c), d), e), g);
    var h := ExactFilter(ProtectIs, q.protect);
    ExactFilterBalanced(ProtectIs, q.protect);
    ThenBalanced(Then(Then(Then(Then(Then(a, b), c), d), e), g), h);
    var k := ExactFilter(SubstituteIs, q.substitute);
    ExactFilterBalanced(SubstituteIs, q.substitute);
    ThenBalanced(Then(Then(Then(Then(Then(Then(a, b), c), d), e), g), h), k);
  }

  /** Every placeholder of the statement `search_moves` sends has exactly one
      value, whatever filters, schema and sort the request combines. */
  lemma MoveStatementBalanced(q: MoveSearch, mcols: set<string>)
    requires MoveStatement(q, mcols).Ok?
    ensures Placeholders(MoveStatement(q, mcols).value.sql) == |MoveStatement(q, mcols).value.params|
  {
    MoveTextFiltersBalanced(q);
    BoundsFiltersBalanced(MoveBounds(q));
    ThenBalanced(MoveTextFilters(q), BoundsFilters(MoveBounds(q)));
    MoveSortColumnsPlain();
    var cols := SelectExistingColumns(MoveColumns, mcols);
    MoveColumnsHaveNoPlaceholder();
    SelectedHaveNoPlaceholder(MoveColumns, mcols);
    AllNoPlaceholderSum(cols);
    JoinPlaceholders(cols, ", ");
    var j := Join(cols, ", ");
    assert NoPlaceholder(j) by {
      assert multiset(j)['?'] == 0;
    }
    PlainFragments();
    assert NoPlaceholder("SELECT " + j + " FROM moves");
    SearchStatementBalanced(MovesFrom(cols), MoveFilters(q), q.sort, MoveSortColumns, q.limit, q.offset);
  }
}
