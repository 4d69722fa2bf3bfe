/** The helpers of `src/tools.py` shared by the tool handlers: the sort
    parser, the column filters, paging, and the shaping of `run_code`'s
    answer. */
module Tools {
  import opened Wrappers
  import opened PyValues
  import opened SqlText
  import CodeEnvironment

  /** The exceptions a handler raises: `ValueError` (a bad request),
      FastAPI's `HTTPException`, and the `KeyError` of a row read by a
      column it does not have. */
  datatype Failure = ValueError(message: string) | HttpError(status: int, detail: string) | KeyError(key: string)

  // ---------------------------------------------------------------------
  // _parse_sort
  // ---------------------------------------------------------------------

  /** One sort directive: a column and its direction. */
  datatype SortItem = SortItem(key: string, descending: bool)

  /** A leading `-` asks for descending order on the rest of the text. */
  function ParseDirective(raw: string): (item: SortItem)
    ensures item.descending <==> |raw| > 0 && raw[0] == '-'
    ensures item.key == if item.descending then raw[1..] else raw
  {
    if |raw| > 0 && raw[0] == '-' then SortItem(raw[1..], true) else SortItem(raw, false)
  }

  /** The text of a directive. */
  function Directive(item: SortItem): string {
    if item.descending then "-" + item.key else item.key
  }

  /** Parsing a directive loses nothing: writing it back gives the input. */
  lemma DirectiveRoundTrip(raw: string)
    ensures Directive(ParseDirective(raw)) == raw
  {
    if |raw| > 0 && raw[0] == '-' {
      assert "-" + raw[1..] == raw;
    }
  }

  /** Text written from an item whose column does not itself start with `-`
      parses back to that item. */
  lemma ParseDirectiveRoundTrip(item: SortItem)
    requires item.key == "" || item.key[0] != '-'
    ensures ParseDirective(Directive(item)) == item
  {
    if item.descending {
      assert ("-" + item.key)[1..] == item.key;
    }
  }

  /** `"{key} ASC"` or `"{key} DESC"`. */
  function OrderClause(item: SortItem): string {
    item.key + " " + (if item.descending then "DESC" else "ASC")
  }

  /** The ORDER BY clauses of a list of directives, in input order. */
  function OrderClauses(raws: seq<string>): (cs: seq<string>)
    ensures |cs| == |raws|
    ensures forall i :: 0 <= i < |raws| ==> cs[i] == OrderClause(ParseDirective(raws[i]))
  {
    seq(|raws|, i requires 0 <= i < |raws| => OrderClause(ParseDirective(raws[i])))
  }

  /** The first directive (in input order) whose column is not allowed. */
  function FirstUnsupported(raws: seq<string>, allowed: seq<string>): (r: Option<string>)
    ensures r.None? <==> forall i :: 0 <= i < |raws| ==> ParseDirective(raws[i]).key in allowed
    ensures r.Some? ==> exists i :: 0 <= i < |raws| && ParseDirective(raws[i]).key == r.value &&
                          r.value !in allowed &&
                          forall j :: 0 <= j < i ==> ParseDirective(raws[j]).key in allowed
    decreases |raws|
  {
    if raws == [] then None
    else
      var key := ParseDirective(raws[0]).key;
      if key !in allowed then Some(key)
      else
        var rest := FirstUnsupported(raws[1..], allowed);
        assert forall i :: 1 <= i < |raws| ==> raws[1..][i - 1] == raws[i];
        if rest.Some? then
          var i :| 0 <= i < |raws[1..]| && ParseDirective(raws[1..][i]).key == rest.value &&
                   rest.value !in allowed &&
                   forall j :: 0 <= j < i ==> ParseDirective(raws[1..][j]).key in allowed;
          assert forall j :: 0 <= j < i + 1 ==> ParseDirective(raws[j]).key in allowed by {
            forall j | 0 <= j < i + 1 ensures ParseDirective(raws[j]).key in allowed {
              if j > 0 { assert raws[j] == raws[1..][j - 1]; }
            }
          }
          rest
        else
          rest
  }

  /** What `_parse_sort` computes: nothing for no directives, the first
      unsupported column as a `ValueError`, else `" ORDER BY "` and the
      clauses joined by `", "`. */
  function SortSql(sortList: Option<seq<string>>, allowed: seq<string>): Result<string, Failure> {
    if sortList.None? || sortList.value == [] then Ok("")
    else match FirstUnsupported(sortList.value, allowed)
      case Some(key) => Err(ValueError("Unsupported sort field: " + key))
      case None => Ok(" ORDER BY " + Join(OrderClauses(sortList.value), ", "))
  }

  /** `_parse_sort`: the directives are read in order, the first column
      outside the allowlist ends the parse with an error. */
  method ParseSort(sortList: Option<seq<string>>, allowed: seq<string>) returns (r: Result<string, Failure>)
    ensures r == SortSql(sortList, allowed)
  {
    if sortList.None? || sortList.value == [] {
      return Ok("");
    }
    var raws := sortList.value;
    var clauses: seq<string> := [];
    for i := 0 to |raws|
      invariant clauses == OrderClauses(raws[..i])
      invariant forall j :: 0 <= j < i ==> ParseDirective(raws[j]).key in allowed
    {
      var raw := raws[i];
      var direction := "ASC";
      var key := raw;
      if |raw| > 0 && raw[0] == '-' {
        direction := "DESC";
        key := raw[1..];
      }
      if key !in allowed {
        ghost var first := FirstUnsupported(raws, allowed);
        assert first.Some?;
        ghost var k :| 0 <= k < |raws| && ParseDirective(raws[k]).key == first.value &&
                       first.value !in allowed &&
                       forall j :: 0 <= j < k ==> ParseDirective(raws[j]).key in allowed;
        assert k == i;
        return Err(ValueError("Unsupported sort field: " + key));
      }
      assert ParseDirective(raw) == SortItem(key, direction == "DESC");
      assert raws[..i + 1] == raws[..i] + [raw];
      clauses := clauses + [key + " " + direction];
    }
    assert raws[..|raws|] == raws;
    r := Ok(" ORDER BY " + Join(clauses, ", "));
  }

  /** The sort parser rejects a list exactly when one of its columns is not
      allowed, and an accepted list contributes one clause per directive. */
  lemma SortSqlRejectsExactly(raws: seq<string>, allowed: seq<string>)
    requires raws != []
    ensures SortSql(Some(raws), allowed).Err? <==>
            exists i :: 0 <= i < |raws| && ParseDirective(raws[i]).key !in allowed
    ensures SortSql(Some(raws), allowed).Ok? ==>
            SortSql(Some(raws), allowed).value == " ORDER BY " + Join(OrderClauses(raws), ", ")
  {
  }

  /** When no allowed column contains `?`, an accepted ORDER BY clause
      contributes no placeholder to the statement. */
  lemma SortSqlPlaceholders(sortList: Option<seq<string>>, allowed: seq<string>)
    requires AllNoPlaceholder(allowed)
    requires SortSql(sortList, allowed).Ok?
    ensures Placeholders(SortSql(sortList, allowed).value) == 0
  {
    if sortList.Some? && sortList.value != [] {
      var raws := sortList.value;
      assert FirstUnsupported(raws, allowed).None?;
      OrderByPlaceholders(raws, allowed);
    }
  }

  lemma OrderByPlaceholders(raws: seq<string>, allowed: seq<string>)
    requires AllNoPlaceholder(allowed)
    requires forall i :: 0 <= i < |raws| ==> ParseDirective(raws[i]).key in allowed
    ensures Placeholders(" ORDER BY " + Join(OrderClauses(raws), ", ")) == 0
  {
    var cs := OrderClauses(raws);
    forall i | 0 <= i < |cs| ensures NoPlaceholder(cs[i]) {
      ClauseNoPlaceholder(ParseDirective(raws[i]), allowed);
    }
    AllNoPlaceholderSum(cs);
    JoinPlaceholders(cs, ", ");
    var j := Join(cs, ", ");
    NoPlaceholderCount(" ORDER BY ");
    assert multiset(" ORDER BY " + j) == multiset(" ORDER BY ") + multiset(j);
  }

  lemma ClauseNoPlaceholder(item: SortItem, allowed: seq<string>)
    requires AllNoPlaceholder(allowed) && item.key in allowed
    ensures NoPlaceholder(OrderClause(item))
  {
    var j :| 0 <= j < |allowed| && allowed[j] == item.key;
    assert NoPlaceholder(allowed[j]);
  }

  // ---------------------------------------------------------------------
  // Column selection
  // ---------------------------------------------------------------------

  /** `a` is `b` with some elements left out, the rest in their order. */
  predicate IsSubsequence(a: seq<string>, b: seq<string>)
    decreases |b|
  {
    if a == [] then true
    else if b == [] then false
    else (a[0] == b[0] && IsSubsequence(a[1..], b[1..])) || IsSubsequence(a, b[1..])
  }

  /** `_select_existing_columns`: the columns of `tableCols` that exist,
      each as often as it occurs, in `tableCols` order. */
  function SelectExistingColumns(tableCols: seq<string>, existing: set<string>): (r: seq<string>)
    ensures forall c :: c in r <==> c in tableCols && c in existing
    ensures forall c :: multiset(r)[c] == if c in existing then multiset(tableCols)[c] else 0
    ensures IsSubsequence(r, tableCols)
    decreases |tableCols|
  {
    if tableCols == [] then []
    else
      var rest := SelectExistingColumns(tableCols[1..], existing);
      assert tableCols == [tableCols[0]] + tableCols[1..];
      assert multiset(tableCols) == multiset{tableCols[0]} + multiset(tableCols[1..]);
      if tableCols[0] in existing then
        var r := [tableCols[0]] + rest;
        assert r[1..] == rest;
        r
      else
        assert rest == [] || IsSubsequence(rest, tableCols[1..]);
        rest
  }

  /** Filtering a column list that starts with `c` keeps `c` in front
      exactly when the table has it. */
  lemma SelectExistingColumnsCons(c: string, rest: seq<string>, existing: set<string>)
    ensures SelectExistingColumns([c] + rest, existing) ==
      (if c in existing then [c] else []) + SelectExistingColumns(rest, existing)
  {
    assert ([c] + rest)[1..] == rest;
  }

  /** The move columns the search and detail tools ask for, in the order
      they are listed; each is selected only when the table has it. */
  const MoveColumns: seq<string> :=
    ["id", "move_key", "name", "type", "category", "power", "activation_time",
     "startup_time", "startup_time_q", "startup_time_plus", "recovery_time", "total_time",
     "total_time_plus", "dps", "direct_attack", "finger_wag", "protect", "substitute",
     "range_", "effect", "page_url"]

  lemma MoveColumnsHaveNoPlaceholder()
    ensures AllNoPlaceholder(MoveColumns)
  {
    forall i | 0 <= i < |MoveColumns| ensures NoPlaceholder(MoveColumns[i]) {
    }
  }

  /** Choosing from constants that hold no `?` gives columns without one. */
  lemma SelectedHaveNoPlaceholder(tableCols: seq<string>, existing: set<string>)
    requires AllNoPlaceholder(tableCols)
    ensures AllNoPlaceholder(SelectExistingColumns(tableCols, existing))
  {
    var r := SelectExistingColumns(tableCols, existing);
    forall i | 0 <= i < |r| ensures NoPlaceholder(r[i]) {
      assert r[i] in tableCols;
    }
  }

  /** `_resolve`: the first candidate column that the table has, if any. */
  function Resolve(candidates: seq<string>, cols: set<string>): (r: Option<string>)
    ensures r.None? <==> forall i :: 0 <= i < |candidates| ==> candidates[i] !in cols
    ensures r.Some? ==> r.value in cols
    ensures r.Some? ==> exists i :: 0 <= i < |candidates| && candidates[i] == r.value &&
                          forall j :: 0 <= j < i ==> candidates[j] !in cols
    decreases |candidates|
  {
    if candidates == [] then None
    else if candidates[0] in cols then Some(candidates[0])
    else
      var rest := Resolve(candidates[1..], cols);
      assert forall i :: 1 <= i < |candidates| ==> candidates[1..][i - 1] == candidates[i];
      if rest.Some? then
        var i :| 0 <= i < |candidates[1..]| && candidates[1..][i] == rest.value &&
                 forall j :: 0 <= j < i ==> candidates[1..][j] !in cols;
        assert candidates[i + 1] == rest.value;
        assert forall j :: 0 <= j < i + 1 ==> candidates[j] !in cols by {
          forall j | 0 <= j < i + 1 ensures candidates[j] !in cols {
            if j > 0 { assert candidates[j] == candidates[1..][j - 1]; }
          }
        }
        rest
      else
        rest
  }

  // ---------------------------------------------------------------------
  // Paging
  // ---------------------------------------------------------------------

  /** `max(0, int(limit or 10))`: 0 asks for the default of 10, a negative
      limit is cut to 0. */
  function ClampLimit(limit: int): (n: nat)
    ensures limit == 0 ==> n == 10
    ensures limit < 0 ==> n == 0
    ensures limit > 0 ==> n == limit
  {
    var requested := if limit == 0 then 10 else limit;
    if requested < 0 then 0 else requested
  }

  /** `max(0, int(offset or 0))`. */
  function ClampOffset(offset: int): (n: nat)
    ensures offset <= 0 ==> n == 0
    ensures offset > 0 ==> n == offset
  {
    if offset < 0 then 0 else offset
  }

  // ---------------------------------------------------------------------
  // run_code
  // ---------------------------------------------------------------------

  /** The answer of the `run_code` tool. */
  datatype RunCodeResponse = RunCodeResponse(result: Value, stdout: string, error: Option<string>)

  /** `run_code_handler`'s shaping: `result` and `stdout` are copied, and
      `error` is added only when it is present and non-empty. */
  function ShapeRunCode(out: CodeEnvironment.Outcome): (data: RunCodeResponse)
    ensures data.result == out.result && data.stdout == out.stdout
    ensures data.error.Some? <==> out.error.Some? && out.error.value != ""
    ensures data.error.Some? ==> data.error == out.error
  {
    RunCodeResponse(out.result, out.stdout,
                    if out.error.Some? && out.error.value != "" then out.error else None)
  }

  /** The formatting of `timeout_sec=10.0` in the timeout message. */
  const RunCodeTimeoutText: string := "10.0"

  /** `run_code_handler`: run the request with a 10 second deadline and
      shape the outcome. */
  method RunCodeHandler(host: CodeEnvironment.Host, code: CodeEnvironment.Snippet, dbPath: Option<string>,
                        args: Option<Dict>, fate: CodeEnvironment.WorkerFate)
    returns (data: RunCodeResponse)
    ensures data == ShapeRunCode(CodeEnvironment.InvocationOutcome(
                      host, CodeEnvironment.ExecutionRequest(code, dbPath, Some(CodeEnvironment.ArgsOrEmpty(args))),
                      fate, RunCodeTimeoutText))
  {
    var request := CodeEnvironment.ExecutionRequest(code, dbPath, Some(CodeEnvironment.ArgsOrEmpty(args)));
    var out := CodeEnvironment.RunUserCodeWithTimeout(host, request, fate, RunCodeTimeoutText);
    data := ShapeRunCode(out);
  }

  /** A snippet that raises an exception whose text is empty reaches the
      caller as `result = None`, `stdout = ""` with no error at all: the
      same answer a snippet gives that prints nothing and leaves `result`
      unset. */
  lemma EmptyErrorIsDropped(host: CodeEnvironment.Host, request: CodeEnvironment.ExecutionRequest)
    requires host.openError(CodeEnvironment.ReadOnlyUri(request.dbPath, host.defaultPath)).None?
    requires request.snippet(CodeEnvironment.InitialEnv(CodeEnvironment.ArgsOrEmpty(request.args))) ==
             CodeEnvironment.Raised("")
    ensures ShapeRunCode(CodeEnvironment.InvocationOutcome(host, request, CodeEnvironment.Completes, RunCodeTimeoutText))
            == RunCodeResponse(VNone, "", None)
  {
  }
}
