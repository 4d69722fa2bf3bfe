/** The sandbox of `src/code_environment.py`: the restricted environment a
    snippet runs in, the `sql`/`scalar` helpers, the worker that runs one
    snippet and sends exactly one tagged message, and the supervisor that
    turns what it observes of the worker into an outcome.

    Running Python (`exec`), the worker process and SQLite are abstract: a
    snippet is a function from its starting environment to how `exec`
    ended, the process is described by how it ended (`WorkerFate`), the
    queue is a `Channel` object, and the store is a `Db.Engine`. */
module CodeEnvironment {
  import opened Wrappers
  import opened PyValues
  import Db

  // ---------------------------------------------------------------------
  // The restricted environment
  // ---------------------------------------------------------------------

  /** `_safe_builtins`: the allowlist of built-ins a snippet may call. */
  function SafeBuiltins(): seq<string> {
    ["print", "abs", "min", "max", "sum", "len", "range", "enumerate", "list",
     "dict", "set", "tuple", "sorted", "any", "all", "zip", "map", "filter", "round"]
  }

  /** The allowlist has nineteen names, `print` and `len` among them. */
  lemma SafeBuiltinsIncludes()
    ensures |SafeBuiltins()| == 19 && "print" in SafeBuiltins() && "len" in SafeBuiltins()
  {
    assert SafeBuiltins()[5] == "len";
  }

  /** None of the built-ins that reach files, code loading or reflection is
      on the allowlist. */
  lemma SafeBuiltinsExcludes()
    ensures "open" !in SafeBuiltins() && "exec" !in SafeBuiltins() && "eval" !in SafeBuiltins()
    ensures "__import__" !in SafeBuiltins() && "compile" !in SafeBuiltins() && "getattr" !in SafeBuiltins()
  {
    var names := SafeBuiltins();
    forall i | 0 <= i < |names|
      ensures names[i] != "open" && names[i] != "exec" && names[i] != "eval"
      ensures names[i] != "__import__" && names[i] != "compile" && names[i] != "getattr"
    {
      assert names[i][0] !in {'o', '_', 'c', 'g'} && (names[i][0] == 'e' ==> |names[i]| == 9);
    }
  }

  /** The modules handed to the snippet ready-imported, since it cannot import. */
  function PreloadedModules(): seq<string> {
    ["math", "statistics", "json", "re"]
  }

  /** `__builtins__` as the snippet sees it: each allowlisted name bound to
      its host function, in allowlist order. */
  function BuiltinsTable(): (table: Dict)
    ensures Keys(table) == SafeBuiltins()
  {
    var names := SafeBuiltins();
    seq(|names|, i requires 0 <= i < |names| => (names[i], VObject("builtin " + names[i])))
  }

  /** A snippet's global (and local) namespace. */
  type Env = map<string, Value>

  /** The namespace `run_user_code` builds for a snippet: the allowlisted
      built-ins, the four preloaded modules, the read-only connection, the
      two helpers, the caller's `args` and `result = None`. */
  function InitialEnv(args: Dict): (env: Env)
    ensures env.Keys == {"__builtins__", "math", "statistics", "json", "re",
                         "conn", "sql", "scalar", "args", "result"}
    ensures env["__builtins__"] == VDict(BuiltinsTable())
    ensures env["args"] == VDict(args)
    ensures env["result"] == VNone
  {
    map[
      "__builtins__" := VDict(BuiltinsTable()),
      "math" := VObject("module math"),
      "statistics" := VObject("module statistics"),
      "json" := VObject("module json"),
      "re" := VObject("module re"),
      "conn" := VObject("read-only connection"),
      "sql" := VObject("function sql"),
      "scalar" := VObject("function scalar"),
      "args" := VDict(args),
      "result" := VNone
    ]
  }

  /** The URI `_open_ro_conn` opens: the chosen path in SQLite's read-only
      URI form. */
  function ReadOnlyUri(dbPath: Option<string>, defaultPath: string): (uri: string)
    ensures |uri| == |Db.ConnectionPath(dbPath, defaultPath)| + |"file:"| + |"?mode=ro"|
    ensures uri[..5] == "file:" && uri[|uri| - 8..] == "?mode=ro"
    ensures uri[5..|uri| - 8] == Db.ConnectionPath(dbPath, defaultPath)
  {
    "file:" + Db.ConnectionPath(dbPath, defaultPath) + "?mode=ro"
  }

  // ---------------------------------------------------------------------
  // The data-access helpers
  // ---------------------------------------------------------------------

  /** The parameters the helpers bind: a list or tuple as it is, any other
      value as a 1-tuple. */
  function ParamsTuple(params: Value): (bound: seq<Value>)
    ensures (params.VList? || params.VTuple?) ==> bound == params.items
    ensures !(params.VList? || params.VTuple?) ==> bound == [params]
  {
    if params.VList? || params.VTuple? then params.items else [params]
  }

  /** `sql(query, params)`: every result row, in order, as a dict. */
  function Sql(engine: Db.Engine, query: string, params: Value): (rows: seq<Dict>)
    ensures |rows| == |engine(query, ParamsTuple(params))|
    ensures forall i :: 0 <= i < |rows| ==> rows[i] == RowToDict(engine(query, ParamsTuple(params))[i])
  {
    Db.RowsToDicts(engine(query, ParamsTuple(params)))
  }

  /** `scalar(query, params)`: None for no row; the value itself when the
      first row has exactly one column; the whole first row as a dict
      otherwise. Rows after the first are never consulted. */
  function Scalar(engine: Db.Engine, query: string, params: Value): (v: Value)
    ensures engine(query, ParamsTuple(params)) == [] ==> v == VNone
    ensures engine(query, ParamsTuple(params)) != [] && |engine(query, ParamsTuple(params))[0]| == 1 ==>
              v == engine(query, ParamsTuple(params))[0][0].1
    ensures engine(query, ParamsTuple(params)) != [] && |engine(query, ParamsTuple(params))[0]| != 1 ==>
              v == VDict(RowToDict(engine(query, ParamsTuple(params))[0]))
  {
    var rows := engine(query, ParamsTuple(params));
    if rows == [] then VNone
    else if |rows[0]| == 1 then rows[0][0].1
    else VDict(RowToDict(rows[0]))
  }

  /** `scalar` agrees with the first element of what `sql` returns for the
      same statement: None when `sql` returns nothing, the first row's only
      value when it has one column, that whole row otherwise. */
  lemma ScalarIsFirstOfSql(engine: Db.Engine, query: string, params: Value)
    ensures var all := Sql(engine, query, params);
            var rows := engine(query, ParamsTuple(params));
            && (all == [] <==> Scalar(engine, query, params) == VNone && rows == [])
            && (rows != [] && |rows[0]| == 1 ==> Scalar(engine, query, params) == Get(all[0], rows[0][0].0))
            && (rows != [] && |rows[0]| != 1 ==> Scalar(engine, query, params) == VDict(all[0]))
  {
    var rows := engine(query, ParamsTuple(params));
    if rows != [] && |rows[0]| == 1 {
      var row := rows[0];
      assert DistinctKeys(row);
      RowToDictDistinct(row);
    }
  }

  /** Only the first row decides `scalar`: two stores whose results for a
      statement start with the same row give the same value. */
  lemma ScalarIgnoresLaterRows(e1: Db.Engine, e2: Db.Engine, query: string, params: Value)
    requires e1(query, ParamsTuple(params)) != [] && e2(query, ParamsTuple(params)) != []
    requires e1(query, ParamsTuple(params))[0] == e2(query, ParamsTuple(params))[0]
    ensures Scalar(e1, query, params) == Scalar(e2, query, params)
  {
  }

  // ---------------------------------------------------------------------
  // Running one snippet
  // ---------------------------------------------------------------------

  /** How `exec(code, env, env)` ended: normally, with the final namespace
      and what the snippet printed, or by raising (the text is `str(e)`). */
  datatype ExecResult = Completed(env: Env, printed: string) | Raised(message: string)

  /** The snippet: its effect on the namespace it is run in. */
  type Snippet = Env -> ExecResult

  /** What the host provides: the default store location, and whether
      SQLite can open a URI (None) or the error it raises. */
  datatype Host = Host(defaultPath: string, openError: string -> Option<string>)

  /** A request to the sandbox. */
  datatype ExecutionRequest = ExecutionRequest(snippet: Snippet, dbPath: Option<string>, args: Option<Dict>)

  /** What `run_user_code` returns. */
  datatype RunOutput = RunOutput(stdout: string, result: Value)

  /** `args or {}`. */
  function ArgsOrEmpty(args: Option<Dict>): (d: Dict)
    ensures args.Some? ==> d == args.value
    ensures args.None? ==> d == []
  {
    args.GetOr([])
  }

  /** `run_user_code`: open the store read-only (an error propagates before
      the snippet runs), run the snippet in a fresh `InitialEnv`, then read
      back `result` (None if the snippet deleted it) and the captured output.
      A snippet that raises makes the whole call raise its error. */
  function RunUserCode(host: Host, request: ExecutionRequest): (r: Result<RunOutput, string>)
    ensures var uri := ReadOnlyUri(request.dbPath, host.defaultPath);
            host.openError(uri).Some? ==> r == Err(host.openError(uri).value)
    ensures var uri := ReadOnlyUri(request.dbPath, host.defaultPath);
            var ran := request.snippet(InitialEnv(ArgsOrEmpty(request.args)));
            host.openError(uri).None? ==>
              match ran
              case Raised(e) => r == Err(e)
              case Completed(env, printed) =>
                r == Ok(RunOutput(printed, if "result" in env then env["result"] else VNone))
  {
    var uri := ReadOnlyUri(request.dbPath, host.defaultPath);
    if host.openError(uri).Some? then Err(host.openError(uri).value)
    else
      match request.snippet(InitialEnv(ArgsOrEmpty(request.args)))
      case Raised(e) => Err(e)
      case Completed(env, printed) =>
        Ok(RunOutput(printed, if "result" in env then env["result"] else VNone))
  }

  /** A snippet that never touches `result` gets `result = None` back, with
      whatever it printed. */
  lemma UnassignedResultIsNone(host: Host, request: ExecutionRequest)
    requires host.openError(ReadOnlyUri(request.dbPath, host.defaultPath)).None?
    requires var ran := request.snippet(InitialEnv(ArgsOrEmpty(request.args)));
             ran.Completed? && "result" in ran.env && ran.env["result"] == VNone
    ensures RunUserCode(host, request).Ok?
    ensures RunUserCode(host, request).value.result == VNone
    ensures RunUserCode(host, request).value.stdout == request.snippet(InitialEnv(ArgsOrEmpty(request.args))).printed
  {
  }

  // ---------------------------------------------------------------------
  // The worker and its one-shot channel
  // ---------------------------------------------------------------------

  /** The most characters of output that leave the worker. */
  const StdoutCap: nat := 10000

  /** `s[:10000]`. */
  function CapStdout(s: string): (t: string)
    ensures |t| == if |s| <= StdoutCap then |s| else StdoutCap
    ensures t == s[..|t|]
  {
    if |s| <= StdoutCap then s else s[..StdoutCap]
  }

  /** The two messages the worker sends: `{"ok": True, "data": out}` and
      `{"ok": False, "error": str(e)}`. */
  datatype Msg = OkMsg(data: RunOutput) | FailMsg(error: string)

  /** The message that a run produces. */
  function WorkerMessage(run: Result<RunOutput, string>): (m: Msg)
    ensures run.Ok? <==> m.OkMsg?
    ensures run.Ok? ==> m.data.result == run.value.result
    ensures run.Ok? ==> m.data.stdout == CapStdout(run.value.stdout)
    ensures run.Err? ==> m == FailMsg(run.error)
  {
    match run
    case Ok(out) => OkMsg(out.(stdout := CapStdout(out.stdout)))
    case Err(e) => FailMsg(e)
  }

  /** The `multiprocessing.Queue` between worker and supervisor. */
  class Channel {
    var messages: seq<Msg>

    constructor ()
      ensures messages == []
    {
      messages := [];
    }

    method Put(m: Msg)
      modifies this
      ensures messages == old(messages) + [m]
    {
      messages := messages + [m];
    }

    function IsEmpty(): (b: bool)
      reads this
      ensures b <==> messages == []
    {
      messages == []
    }

    /** `q.get()`; it would block on an empty queue, so callers check first. */
    method Get() returns (m: Msg)
      requires messages != []
      modifies this
      ensures m == old(messages)[0] && messages == old(messages)[1..]
    {
      m := messages[0];
      messages := messages[1..];
    }
  }

  /** `_worker_run_code`: run the snippet, cap its output in place, and put
      exactly one message on the channel, whatever happened. */
  method WorkerRunCode(host: Host, request: ExecutionRequest, q: Channel)
    modifies q
    ensures q.messages == old(q.messages) + [WorkerMessage(RunUserCode(host, request))]
  {
    var run := RunUserCode(host, request.(args := Some(ArgsOrEmpty(request.args))));
    assert run == RunUserCode(host, request);
    match run {
      case Ok(out) =>
        var capped := out;
        if |capped.stdout| > StdoutCap {
          capped := capped.(stdout := capped.stdout[..StdoutCap]);
        }
        q.Put(OkMsg(capped));
      case Err(e) =>
        q.Put(FailMsg(e));
    }
  }

  // ---------------------------------------------------------------------
  // The supervisor
  // ---------------------------------------------------------------------

  /** The triple returned to the caller; `error` absent on success. */
  datatype Outcome = Outcome(result: Value, stdout: string, error: Option<string>)

  function TimeoutOutcome(timeoutText: string): Outcome {
    Outcome(VNone, "", Some("timeout after " + timeoutText + "s"))
  }

  function CrashOutcome(): Outcome {
    Outcome(VNone, "", Some("no result (crash or empty output)"))
  }

  /** What the supervisor makes of the message it reads: the data of an ok
      message unchanged, the error text of a failed one. */
  function Relay(m: Msg): (out: Outcome)
    ensures m.OkMsg? ==> out == Outcome(m.data.result, m.data.stdout, None)
    ensures m.FailMsg? ==> out == Outcome(VNone, "", Some(m.error))
  {
    match m
    case OkMsg(data) => Outcome(data.result, data.stdout, None)
    case FailMsg(e) => Outcome(VNone, "", Some(e))
  }

  /** The checks after `p.join(timeout)`: a worker still alive is a timeout
      and the channel is left alone; an exited worker with an empty channel
      crashed; otherwise the first message is taken and relayed. */
  method Supervise(workerAlive: bool, q: Channel, timeoutText: string) returns (out: Outcome)
    modifies q
    ensures workerAlive ==> out == TimeoutOutcome(timeoutText) && q.messages == old(q.messages)
    ensures !workerAlive && old(q.messages) == [] ==> out == CrashOutcome() && q.messages == []
    ensures !workerAlive && old(q.messages) != [] ==>
              out == Relay(old(q.messages)[0]) && q.messages == old(q.messages)[1..]
  {
    if workerAlive {
      return TimeoutOutcome(timeoutText);
    }
    if q.IsEmpty() {
      return CrashOutcome();
    }
    var msg := q.Get();
    out := Relay(msg);
  }

  /** How the worker process ended, as the supervisor can observe it: it ran
      to the end; it was still running when the deadline passed; or it
      exited without sending anything (killed by the host). */
  datatype WorkerFate = Completes | StillRunning | DiedSilently

  /** The outcome of one invocation, defined from its parts. */
  function InvocationOutcome(host: Host, request: ExecutionRequest, fate: WorkerFate, timeoutText: string): Outcome {
    match fate
    case StillRunning => TimeoutOutcome(timeoutText)
    case DiedSilently => CrashOutcome()
    case Completes => Relay(WorkerMessage(RunUserCode(host, request)))
  }

  /** `run_user_code_with_timeout`: a fresh channel, one worker, and the
      supervisor's checks on what that worker did. */
  method RunUserCodeWithTimeout(host: Host, request: ExecutionRequest, fate: WorkerFate, timeoutText: string)
    returns (out: Outcome)
    ensures out == InvocationOutcome(host, request, fate, timeoutText)
  {
    var q := new Channel();
    if fate == Completes {
      WorkerRunCode(host, request, q);
    }
    out := Supervise(fate == StillRunning, q, timeoutText);
  }

  /** What a caller can rely on for every invocation: a timeout or a crash
      never carries a result or output; a completed worker fails exactly
      when running the snippet failed, and otherwise returns the snippet's
      result with at most 10000 characters of its output, a prefix of it. */
  lemma InvocationGuarantees(host: Host, request: ExecutionRequest, fate: WorkerFate, timeoutText: string)
    ensures var out := InvocationOutcome(host, request, fate, timeoutText);
            && (fate.StillRunning? ==> out.result == VNone && out.stdout == "" &&
                                       out.error.Some? && out.error.value[..14] == "timeout after ")
            && (fate.DiedSilently? ==> out == CrashOutcome())
            && (fate.Completes? ==>
                  var run := RunUserCode(host, request);
                  && (out.error.None? <==> run.Ok?)
                  && (run.Err? ==> out == Outcome(VNone, "", Some(run.error)))
                  && (run.Ok? ==> out.result == run.value.result && |out.stdout| <= StdoutCap &&
                                  out.stdout == run.value.stdout[..|out.stdout|]))
  {
  }
}
