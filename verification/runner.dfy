/** One worker: dispatch on a task's type tag, normalisation of a handler's
    return value, and one iteration of the poll loop (claim, announce,
    run the handler, record success or failure). Every call that can raise
    is given its outcome as an input, so each path through the loop's
    try/except is a choice of inputs. */
module Runner {
  import opened Wrappers
  import opened Json
  import opened Tasks
  import Writer

  /** The four handlers the worker knows. */
  datatype Handler = ToolCall | RepoChange | DocBuild | PatchApplyTask

  /** The type tag that routes to each handler. */
  function TagOf(h: Handler): string {
    match h
    case ToolCall => "tool.call"
    case RepoChange => "repo.change"
    case DocBuild => "doc.build"
    case PatchApplyTask => "patch.apply"
  }

  /** `_dispatch_task`: the handler for a known tag; a ValueError otherwise. */
  function Dispatch(taskType: string): (r: Result<Handler, Exception>)
    ensures r.Ok? <==> taskType in {"tool.call", "repo.change", "doc.build", "patch.apply"}
    ensures r.Ok? ==> TagOf(r.value) == taskType
    ensures r.Err? ==> r.error == Exception("ValueError", "unknown task type: " + taskType)
  {
    if taskType == "tool.call" then Ok(ToolCall)
    else if taskType == "repo.change" then Ok(RepoChange)
    else if taskType == "doc.build" then Ok(DocBuild)
    else if taskType == "patch.apply" then Ok(PatchApplyTask)
    else Err(Exception("ValueError", "unknown task type: " + taskType))
  }

  /** Dispatch and `TagOf` are inverse: each handler is reached by exactly its own tag. */
  lemma DispatchRoutesExactly(h: Handler, taskType: string)
    ensures Dispatch(TagOf(h)) == Ok(h)
    ensures Dispatch(taskType) == Ok(h) <==> taskType == TagOf(h)
  {
  }

  /** `_normalize_result` for the JSON-shaped values a handler returns:
      None gives `{}`, a dict is kept, anything else is wrapped as `{"value": obj}`. */
  function NormalizeResult(v: Json): (r: Object)
    ensures v.JNull? ==> r == map[]
    ensures v.JObject? ==> r == v.fields
    ensures !v.JNull? && !v.JObject? ==> r.Keys == {"value"} && r["value"] == v
  {
    match v
    case JNull => map[]
    case JObject(m) => m
    case _ => map["value" := v]
  }

  /** Normalising an already normalised result changes nothing. */
  lemma NormalizeIdempotent(v: Json)
    ensures NormalizeResult(JObject(NormalizeResult(v))) == NormalizeResult(v)
  {
  }

  /** The stored success result `{"ok": True, "kind": task_type, "took_ms": took_ms, **result_payload}`. */
  function SuccessResult(taskType: string, tookMs: int, payload: Object): (r: Object)
    ensures r.Keys == payload.Keys + {"ok", "kind", "took_ms"}
    ensures forall k :: k in payload ==> r[k] == payload[k]
    ensures "ok" !in payload ==> r["ok"] == JBool(true)
    ensures "kind" !in payload ==> r["kind"] == JString(taskType)
    ensures "took_ms" !in payload ==> r["took_ms"] == JInt(tookMs)
  {
    Spread(map["ok" := JBool(true), "kind" := JString(taskType), "took_ms" := JInt(tookMs)], payload)
  }

  // ---- The finding: the runner's reading of max_attempts ----

  /** `int(task.get("max_attempts") or 3)` as written, where `stored` is the
      value under the key (None when it is missing or null). A missing value
      and a stored 0 are both falsy, so both read as 3. */
  function RunnerMaxAttemptsAsWritten(stored: Option<int>): (r: int)
    ensures stored.None? || stored == Some(0) ==> r == 3
    ensures stored.Some? && stored.value != 0 ==> r == stored.value
  {
    match stored
    case None => 3
    case Some(v) => if v == 0 then 3 else v
  }

  /** The evidently intended reading: the default 3 applies only when no value
      is stored; a stored value, 0 included, is taken as the cap. */
  function RunnerMaxAttempts(stored: Option<int>): (r: int)
    ensures stored.Some? ==> r == stored.value
    ensures stored.None? ==> r == 3
  {
    stored.GetOr(3)
  }

  /** The two readings part ways on a stored 0 and nowhere else. */
  lemma ReadingsDifferOnlyAtZero(stored: Option<int>)
    ensures RunnerMaxAttemptsAsWritten(stored) != RunnerMaxAttempts(stored) <==> stored == Some(0)
  {
  }

  /** Which reading of a claimed row's `max_attempts` an iteration uses: the
      cap as the code reads it, or the evidently intended one. The claimed row always
      carries the column, so the value is present. */
  datatype Reading = AsWritten | Intended {
    function MaxAttempts(stored: int): int {
      match this
      case AsWritten => RunnerMaxAttemptsAsWritten(Some(stored))
      case Intended => RunnerMaxAttempts(Some(stored))
    }
  }

  const RetryableLabel: string := "task.failed"
  const TerminalLabel: string := "task.permanently_failed"

  /** The failure event's type: terminal once attempts reach the cap, retryable before. */
  function FailureLabel(attempts: int, maxAttempts: int): (r: string)
    ensures r == TerminalLabel <==> attempts >= maxAttempts
    ensures r == RetryableLabel <==> attempts < maxAttempts
  {
    if attempts >= maxAttempts then TerminalLabel else RetryableLabel
  }

  /** As written, a row stored with `max_attempts = 0` is failed for good by the
      failure statement while the worker announces a retryable `task.failed`. */
  lemma AsWrittenLabelDisagreesAtZero(table: Table, id: TaskId, t: Task, error: string, now: int)
    requires table == map[id := t] && t.status == Running && t.attempts == 1 && t.maxAttempts == 0
    ensures CompleteFailure(table, id, error, now, 1)[id].status == Failed
    ensures FailureLabel(t.attempts, RunnerMaxAttemptsAsWritten(Some(t.maxAttempts))) == RetryableLabel
  {
  }

  /** As written, the label agrees with the stored status except on a row
      stored with cap 0 that has made fewer than three attempts. */
  lemma AsWrittenLabelAgreement(table: Table, id: TaskId, error: string, now: int, backoffS: int)
    requires id in table
    ensures var t := table[id];
      (FailureLabel(t.attempts, AsWritten.MaxAttempts(t.maxAttempts)) == TerminalLabel
       <==> CompleteFailure(table, id, error, now, backoffS)[id].status == Failed)
      <==> !(t.maxAttempts == 0 && 0 <= t.attempts < 3)
  {
  }

  /** With the intended reading, the label agrees with the status the failure
      statement stores, for every row. */
  lemma LabelAgreesWithStoredStatus(table: Table, id: TaskId, error: string, now: int, backoffS: int)
    requires id in table
    ensures var t := table[id];
      FailureLabel(t.attempts, Intended.MaxAttempts(t.maxAttempts)) == TerminalLabel
      <==> CompleteFailure(table, id, error, now, backoffS)[id].status == Failed
  {
  }

  // ---- One iteration of the poll loop ----

  /** `task.get("payload") or {}`, then `json.loads` unless it is a dict.
      `parsed` is what `json.loads` gives for a string payload (None when it
      raises); `json.loads` of a list, number or `true` raises a TypeError. */
  function DecodePayload(raw: Json, parsed: Option<Json>): (r: Result<Json, Exception>)
    ensures !Truthy(raw) ==> r == Ok(JObject(map[]))
    ensures Truthy(raw) && raw.JObject? ==> r == Ok(raw)
    ensures Truthy(raw) && raw.JString? && parsed.Some? ==> r == Ok(parsed.value)
    ensures Truthy(raw) && raw.JString? && parsed.None? ==> r.Err? && r.error.name == "JSONDecodeError"
    ensures Truthy(raw) && !raw.JObject? && !raw.JString? ==> r.Err? && r.error.name == "TypeError"
    ensures r.Ok? && Truthy(raw) && !raw.JObject? ==> raw.JString? && parsed == Some(r.value)
  {
    if !Truthy(raw) then Ok(JObject(map[]))
    else match raw
      case JObject(_) => Ok(raw)
      case JString(_) =>
        (match parsed
         case Some(v) => Ok(v)
         case None => Err(Exception("JSONDecodeError", "invalid JSON payload")))
      case _ => Err(Exception("TypeError", "the JSON object must be str, bytes or bytearray"))
  }

  /** A call the worker makes during an iteration, in order. */
  datatype Call =
    | Sleep(seconds: int)
    | WriteEvent(event: Object)
    | RunHandler(handler: Handler, id: TaskId, payload: Json)
    | WriteSuccess(id: TaskId, result: Object)
    | WriteFailure(id: TaskId, error: string)

  /** What a handler did: returned a value or raised. */
  datatype HandlerOutcome = Returned(value: Json) | Raised(exception: Exception)

  /** Which of the iteration's writes raise, and with what. A write that raises
      changes nothing. */
  datatype Faults = Faults(
    claimedEvent: Option<Exception>,
    startEvent: Option<Exception>,
    successWrite: Option<Exception>,
    resultEvent: Option<Exception>,
    failureWrite: Option<Exception>,
    failedEvent: Option<Exception>)

  datatype Config = Config(worker: WorkerId, pollS: int, lockS: int)

  /** The iteration's view of the outside world: the clock at claim and at
      completion, the ISO timestamp and elapsed milliseconds it records, the
      order the database visits rows, the parse of a string payload, and which
      writes raise. */
  datatype World = World(claimNow: int, finishNow: int, ts: string, tookMs: int,
                         scan: seq<TaskId>, payloadParse: Option<Json>, faults: Faults)

  /** The state after an iteration, the calls made, and whether an exception
      escaped the loop body (ending the worker process). */
  datatype Iteration = Iteration(table: Table, calls: seq<Call>, crashed: bool)

  /** The backoff the worker passes to `complete_task_failure` (its default). */
  const RetryBackoffS: int := 1

  const ClaimedKeys: set<string> := {"type", "ts", "task_id", "task_type", "worker_id", "attempts", "max_attempts", "run_id"}
  const FailedKeys: set<string> := {"type", "ts", "task_id", "run_id", "error", "took_ms", "attempts", "max_attempts"}

  /** The `task.claimed` announcement: who claimed which task, on which attempt of how many. */
  function ClaimedEvent(id: TaskId, taskType: string, worker: WorkerId, attempts: int, maxAttempts: int, ts: string): (r: Object)
    ensures WorkerEvent(r) && r.Keys == ClaimedKeys
    ensures r["type"] == JString("task.claimed") && r["run_id"] == JNull
    ensures r["task_id"] == JString(id) && r["task_type"] == JString(taskType) && r["worker_id"] == JString(worker)
    ensures r["attempts"] == JInt(attempts) && r["max_attempts"] == JInt(maxAttempts)
  {
    map["type" := JString("task.claimed"), "ts" := JString(ts), "task_id" := JString(id),
        "task_type" := JString(taskType), "worker_id" := JString(worker), "attempts" := JInt(attempts),
        "max_attempts" := JInt(maxAttempts), "run_id" := JNull]
  }

  /** The start event: typed by the task's own tag, carrying the decoded payload. */
  function StartEvent(id: TaskId, taskType: string, payload: Json, ts: string): (r: Object)
    ensures WorkerEvent(r) && r.Keys == {"type", "ts", "task_id", "run_id", "data"}
    ensures r["type"] == JString(taskType) && r["task_id"] == JString(id) && r["data"] == payload
  {
    map["type" := JString(taskType), "ts" := JString(ts), "task_id" := JString(id), "run_id" := JNull, "data" := payload]
  }

  /** The result event `<tag>.result`: its data repeats the stored result. */
  function ResultEvent(id: TaskId, taskType: string, tookMs: int, result: Object, ts: string): (r: Object)
    ensures WorkerEvent(r) && r.Keys == {"type", "ts", "task_id", "run_id", "data"}
    ensures r["type"] == JString(taskType + ".result") && r["task_id"] == JString(id)
    ensures r["data"].JObject? && r["data"].fields.Keys == {"ok", "took_ms", "result"}
    ensures r["data"].fields["ok"] == JBool(true) && r["data"].fields["result"] == JObject(result)
  {
    map["type" := JString(taskType + ".result"), "ts" := JString(ts), "task_id" := JString(id), "run_id" := JNull,
        "data" := JObject(map["ok" := JBool(true), "took_ms" := JInt(tookMs), "result" := JObject(result)])]
  }

  /** The failure event: terminal exactly when the attempts have reached the cap it reports. */
  function FailedEvent(id: TaskId, error: string, tookMs: int, attempts: int, maxAttempts: int, ts: string): (r: Object)
    ensures WorkerEvent(r) && r.Keys == FailedKeys
    ensures r["type"] == JString(TerminalLabel) <==> attempts >= maxAttempts
    ensures r["type"] == JString(RetryableLabel) <==> attempts < maxAttempts
    ensures r["error"] == JString(error) && r["task_id"] == JString(id)
    ensures r["attempts"] == JInt(attempts) && r["max_attempts"] == JInt(maxAttempts)
  {
    map["type" := JString(FailureLabel(attempts, maxAttempts)), "ts" := JString(ts), "task_id" := JString(id),
        "run_id" := JNull, "error" := JString(error), "took_ms" := JInt(tookMs),
        "attempts" := JInt(attempts), "max_attempts" := JInt(maxAttempts)]
  }

  /** How many `complete_task_success` calls `calls` holds. */
  function SuccessWrites(calls: seq<Call>): nat {
    if calls == [] then 0 else (if calls[0].WriteSuccess? then 1 else 0) + SuccessWrites(calls[1..])
  }

  /** How many `complete_task_failure` calls `calls` holds. */
  function FailureWrites(calls: seq<Call>): nat {
    if calls == [] then 0 else (if calls[0].WriteFailure? then 1 else 0) + FailureWrites(calls[1..])
  }

  lemma {:induction false} WritesAppend(xs: seq<Call>, ys: seq<Call>)
    ensures SuccessWrites(xs + ys) == SuccessWrites(xs) + SuccessWrites(ys)
    ensures FailureWrites(xs + ys) == FailureWrites(xs) + FailureWrites(ys)
    decreases |xs|
  {
    if xs == [] {
      assert xs + ys == ys;
    } else {
      assert (xs + ys)[0] == xs[0];
      assert (xs + ys)[1..] == xs[1..] + ys;
      WritesAppend(xs[1..], ys);
    }
  }

  /** Every task write in `calls` is about `id`. */
  predicate WritesOnly(calls: seq<Call>, id: TaskId) {
    forall i :: 0 <= i < |calls| ==> (calls[i].WriteSuccess? || calls[i].WriteFailure?) ==> calls[i].id == id
  }

  /** Both call-list invariants survive concatenation. */
  lemma CallsAppend(xs: seq<Call>, ys: seq<Call>, id: TaskId)
    requires WritesOnly(xs, id) && WorkerEventsOnly(xs)
    requires WritesOnly(ys, id) && WorkerEventsOnly(ys)
    ensures WritesOnly(xs + ys, id) && WorkerEventsOnly(xs + ys)
  {
    forall i | |xs| <= i < |xs + ys| ensures (xs + ys)[i] == ys[i - |xs|] { }
  }

  /** The handler is reached and returns: the start event is written, the tag
      is known and the handler does not raise. */
  predicate HandlerReturns(taskType: string, id: TaskId, payload: Json, world: World,
                           handle: (Handler, TaskId, Json) -> HandlerOutcome) {
    && world.faults.startEvent.None?
    && Dispatch(taskType).Ok?
    && handle(Dispatch(taskType).value, id, payload).Returned?
  }

  /** Nothing in the `try` block raises: the handler returns, and both the
      success write and the result event go through. */
  predicate TryCompletes(taskType: string, id: TaskId, payload: Json, world: World,
                         handle: (Handler, TaskId, Json) -> HandlerOutcome) {
    && HandlerReturns(taskType, id, payload, world, handle)
    && world.faults.successWrite.None?
    && world.faults.resultEvent.None?
  }

  /** The result the worker stores for a handler that returned. */
  function StoredResult(taskType: string, id: TaskId, payload: Json, world: World,
                        handle: (Handler, TaskId, Json) -> HandlerOutcome): Object
    requires HandlerReturns(taskType, id, payload, world, handle)
  {
    SuccessResult(taskType, world.tookMs, NormalizeResult(handle(Dispatch(taskType).value, id, payload).value))
  }

  /** Counting the writes along the paths that stop at or before the handler. */
  lemma ShortPathCounts(a: Call, b: Call)
    requires a.WriteEvent? && b.RunHandler?
    ensures SuccessWrites([a]) == 0 && FailureWrites([a]) == 0
    ensures SuccessWrites([a, b]) == 0 && FailureWrites([a, b]) == 0
  {
    assert [a][1..] == [] && [b][1..] == [] && [a, b][1..] == [b];
  }

  /** Counting the writes along the handler's success path, one call at a time. */
  lemma SuccessPathCounts(a: Call, b: Call, c: Call, d: Call)
    requires a.WriteEvent? && b.RunHandler? && c.WriteSuccess? && d.WriteEvent?
    ensures SuccessWrites([a, b, c]) == 1 && FailureWrites([a, b, c]) == 0
    ensures SuccessWrites([a, b, c, d]) == 1 && FailureWrites([a, b, c, d]) == 0
  {
    assert [d][1..] == [] && [c][1..] == [];
    assert SuccessWrites([d]) == 0 && FailureWrites([d]) == 0;
    assert SuccessWrites([c]) == 1 && FailureWrites([c]) == 0;
    assert [c, d][1..] == [d] && [b, c][1..] == [c];
    assert SuccessWrites([c, d]) == 1 && FailureWrites([c, d]) == 0;
    assert [b, c, d][1..] == [c, d];
    assert SuccessWrites([b, c, d]) == 1 && FailureWrites([b, c, d]) == 0;
    assert SuccessWrites([b, c]) == 1 && FailureWrites([b, c]) == 0;
    assert [a, b, c, d][1..] == [b, c, d] && [a, b, c][1..] == [b, c];
  }

  /** What the `try` block left behind: the table, the calls made, and the
      exception that ended it early, if any. */
  datatype TryOutcome = TryOutcome(table: Table, calls: seq<Call>, raised: Option<Exception>)

  /** The rest of the `try` block once the handler returned `v`: the success
      write and the result event, after the `start` and `invoke` calls. */
  function AfterReturn(table: Table, id: TaskId, taskType: string, start: Call, invoke: Call, v: Json, world: World): (r: TryOutcome)
    requires start.WriteEvent? && WorkerEvent(start.event) && invoke.RunHandler?
    ensures r.raised.None? <==> world.faults.successWrite.None? && world.faults.resultEvent.None?
    ensures SuccessWrites(r.calls) == 1 && FailureWrites(r.calls) == 0
    ensures WritesOnly(r.calls, id) && WorkerEventsOnly(r.calls)
    ensures world.faults.successWrite.None? ==>
      r.table == CompleteSuccess(table, id, JObject(SuccessResult(taskType, world.tookMs, NormalizeResult(v))), world.finishNow)
    ensures world.faults.successWrite.Some? ==> r.table == table
    ensures world.faults.successWrite.None? ==>
      r.calls[|r.calls| - 1] == WriteEvent(ResultEvent(id, taskType, world.tookMs, SuccessResult(taskType, world.tookMs, NormalizeResult(v)), world.ts))
  {
    var result := SuccessResult(taskType, world.tookMs, NormalizeResult(v));
    var ev := WriteEvent(ResultEvent(id, taskType, world.tookMs, result, world.ts));
    SuccessPathCounts(start, invoke, WriteSuccess(id, result), ev);
    if world.faults.successWrite.Some? then
      TryOutcome(table, [start, invoke, WriteSuccess(id, result)], world.faults.successWrite)
    else
      TryOutcome(CompleteSuccess(table, id, JObject(result), world.finishNow), [start, invoke, WriteSuccess(id, result), ev],
                 world.faults.resultEvent)
  }

  /** The `try` block: start event, dispatch, handler, success write, result event. */
  function TryBlock(table: Table, id: TaskId, taskType: string, payload: Json, world: World,
                    handle: (Handler, TaskId, Json) -> HandlerOutcome): (r: TryOutcome)
    ensures r.raised.None? <==> TryCompletes(taskType, id, payload, world, handle)
    ensures SuccessWrites(r.calls) == (if HandlerReturns(taskType, id, payload, world, handle) then 1 else 0)
    ensures FailureWrites(r.calls) == 0 && WritesOnly(r.calls, id) && WorkerEventsOnly(r.calls)
    ensures HandlerReturns(taskType, id, payload, world, handle) && world.faults.successWrite.None? ==>
      r.table == CompleteSuccess(table, id, JObject(StoredResult(taskType, id, payload, world, handle)), world.finishNow)
    ensures !(HandlerReturns(taskType, id, payload, world, handle) && world.faults.successWrite.None?) ==>
      r.table == table
    ensures TryCompletes(taskType, id, payload, world, handle) ==>
      |r.calls| > 0 && r.calls[|r.calls| - 1] == WriteEvent(ResultEvent(id, taskType, world.tookMs,
                                                              StoredResult(taskType, id, payload, world, handle), world.ts))
  {
    var start := WriteEvent(StartEvent(id, taskType, payload, world.ts));
    ShortPathCounts(start, RunHandler(ToolCall, id, payload));
    if world.faults.startEvent.Some? then TryOutcome(table, [start], world.faults.startEvent)
    else match Dispatch(taskType)
      case Err(e) => TryOutcome(table, [start], Some(e))
      case Ok(h) =>
        ShortPathCounts(start, RunHandler(h, id, payload));
        match handle(h, id, payload)
        case Raised(e) => TryOutcome(table, [start, RunHandler(h, id, payload)], Some(e))
        case Returned(v) => AfterReturn(table, id, taskType, start, RunHandler(h, id, payload), v, world)
  }

  /** The shape of every event the worker writes: it names its type and leaves
      `source` to the writer. */
  predicate WorkerEvent(ev: Object) {
    "type" in ev && "source" !in ev
  }

  /** Every event written in `calls` is a worker event. */
  predicate WorkerEventsOnly(calls: seq<Call>) {
    forall i :: 0 <= i < |calls| ==> calls[i].WriteEvent? ==> WorkerEvent(calls[i].event)
  }

  /** The `except` block after the `try` block raised `e` with `calls` made so
      far: record the failure, then announce it. */
  function ExceptBlock(table: Table, id: TaskId, calls: seq<Call>, e: Exception, attempts: int, maxAttempts: int,
                       world: World): (r: Iteration)
    requires WritesOnly(calls, id) && WorkerEventsOnly(calls)
    ensures SuccessWrites(r.calls) == SuccessWrites(calls)
    ensures FailureWrites(r.calls) == FailureWrites(calls) + 1
    ensures WritesOnly(r.calls, id) && WorkerEventsOnly(r.calls)
    ensures world.faults.failureWrite.Some? ==> r.table == table && r.crashed
    ensures world.faults.failureWrite.None? ==>
      && r.table == CompleteFailure(table, id, Describe(e), world.finishNow, RetryBackoffS)
      && r.calls[|r.calls| - 1] == WriteEvent(FailedEvent(id, Describe(e), world.tookMs, attempts, maxAttempts, world.ts))
  {
    var err := Describe(e);
    var failing := calls + [WriteFailure(id, err)];
    WritesAppend(calls, [WriteFailure(id, err)]);
    CallsAppend(calls, [WriteFailure(id, err)], id);
    if world.faults.failureWrite.Some? then Iteration(table, failing, true)
    else
      var table' := CompleteFailure(table, id, err, world.finishNow, RetryBackoffS);
      var event := WriteEvent(FailedEvent(id, err, world.tookMs, attempts, maxAttempts, world.ts));
      WritesAppend(failing, [event]);
      CallsAppend(failing, [event], id);
      Iteration(table', failing + [event], world.faults.failedEvent.Some?)
  }

  /** The claimed row's payload decodes and the claim is announced, so the
      `try` block runs. */
  predicate Entered(table: Table, id: TaskId, world: World)
    requires id in table
  {
    DecodePayload(table[id].payload, world.payloadParse).Ok? && world.faults.claimedEvent.None?
  }

  /** The `try` block run on the claimed row once it is entered. */
  function Attempt(table: Table, id: TaskId, world: World, handle: (Handler, TaskId, Json) -> HandlerOutcome): TryOutcome
    requires id in table && Entered(table, id, world)
  {
    TryBlock(table, id, table[id].taskType, DecodePayload(table[id].payload, world.payloadParse).value, world, handle)
  }

  /** The calls of an iteration that announced its claim with `announce` and
      ran its `try` block to `t`: done if nothing raised, else the `except` block. */
  function Settle(id: TaskId, announce: Call, t: TryOutcome, attempts: int, maxAttempts: int, world: World): (r: Iteration)
    requires announce.WriteEvent? && WorkerEvent(announce.event)
    requires WritesOnly(t.calls, id) && WorkerEventsOnly(t.calls) && FailureWrites(t.calls) == 0
    ensures WritesOnly(r.calls, id) && WorkerEventsOnly(r.calls)
    ensures |r.calls| > 0 && r.calls[0] == announce
    ensures SuccessWrites(r.calls) == SuccessWrites(t.calls)
    ensures FailureWrites(r.calls) == (if t.raised.None? then 0 else 1)
    ensures t.raised.None? ==> !r.crashed && r.table == t.table && r.calls[1..] == t.calls
    ensures t.raised.Some? && world.faults.failureWrite.Some? ==> r.table == t.table && r.crashed
    ensures t.raised.Some? && world.faults.failureWrite.None? ==>
      && r.table == CompleteFailure(t.table, id, Describe(t.raised.value), world.finishNow, RetryBackoffS)
      && r.calls[|r.calls| - 1] == WriteEvent(FailedEvent(id, Describe(t.raised.value), world.tookMs, attempts, maxAttempts, world.ts))
  {
    WritesAppend([announce], t.calls);
    CallsAppend([announce], t.calls, id);
    var calls := [announce] + t.calls;
    assert calls[0] == announce && calls[1..] == t.calls;
    assert SuccessWrites([announce]) == 0 && FailureWrites([announce]) == 0 by {
      assert [announce][1..] == [];
    }
    match t.raised
    case None => Iteration(t.table, calls, false)
    case Some(e) => ExceptBlock(t.table, id, calls, e, attempts, maxAttempts, world)
  }

  /** The announced claim's `try` block and, if it raised, the `except` block. */
  function Proceed(reading: Reading, table: Table, id: TaskId, cfg: Config, world: World,
                   handle: (Handler, TaskId, Json) -> HandlerOutcome): (r: Iteration)
    requires id in table && Entered(table, id, world)
    ensures WritesOnly(r.calls, id) && WorkerEventsOnly(r.calls)
    ensures |r.calls| > 0 && r.calls[0] == WriteEvent(ClaimedEvent(id, table[id].taskType, cfg.worker, table[id].attempts,
                                                                    reading.MaxAttempts(table[id].maxAttempts), world.ts))
    ensures var t := Attempt(table, id, world, handle);
      && SuccessWrites(r.calls) == SuccessWrites(t.calls)
      && FailureWrites(r.calls) == (if t.raised.None? then 0 else 1)
      && (t.raised.None? ==> !r.crashed && r.table == t.table && r.calls[1..] == t.calls)
      && (t.raised.Some? && world.faults.failureWrite.Some? ==> r.table == t.table && r.crashed)
      && (t.raised.Some? && world.faults.failureWrite.None? ==>
            && r.table == CompleteFailure(t.table, id, Describe(t.raised.value), world.finishNow, RetryBackoffS)
            && r.calls[|r.calls| - 1] == WriteEvent(FailedEvent(id, Describe(t.raised.value), world.tookMs,
                 table[id].attempts, reading.MaxAttempts(table[id].maxAttempts), world.ts)))
  {
    var row := table[id];
    var maxAttempts := reading.MaxAttempts(row.maxAttempts);
    var announce := WriteEvent(ClaimedEvent(id, row.taskType, cfg.worker, row.attempts, maxAttempts, world.ts));
    Settle(id, announce, Attempt(table, id, world, handle), row.attempts, maxAttempts, world)
  }

  /** Everything after `claim_task` returned the row `id` (already marked running in `table`). */
  function HandleClaimed(reading: Reading, table: Table, id: TaskId, cfg: Config, world: World,
                         handle: (Handler, TaskId, Json) -> HandlerOutcome): (r: Iteration)
    requires id in table
    ensures r.table.Keys == table.Keys
    ensures forall other :: other in table && other != id ==> r.table[other] == table[other]
    ensures id in r.table && r.table[id].attempts == table[id].attempts && r.table[id].maxAttempts == table[id].maxAttempts
    ensures WritesOnly(r.calls, id) && SuccessWrites(r.calls) <= 1 && WorkerEventsOnly(r.calls)
    ensures DecodePayload(table[id].payload, world.payloadParse).Err? ==> r == Iteration(table, [], true)
    ensures DecodePayload(table[id].payload, world.payloadParse).Ok? ==>
      |r.calls| > 0 && r.calls[0] == WriteEvent(ClaimedEvent(id, table[id].taskType, cfg.worker, table[id].attempts,
                                                             reading.MaxAttempts(table[id].maxAttempts), world.ts))
    ensures !Entered(table, id, world) ==> r.table == table && r.crashed
    ensures Entered(table, id, world) ==> r == Proceed(reading, table, id, cfg, world, handle)
  {
    if !Entered(table, id, world) then
      var announce := [WriteEvent(ClaimedEvent(id, table[id].taskType, cfg.worker, table[id].attempts,
                                               reading.MaxAttempts(table[id].maxAttempts), world.ts))];
      if DecodePayload(table[id].payload, world.payloadParse).Err? then Iteration(table, [], true)
      else Iteration(table, announce, true)
    else
      Proceed(reading, table, id, cfg, world, handle)
  }

  /** One pass of the `while True` loop in the worker's `main`, reading the
      claimed row's cap as `reading` says (`AsWritten` is the cap as the code reads it). */
  function Iterate(reading: Reading, table: Table, cfg: Config, world: World,
                   handle: (Handler, TaskId, Json) -> HandlerOutcome): (r: Iteration)
    ensures Claim(table, world.scan, cfg.worker, world.claimNow, cfg.lockS).claimed.None? ==>
      r == Iteration(table, [Sleep(cfg.pollS)], false)
    ensures Claim(table, world.scan, cfg.worker, world.claimNow, cfg.lockS).claimed.Some? ==>
      var c := Claim(table, world.scan, cfg.worker, world.claimNow, cfg.lockS);
      r == HandleClaimed(reading, c.table, c.claimed.value, cfg, world, handle)
    ensures r.table.Keys == table.Keys
    ensures WorkerEventsOnly(r.calls)
  {
    var c := Claim(table, world.scan, cfg.worker, world.claimNow, cfg.lockS);
    match c.claimed
    case None => Iteration(table, [Sleep(cfg.pollS)], false)
    case Some(id) => HandleClaimed(reading, c.table, id, cfg, world, handle)
  }

  /** A claim with nothing claimable leaves the table alone and only sleeps. */
  lemma EmptyClaimOnlySleeps(reading: Reading, table: Table, cfg: Config, world: World, handle: (Handler, TaskId, Json) -> HandlerOutcome)
    requires Covers(table, world.scan)
    ensures (forall id :: id in table ==> !Claimable(table[id], world.claimNow)) <==>
            Iterate(reading, table, cfg, world, handle) == Iteration(table, [Sleep(cfg.pollS)], false)
  {
    var c := Claim(table, world.scan, cfg.worker, world.claimNow, cfg.lockS);
    if c.claimed.Some? {
      var r := Iterate(reading, table, cfg, world, handle);
      assert r.crashed || (|r.calls| > 0 && r.calls[0].WriteEvent?);
    }
  }

  /** The iteration reaches its `try` block: a row is claimed, its payload
      decodes and the claim is announced. */
  predicate EntersTry(table: Table, cfg: Config, world: World) {
    var c := Claim(table, world.scan, cfg.worker, world.claimNow, cfg.lockS);
    && c.claimed.Some?
    && DecodePayload(c.table[c.claimed.value].payload, world.payloadParse).Ok?
    && world.faults.claimedEvent.None?
  }

  /** The id claimed by an iteration that reaches its `try` block. */
  function ClaimedId(table: Table, cfg: Config, world: World): (id: TaskId)
    requires EntersTry(table, cfg, world)
    ensures id in table
  {
    Claim(table, world.scan, cfg.worker, world.claimNow, cfg.lockS).claimed.value
  }

  /** The payload handed to the handler by an iteration that reaches its `try` block. */
  function ClaimedPayload(table: Table, cfg: Config, world: World): Json
    requires EntersTry(table, cfg, world)
  {
    var c := Claim(table, world.scan, cfg.worker, world.claimNow, cfg.lockS);
    DecodePayload(c.table[c.claimed.value].payload, world.payloadParse).value
  }

  /** A claimed row whose payload cannot be decoded ends the worker before the
      claim is announced: nothing is written and the row stays running, owned
      by this worker, with its attempt already counted. */
  lemma UndecodablePayloadStrandsRow(reading: Reading, table: Table, cfg: Config, world: World,
                                     handle: (Handler, TaskId, Json) -> HandlerOutcome)
    requires var c := Claim(table, world.scan, cfg.worker, world.claimNow, cfg.lockS);
      c.claimed.Some? && DecodePayload(c.table[c.claimed.value].payload, world.payloadParse).Err?
    ensures var r := Iterate(reading, table, cfg, world, handle);
      var id := Claim(table, world.scan, cfg.worker, world.claimNow, cfg.lockS).claimed.value;
      && r.crashed && r.calls == []
      && r.table[id].status == Running && r.table[id].lockedBy == Some(cfg.worker)
      && r.table[id].attempts == table[id].attempts + 1
  {
  }

  /** The announcement of a claim sits outside the `try`: when its event write
      raises, the worker ends after that one call, with no handler run and the
      row left running under this worker's lock. The memory writer as it stands
      raises on every event (it hands a dict to `event_to_content`), so this is
      the fate of every claimed row with a decodable payload. */
  lemma FailingAnnouncementStrandsRow(reading: Reading, table: Table, cfg: Config, world: World,
                                      handle: (Handler, TaskId, Json) -> HandlerOutcome)
    requires var c := Claim(table, world.scan, cfg.worker, world.claimNow, cfg.lockS);
      c.claimed.Some? && DecodePayload(c.table[c.claimed.value].payload, world.payloadParse).Ok?
    requires world.faults.claimedEvent.Some?
    ensures var r := Iterate(reading, table, cfg, world, handle);
      var id := Claim(table, world.scan, cfg.worker, world.claimNow, cfg.lockS).claimed.value;
      && r.crashed && |r.calls| == 1 && r.calls[0].WriteEvent?
      && SuccessWrites(r.calls) == 0 && FailureWrites(r.calls) == 0
      && r.table[id].status == Running && r.table[id].lockedBy == Some(cfg.worker)
      && r.table[id].attempts == table[id].attempts + 1
  {
    var c := Claim(table, world.scan, cfg.worker, world.claimNow, cfg.lockS);
    var id := c.claimed.value;
    var r := HandleClaimed(reading, c.table, id, cfg, world, handle);
    assert !Entered(c.table, id, world);
    assert r.calls[1..] == [];
  }

  /** Once inside the `try` block, any exception there leads to exactly one
      `complete_task_failure` for the claimed row, and none otherwise; there is
      at most one success write, and no write touches another row. */
  lemma ExceptionInTryFailsOnce(reading: Reading, table: Table, cfg: Config, world: World, handle: (Handler, TaskId, Json) -> HandlerOutcome)
    requires EntersTry(table, cfg, world)
    ensures var r := Iterate(reading, table, cfg, world, handle);
      var id := ClaimedId(table, cfg, world);
      var completes := TryCompletes(table[id].taskType, id, ClaimedPayload(table, cfg, world), world, handle);
      && WritesOnly(r.calls, id)
      && SuccessWrites(r.calls) <= 1
      && FailureWrites(r.calls) == (if completes then 0 else 1)
      && (completes ==> !r.crashed)
  {
  }

  /** When nothing in the `try` block raises, the claimed row ends succeeded
      with the merged result, one attempt more than before, and unowned; no
      other row changes. */
  lemma SuccessStored(reading: Reading, table: Table, cfg: Config, world: World, handle: (Handler, TaskId, Json) -> HandlerOutcome)
    requires EntersTry(table, cfg, world)
    requires var id := ClaimedId(table, cfg, world);
      TryCompletes(table[id].taskType, id, ClaimedPayload(table, cfg, world), world, handle)
    ensures var r := Iterate(reading, table, cfg, world, handle);
      var id := ClaimedId(table, cfg, world);
      var v := handle(Dispatch(table[id].taskType).value, id, ClaimedPayload(table, cfg, world)).value;
      && !r.crashed
      && r.table.Keys == table.Keys
      && (forall other :: other in table && other != id ==> r.table[other] == table[other])
      && r.table[id].status == Succeeded
      && r.table[id].result == Some(JObject(SuccessResult(table[id].taskType, world.tookMs, NormalizeResult(v))))
      && r.table[id].attempts == table[id].attempts + 1
      && r.table[id].lastError.None? && r.table[id].lockedBy.None?
      && |r.calls| > 0 && r.calls[|r.calls| - 1].WriteEvent?
      && var ev := r.calls[|r.calls| - 1].event;
      && "data" in ev && ev["data"].JObject? && "result" in ev["data"].fields
      && ev["data"].fields["result"] == r.table[id].result.value
  {
  }

  /** When the `try` block raises and the failure write goes through, the
      failure event's label is terminal exactly when the stored status is
      failed, provided the cap is read as intended or is not 0 (see
      `AsWrittenZeroCapMislabels` for the as-written reading at 0); the row is
      failed or re-queued one second later, and records the error. */
  lemma FailureLabelMatchesStoredStatus(reading: Reading, table: Table, cfg: Config, world: World, handle: (Handler, TaskId, Json) -> HandlerOutcome)
    requires EntersTry(table, cfg, world)
    requires var id := ClaimedId(table, cfg, world);
      !TryCompletes(table[id].taskType, id, ClaimedPayload(table, cfg, world), world, handle)
    requires world.faults.failureWrite.None?
    requires reading == Intended || table[ClaimedId(table, cfg, world)].maxAttempts != 0
    ensures var r := Iterate(reading, table, cfg, world, handle);
      var id := ClaimedId(table, cfg, world);
      && |r.calls| > 0 && r.calls[|r.calls| - 1].WriteEvent?
      && var ev := r.calls[|r.calls| - 1].event;
      && "type" in ev
      && (ev["type"] == JString(TerminalLabel) <==> r.table[id].status == Failed)
      && (r.table[id].status == Failed || (r.table[id].status == Queued && r.table[id].availableAt == RetryAt(world.finishNow, 1)))
      && r.table[id].attempts == table[id].attempts + 1
      && r.table[id].lastError.Some?
      && r.table[id].lockedBy.None?
  {
  }

  /** The cap read as written, on a row stored with `max_attempts = 0` and no
      attempts yet, with the event writes succeeding: the claim announces a
      cap of 3, the failure statement fails the row for good, and the worker
      still labels it retryable. As the memory writer stands, the claim
      announcement raises first (`FailingAnnouncementStrandsRow`). */
  lemma AsWrittenZeroCapMislabels(table: Table, cfg: Config, world: World, handle: (Handler, TaskId, Json) -> HandlerOutcome)
    requires EntersTry(table, cfg, world)
    requires var id := ClaimedId(table, cfg, world);
      && !TryCompletes(table[id].taskType, id, ClaimedPayload(table, cfg, world), world, handle)
      && table[id].maxAttempts == 0 && table[id].attempts == 0
    requires world.faults.failureWrite.None?
    ensures var r := Iterate(AsWritten, table, cfg, world, handle);
      var id := ClaimedId(table, cfg, world);
      && |r.calls| > 0 && r.calls[0].WriteEvent? && r.calls[|r.calls| - 1].WriteEvent?
      && "max_attempts" in r.calls[0].event && r.calls[0].event["max_attempts"] == JInt(3)
      && "type" in r.calls[|r.calls| - 1].event
      && r.calls[|r.calls| - 1].event["type"] == JString(RetryableLabel)
      && r.table[id].status == Failed
  {
  }

  /** A handler that returns, followed by a result event that raises, leaves
      the row failed or re-queued after it was marked succeeded: the failure
      statement does not look at the status it overwrites. */
  lemma ResultEventFailureOverwritesSuccess(reading: Reading, table: Table, cfg: Config, world: World, handle: (Handler, TaskId, Json) -> HandlerOutcome)
    requires EntersTry(table, cfg, world)
    requires var id := ClaimedId(table, cfg, world);
      && world.faults.startEvent.None? && Dispatch(table[id].taskType).Ok?
      && handle(Dispatch(table[id].taskType).value, id, ClaimedPayload(table, cfg, world)).Returned?
      && world.faults.successWrite.None? && world.faults.resultEvent.Some? && world.faults.failureWrite.None?
    ensures var r := Iterate(reading, table, cfg, world, handle);
      var id := ClaimedId(table, cfg, world);
      && SuccessWrites(r.calls) == 1 && FailureWrites(r.calls) == 1
      && r.table[id].status in {Queued, Failed}
      && r.table[id].result.Some?
  {
    ExceptionInTryFailsOnce(reading, table, cfg, world, handle);
  }

  /** Were its downstream call to succeed, the memory writer would record
      every worker event under source `"worker"` and, since the worker passes an empty tool, under the event's own type
      (taking the JSON round trip of the content as the identity). */
  lemma WorkerEventsRecordedUnderTheirType(reading: Reading, table: Table, cfg: Config, world: World,
                                           handle: (Handler, TaskId, Json) -> HandlerOutcome, content: string)
    ensures var r := Iterate(reading, table, cfg, world, handle);
      forall i :: 0 <= i < |r.calls| && r.calls[i].WriteEvent? ==>
        var ev := r.calls[i].event;
        && "type" in ev
        && Writer.WriteMemoryEvent("worker", Some(""), content, Some(JObject(ev))).1
           == Writer.Recorded(JString("worker"), Some(ev["type"]))
  {
  }
}
