# Task queue, worker loop and tool/event/artifact helpers — a Dafny model

This project models the core of a small AI-operator orchestrator. Its backbone
is a Postgres task queue. Workers claim queued tasks by priority, run a handler
chosen by the task's type tag, and record success or failure. Failure either
re-queues the task after a back-off or fails it for good once its attempts are
used up. The model also covers four pure helpers around the queue:

- the tool registry and its lightweight JSON-schema argument checker;
- the canonical event envelope and how the memory writer normalises it;
- the naming and record shape of patch/markdown artifacts;
- the outcome logic of applying a patch with `git`, and the report written
  about it.

How the pieces are modelled:

- The task table is a `map<TaskId, Task>`.
- Time is an integer number of seconds passed in as a parameter.
- Each SQL statement is one atomic transition. Row locking in the database is
  what makes that view sound.
- One pass of the worker's poll loop is a pure function.
  - Every write that can raise is given its outcome as an input (`Faults`).
  - The handlers are given as a function parameter.
  - So every path through the loop's `try`/`except` is a choice of inputs.
  - A `Reading` parameter says how the claimed row's `max_attempts` is read:
    `AsWritten` reads it as the code does, `Intended` as the one finding below
    corrects it.
  - The memory writer as it stands raises on every event: `write_event`
    hands its dict to `event_to_content`, which reads attributes. With that
    fault the loop ends at the claim announcement, outside the `try`
    (`Runner.FailingAnnouncementStrandsRow`). The lemmas that go past the
    announcement describe the loop with the event write repaired, which is
    the case a `Faults` input without an event fault selects.
- JSON values are a datatype (`Json`), and dicts are `map<string, Json>`.
- What each `git` command does (finishes with a return code and output, or
  times out), file digests and sizes, clock readings and
  the results of `json.loads` are all inputs.

Modules, one file each:

| file | module | models |
|---|---|---|
| `wrappers.dfy` | `Wrappers` | `Option`, `Result`, `Outcome`, Python exceptions |
| `json.dfy` | `Json` | JSON values, truthiness, `dict.get`, `{**a, **b}`, `setdefault` |
| `text.dfy` | `Text` | `str.strip`, `str.replace(" ", "_")`, `"\n".join` |
| `tasks.dfy` | `Tasks` | the three task-table statements |
| `task_traces.dfy` | `TaskTraces` | sequences of statements and the invariants they keep |
| `runner.dfy` | `Runner` | dispatch, result normalisation, one worker-loop iteration |
| `registry.dfy` | `Registry` | tool registry, argument validation, `ping` |
| `events.dfy` | `Events` | the event envelope and its two persisted forms |
| `writer.dfy` | `Writer` | `write_memory_event`'s normalisation and column choice |
| `artifacts.dfy` | `Artifacts` | patch/doc artifact validation, naming, meta, result |
| `patch_apply.dfy` | `PatchApply` | `apply_patch` outcome logic and the apply report |

## Model

| member | source | states |
|---|---|---|
| Tasks.PickCandidate | orchestrator/ai_operator/memory/tasks.py:28-36 | The candidate is a claimable row (queued, `available_at <= now`) that ranks no later under (`priority`, `created_at`) than every claimable row the scan visits. It is None only when the scan visits no claimable row. |
| Tasks.Claim | orchestrator/ai_operator/memory/tasks.py:17-56 | Returns None, with the table unchanged, exactly when no row is claimable. Otherwise the claimed row was claimable and is a minimum of the claimable rows. It becomes running, locked by the worker at `now` until `now + lock_s`, with `attempts` one higher and every other column kept. No other row changes. |
| Tasks.CompleteSuccess | orchestrator/ai_operator/memory/tasks.py:59-81 | Whatever the row's status or owner: status succeeded, result stored, `last_error` and the three lock columns cleared, `updated_at = now`. `attempts`, `max_attempts`, `priority`, `payload` and `available_at` are unchanged, as are all other rows. An unknown id changes nothing. |
| Tasks.RetryAt | orchestrator/ai_operator/memory/tasks.py:91 | The re-queue time is never before `now`, and is exactly `now + backoff` for a non-negative back-off. |
| Tasks.CompleteFailure | orchestrator/ai_operator/memory/tasks.py:84-117 | When `attempts >= max_attempts`: status failed, `available_at` kept. Otherwise: status queued, `available_at = now + max(0, backoff)`. Either way `last_error` is recorded, the lock columns are cleared and `attempts` is unchanged. No status or owner guard; other rows unchanged. |
| TaskTraces.StepPreservesLocksConsistent | orchestrator/ai_operator/memory/tasks.py:37-107 | Each of the three statements keeps every row's `locked_by`/`locked_at`/`lock_expires_at` all null or all set. |
| TaskTraces.RunPreservesLocksConsistent | orchestrator/ai_operator/memory/tasks.py:17-117 | Any sequence of the three statements keeps the lock triple consistent. |
| TaskTraces.StepPreservesQueuedHaveAttemptsLeft | orchestrator/ai_operator/memory/tasks.py:93-104 | If every queued row has `attempts < max_attempts`, each statement keeps that so. |
| TaskTraces.RunPreservesQueuedHaveAttemptsLeft | orchestrator/ai_operator/memory/tasks.py:17-117 | The same invariant holds after any sequence of statements. |
| TaskTraces.StepPreservesAttemptsBounded | orchestrator/ai_operator/memory/tasks.py:37-45 | With queued rows below their cap, no row's `attempts` exceeds `max_attempts`. Each statement keeps this, because the claim increments only queued rows. |
| TaskTraces.RunPreservesAttemptsBounded | orchestrator/ai_operator/memory/tasks.py:17-117 | The same bound holds after any sequence of statements. |
| TaskTraces.NotReclaimedWithoutFailure | orchestrator/ai_operator/memory/tasks.py:27-45 | A row that is not queued stays out of the queue, and no claim returns it, until a `complete_task_failure` on that row. |
| TaskTraces.ClaimedRowNotClaimedAgain | orchestrator/ai_operator/memory/tasks.py:27-45 | A row returned by one claim is returned by no later claim unless a failure statement on it comes in between. |
| TaskTraces.ExhaustedNeverClaimed | orchestrator/ai_operator/memory/tasks.py:93-104 | A row that is not queued and has `attempts >= max_attempts` stays so under every statement, and is never claimed. |
| TaskTraces.LowerPriorityValueClaimedFirst | orchestrator/ai_operator/memory/tasks.py:33 | Of two claimable rows, the one with the smaller `priority` value is claimed, in either scan order. |
| TaskTraces.RoundOnSingleRow | orchestrator/ai_operator/memory/tasks.py:84-111 | A claim/fail round on a row with an attempt left adds one attempt and records the error. The row is failed exactly when that was the last attempt; otherwise it is queued at `now + backoff`. |
| TaskTraces.ThreeFailedRoundsExhaust | orchestrator/ai_operator/memory/tasks.py:93-104 | With `max_attempts = 3`, three claim/fail rounds leave the row failed with `attempts = 3`. No later statement ever claims it. |
| Runner.Dispatch | orchestrator/ai_operator/worker/runner.py:84-101 | Succeeds exactly for the four tags `tool.call`, `repo.change`, `doc.build` and `patch.apply`, each routed to the handler carrying that tag. Any other tag raises `ValueError: unknown task type: <tag>`. |
| Runner.DispatchRoutesExactly | orchestrator/ai_operator/worker/runner.py:88-99 | Dispatch and the handler-to-tag map are inverse. Each handler is reached by its own tag and by no other. |
| Runner.NormalizeResult | orchestrator/ai_operator/worker/runner.py:47-51 | None normalises to `{}` and a dict is returned unchanged. Any other JSON value becomes `{"value": obj}`. |
| Runner.NormalizeIdempotent | orchestrator/ai_operator/worker/runner.py:37-81 | Normalising a normalised result changes nothing. |
| Runner.SuccessResult | orchestrator/ai_operator/worker/runner.py:177-185 | The stored result has the handler's keys plus `ok`, `kind` and `took_ms`. Handler keys win over those three; where absent they are `True`, the task type and the elapsed time. |
| Runner.RunnerMaxAttemptsAsWritten | orchestrator/ai_operator/worker/runner.py:129 | As written, a missing value and a stored `0` both read as 3, because both are falsy; any other stored value is taken as is. |
| Runner.RunnerMaxAttempts | orchestrator/ai_operator/worker/runner.py:129 | The corrected reading: 3 only when no value is stored; a stored value, 0 included, is the cap (see Findings). |
| Runner.ReadingsDifferOnlyAtZero | orchestrator/ai_operator/worker/runner.py:129 | The two readings disagree exactly on a stored `0`. |
| Runner.FailureLabel | orchestrator/ai_operator/worker/runner.py:216-226 | The label is `task.permanently_failed` exactly when `attempts >= max_attempts`, and `task.failed` exactly when not. |
| Runner.AsWrittenLabelDisagreesAtZero | orchestrator/ai_operator/worker/runner.py:213-226 | As written, a row stored with `max_attempts = 0` is failed for good by the failure statement, while the worker announces a retryable `task.failed`. |
| Runner.AsWrittenLabelAgreement | orchestrator/ai_operator/worker/runner.py:213-226 | As written, the label agrees with the status the failure statement stores exactly unless the stored cap is 0 and the row has made fewer than three attempts. |
| Runner.LabelAgreesWithStoredStatus | orchestrator/ai_operator/worker/runner.py:213-226 | With the corrected reading, the label is `task.permanently_failed` exactly when the failure statement stores status failed, for every row. |
| Runner.DecodePayload | orchestrator/ai_operator/worker/runner.py:131-132 | A falsy payload gives `{}` and a dict is kept. A truthy string decodes to what `json.loads` returned for it, or raises `JSONDecodeError` when that failed. Any other truthy value raises `TypeError`. |
| Runner.ClaimedEvent | orchestrator/ai_operator/worker/runner.py:141-150 | The `task.claimed` event has exactly its eight keys and carries the task id and type, the worker, and the attempts and cap it was given, with a null `run_id` and no `source`. |
| Runner.StartEvent | orchestrator/ai_operator/worker/runner.py:162-168 | The start event is typed by the task's own tag and carries the decoded payload as its `data`. |
| Runner.ResultEvent | orchestrator/ai_operator/worker/runner.py:192-207 | The result event is typed `<tag>.result`, and its `data` has exactly `ok: True`, `took_ms` and the stored result. |
| Runner.FailedEvent | orchestrator/ai_operator/worker/runner.py:225-234 | The failure event is typed terminal exactly when its `attempts` reach the `max_attempts` it reports, and carries the error text and both counts. |
| Runner.AfterReturn | orchestrator/ai_operator/worker/runner.py:172-209 | After the handler returns there is exactly one success write and no failure write. The row is marked succeeded with the merged result iff the success write does not raise. The block completes iff neither that write nor the result event raises. |
| Runner.TryBlock | orchestrator/ai_operator/worker/runner.py:155-211 | The `try` block completes iff the start event, dispatch, handler, success write and result event all go through. A success write happens iff the handler returns, and it stores the merged result. No failure write happens. Every write concerns the claimed task. |
| Runner.ExceptBlock | orchestrator/ai_operator/worker/runner.py:213-238 | The `except` block adds exactly one failure write for the task. If that write goes through, the table is `complete_task_failure`'s and the last call is the failure event. If it raises, the table is unchanged and the worker process ends. |
| Runner.Proceed | orchestrator/ai_operator/worker/runner.py:136-238 | The first call is the claim announcement, carrying the cap as the reading gives it. There is one failure write iff the `try` block raised, and none otherwise. When the block raised and the failure write goes through, the final table is `complete_task_failure` applied to the `try` block's table, and the last call is the failure event built from the claimed attempts and that cap. When the block did not raise, the table is the `try` block's. |
| Runner.HandleClaimed | orchestrator/ai_operator/worker/runner.py:126-238 | After a claim, only the claimed row can change. Its `attempts` and `max_attempts` stay as claimed. There is at most one success write, and every event written lacks a `source`. A payload that does not decode ends the worker with no call made and the table unchanged. Otherwise the first call announces the claim with the cap as the reading gives it (3 for a stored 0 as written); a failing announcement ends the worker with the table unchanged. |
| Runner.Iterate | orchestrator/ai_operator/worker/runner.py:119-238 | An empty claim gives one sleep and the table unchanged. Otherwise the iteration handles the claimed row under the given reading (`AsWritten` for the cap as the code reads it). The set of rows never changes. |
| Runner.EmptyClaimOnlySleeps | orchestrator/ai_operator/worker/runner.py:120-124 | The iteration is a bare sleep with no write exactly when no row is claimable. |
| Runner.UndecodablePayloadStrandsRow | orchestrator/ai_operator/worker/runner.py:126-152 | A claimed row whose payload cannot be decoded ends the worker before any write. The row is left running, owned by this worker, with its attempt counted. |
| Runner.FailingAnnouncementStrandsRow | orchestrator/ai_operator/worker/runner.py:136-152 | When the claim announcement's event write raises, which the memory writer as it stands always does, the worker ends after that single call: no handler runs, no success or failure write is made, and the row stays running under this worker's lock with its attempts incremented. |
| Runner.ExceptionInTryFailsOnce | orchestrator/ai_operator/worker/runner.py:155-218 | Once inside the `try` block, there is exactly one failure write for the claimed task when anything there raises, and none otherwise. There is at most one success write, and no write touches another task. |
| Runner.SuccessStored | orchestrator/ai_operator/worker/runner.py:172-209 | When nothing raises, the claimed row ends succeeded with the merged result, one attempt more than before the claim, no error and no owner. Other rows are unchanged. The last event written carries exactly the stored result. |
| Runner.FailureLabelMatchesStoredStatus | orchestrator/ai_operator/worker/runner.py:213-236 | When the `try` block raises and the failure write goes through, under the corrected reading or for a stored cap other than 0, the last event is `task.permanently_failed` exactly when the row is stored failed. Otherwise the row is re-queued one second later. The error is recorded and the owner cleared. |
| Runner.AsWrittenZeroCapMislabels | orchestrator/ai_operator/worker/runner.py:129-236 | The cap read as written, with the event writes succeeding, on a row stored with cap 0 whose `try` block raises: the claim event announces `max_attempts: 3`, the row is stored failed, and the last event still says `task.failed`. |
| Runner.ResultEventFailureOverwritesSuccess | orchestrator/ai_operator/worker/runner.py:177-218 | If the handler returns but the result event raises, the row was first marked succeeded, then failed or re-queued by the failure statement. The success result stays stored. |
| Runner.WorkerEventsRecordedUnderTheirType | orchestrator/ai_operator/worker/runner.py:136-139 | Once the memory writer's downstream call is repaired, every event the worker writes is recorded by the memory writer under source `"worker"` and, since the worker passes an empty tool, under its own type. |
| Registry.Empty | orchestrator/ai_operator/tools/registry.py:17-18 | A new registry holds no tools. |
| Registry.GetTool | orchestrator/ai_operator/tools/registry.py:25-26 | `get` finds exactly the registered names, and None for any other. |
| Registry.List | orchestrator/ai_operator/tools/registry.py:28-29 | `list` holds exactly the tools `get` finds, under their names. |
| Registry.Register | orchestrator/ai_operator/tools/registry.py:20-23 | Raises `ValueError: Tool already registered: <name>` exactly when the name is present, leaving the registry unchanged. Otherwise it adds exactly that entry, which `get` then returns, and every other name is unaffected. |
| Registry.TypeMatches | orchestrator/ai_operator/tools/registry.py:45-53 | An undeclared or unknown type accepts anything. A string fails only the `integer`, `number` and `boolean` checks; a bool fails only `string`; an int fails `string` and `boolean`; a float passes only `number`; null, lists and dicts fail all four. |
| Registry.CheckRequiredList | orchestrator/ai_operator/tools/registry.py:38-40 | The loop over a `required` list passes exactly when every entry is a string naming an argument. |
| Registry.CheckRequired | orchestrator/ai_operator/tools/registry.py:35-40 | The required-names loop over `required or []` passes exactly when every name it iterates (list entries, a string's characters, a dict's keys) is an argument; a falsy `required` always passes. A failure is a missing name or an unusable `required`. |
| Registry.ValidateArgs | orchestrator/ai_operator/tools/registry.py:31-53 | A schema whose `type` is not `"object"` is rejected. Validation passes exactly when the schema is an object schema, every required name is an argument, and every argument is declared with a matching type. |
| Registry.MissingRequiredNameFails | orchestrator/ai_operator/tools/registry.py:38-40 | A required name absent from the arguments fails validation. |
| Registry.UndeclaredArgFails | orchestrator/ai_operator/tools/registry.py:42-44 | An argument not declared in `properties` fails validation. |
| Registry.BoolIsAnInteger | orchestrator/ai_operator/tools/registry.py:48-53 | A boolean passes the `integer` and `number` checks, and an integer fails the `boolean` check. |
| Registry.Ping | orchestrator/ai_operator/tools/registry.py:65-67 | Ping returns `ok: True`, `tool: "ping"`, and echoes `message`, or `"pong"` when there is none. |
| Registry.Run | orchestrator/ai_operator/tools/registry.py:55-60 | An unknown tool is refused. The handler's result or exception is reached only after validation passes, and then it is exactly what `run` returns or raises. |
| Registry.DefaultRegistry | orchestrator/ai_operator/tools/registry.py:70-84 | The default registry holds exactly `ping`. |
| Registry.DefaultPingWithoutArgs | orchestrator/ai_operator/tools/registry.py:65-84 | Running the default `ping` with no arguments returns the echo `"pong"`. |
| Registry.DefaultPingEchoes | orchestrator/ai_operator/tools/registry.py:65-84 | Running the default `ping` with a string `message` echoes it. |
| Registry.DefaultPingRefuses | orchestrator/ai_operator/tools/registry.py:42-47 | A non-string `message`, or any argument other than `message`, is refused before the handler runs. |
| Events.MakeEvent | orchestrator/ai_operator/memory/events.py:29-42 | The checks run in order, each with its own message: an empty or non-string `type`, an empty or non-string `source`, and non-dict `data` each raise `ValueError`. Otherwise the event holds the three values, and the given `ts` when it is non-empty, else the clock reading. |
| Events.MakeEventRevalidates | orchestrator/ai_operator/memory/events.py:29-42 | An event `make_event` built passes its checks again: fed its own fields back, it rebuilds the same event. |
| Events.EventToToolResult | orchestrator/ai_operator/memory/events.py:60-65 | The structured envelope has exactly the keys `type`, `source`, `ts` and `data`. |
| Events.ToolResultRoundTrip | orchestrator/ai_operator/memory/events.py:60-65 | Each key of the structured envelope holds the event's value unchanged: reading it back recovers the event. |
| Events.EventToContent | orchestrator/ai_operator/memory/events.py:45-57 | The content string is `EVENT:` followed by the JSON of the structured envelope. |
| Events.SqlSubstringFrom | orchestrator/ai_operator/memory/trace.py:21-22 | SQL's 1-based `substring(s from p)` drops the first `p - 1` characters. |
| Events.ContentPayloadRecovered | orchestrator/ai_operator/memory/trace.py:20-25 | Every event's content matches `LIKE 'EVENT:%'`, and `substring(content from 7)` is exactly its JSON payload. |
| Writer.NormalizeEnvelope | orchestrator/ai_operator/memory/writer.py:45-52 | Content that parses to a dict is kept as is, with `source` added only when absent. Content that parses to anything else, or fails to parse, becomes `{"type": "raw.event", "content": content, "source": source}`. |
| Writer.SelectColumns | orchestrator/ai_operator/memory/writer.py:24-31 | The source column is the event's `source`, defaulting to `"orchestrator"`. The tool column is the `tool` argument unless it is empty or None, in which case it is the event's `type`. |
| Writer.WriteMemoryEvent | orchestrator/ai_operator/memory/writer.py:34-53 | The recorded source is the content's own `source` if it has one, else the caller's. So the `"orchestrator"` default never applies on this path. The tool column is the given tool, or the event's `type` when that is empty. |
| Writer.ExistingSourceKept | orchestrator/ai_operator/memory/writer.py:52 | A `source` already in the content is neither replaced nor recorded differently. |
| Writer.EmptyToolUsesEventType | orchestrator/ai_operator/memory/writer.py:29 | With an empty tool, the recorded tool is the event's `type`. Unparseable or non-dict content is recorded as `raw.event` from the caller's source. |
| Json.Spread | orchestrator/ai_operator/worker/runner.py:179-184 | `{**a, **b}` has the keys of both, and `b` wins where both have a key. |
| Json.SetDefault | orchestrator/ai_operator/memory/writer.py:52 | `setdefault` adds the key only when absent and changes no existing entry. |
| Text.Strip | orchestrator/ai_operator/repo/patch_apply.py:55 | `strip()` removes only whitespace, and only from the two ends. The result is empty or starts and ends with a non-whitespace character. |
| Text.StripEmptyIffAllSpace | orchestrator/ai_operator/worker/artifacts.py:48-51 | `not s.strip()` holds exactly when `s` is all whitespace (including empty). |
| Text.ReplaceSpaces | orchestrator/ai_operator/worker/artifacts.py:54 | `replace(" ", "_")` keeps the length and swaps exactly the spaces. |
| Text.Join | orchestrator/ai_operator/repo/patch_apply.py:223 | Joining no parts gives `""`, one part gives that part, and more parts give the first, the separator, and the join of the rest. |
| Text.JoinAppend | orchestrator/ai_operator/repo/patch_apply.py:223 | Joining two non-empty lists back to back is joining each with one separator between them. |
| Text.JoinLength | orchestrator/ai_operator/repo/patch_apply.py:223 | A join of `n` parts is as long as the parts together plus `n - 1` separators: the separator goes only between parts. |
| Artifacts.SafeName | orchestrator/ai_operator/worker/artifacts.py:54 | The safe name is the given name (or the default when missing or empty), stripped, with spaces turned into underscores. It contains no space. |
| Artifacts.ArtifactMeta | orchestrator/ai_operator/worker/artifacts.py:70-74 | `meta` holds `name` and `ts`. Caller keys override them, and no other keys appear. |
| Artifacts.WriteArtifact | orchestrator/ai_operator/worker/artifacts.py:36-118 | A `repo_path` that is not a string or is blank raises first, then such a body, each with its `ValueError` message. Otherwise the artifact has the flavour's kind, the path `<root>/<artifacts_root>/<subdir>/<ts>_<safe_name><ext>`, the merged meta, and the file's digest and size. |
| Artifacts.WritePatchArtifact | orchestrator/ai_operator/worker/artifacts.py:36-76 | Fails with `ValueError` exactly when `repo_path` or the patch text is not a string or is blank, the patch-text message when only the text is at fault. A patch artifact has kind `"patch"`, default name `change`, and a `.patch` file under `patches`. |
| Artifacts.WriteDocArtifact | orchestrator/ai_operator/worker/artifacts.py:79-118 | Fails with `ValueError` exactly when `repo_path` or the markdown is not a string or is blank, the markdown message when only the markdown is at fault. A doc artifact has kind `"doc"`, default name `report`, and a `.md` file under `docs`. |
| Artifacts.ArtifactToResult | orchestrator/ai_operator/worker/artifacts.py:121-130 | The result has the single key `artifact`, holding exactly the five fields. |
| Artifacts.ArtifactResultRoundTrip | orchestrator/ai_operator/worker/artifacts.py:121-130 | The five fields are wrapped unchanged: reading the result back recovers the artifact. |
| PatchApply.Refusal | orchestrator/ai_operator/repo/patch_apply.py:25-84 | `apply_patch` raises before `git apply --check` exactly when the repository is not a directory, the patch is not a file, `git status` fails or times out, or the tree is dirty while a clean one is required. A dirty tree raises with the porcelain output in the message, a time-out with `TimeoutExpired`. No `git apply` runs in any of these cases. |
| PatchApply.CheckThenApply | orchestrator/ai_operator/repo/patch_apply.py:86-155 | After the guards, the check always runs; the apply runs iff the check exited 0 and this is not a check-only run; the diff stat runs iff the apply exited 0 too. It returns iff none of the commands it starts times out, and otherwise raises `TimeoutExpired`. The result reports exactly what ran. |
| PatchApply.AfterApply | orchestrator/ai_operator/repo/patch_apply.py:120-155 | Once `git apply` finished: a failing apply returns not ok and not applied with its outputs; a passing one runs `git diff --stat` and returns ok and applied with its stripped output, or raises if that times out. |
| PatchApply.ApplyPatch | orchestrator/ai_operator/repo/patch_apply.py:62-155 | Returns a result iff the guards pass and no git command it starts times out; a time-out after the guards raises `TimeoutExpired`. `git apply` runs iff the guards pass, the check exited 0 and this is not a check-only run. Every result is checked; applied iff check and apply both exit 0 and this is not a check-only run; ok iff the check passed and (check-only or the apply passed). Outputs are stripped, and apply outputs and diff stat are empty when not produced. |
| PatchApply.AppliedOnlyWhenBothSucceed | orchestrator/ai_operator/repo/patch_apply.py:91-155 | Every returned result is checked, and applied implies ok and both git commands exiting 0. |
| PatchApply.DiffStatTimeoutHidesApply | orchestrator/ai_operator/repo/patch_apply.py:139-141 | A `git diff --stat` that times out after a successful `git apply` makes `apply_patch` raise although the patch is already applied. |
| PatchApply.NonEmpty | orchestrator/ai_operator/repo/patch_apply.py:200-203 | A single output is kept iff it is non-empty; the result is no longer than the input and holds exactly the non-empty outputs. |
| PatchApply.NonEmptyAppend | orchestrator/ai_operator/repo/patch_apply.py:200-212 | The filter distributes over concatenation, so with the single-output case it keeps the non-empty outputs in their order, duplicates included. |
| PatchApply.Sections | orchestrator/ai_operator/repo/patch_apply.py:191-221 | The report has two sections, plus one each for non-empty porcelain and non-empty diff stat. |
| PatchApply.ReportSectionSelection | orchestrator/ai_operator/repo/patch_apply.py:191-221 | The porcelain section appears iff porcelain is non-empty, the diff-stat section iff the diff stat is non-empty, and the check and apply sections always, in that order. |
| PatchApply.Decimal | orchestrator/ai_operator/repo/patch_apply.py:184 | `str(patch_bytes)` is a non-empty string of decimal digits that reads back as the number. |
| PatchApply.PyBool | orchestrator/ai_operator/repo/patch_apply.py:187-189 | A flag prints as `True` exactly when it holds and `False` exactly when not. |
| PatchApply.HeaderLines | orchestrator/ai_operator/repo/patch_apply.py:177-190 | The header is fourteen lines: the title naming the report, blank lines at 1, 8 and 13, the `patch_bytes` line, the `## Outcome` heading, and the `ok`, `checked` and `applied` lines, each reading `True` exactly when its flag holds. |
| PatchApply.ReportContent | orchestrator/ai_operator/repo/patch_apply.py:176-223 | The report text is the joined header lines, a line break, the joined rendered sections, and a final line break. |
| PatchApply.ReportMeta | orchestrator/ai_operator/repo/patch_apply.py:225-234 | The returned metadata has kind `"doc"` and exactly the keys `ts`, `name`, `purpose`, `path` and `bytes`, with name `<name>_apply_report`, the given purpose, the given path and the report's size. |
| PatchApply.ReportPathPlacement | orchestrator/ai_operator/repo/patch_apply.py:166-170 | The report file is `<repo>/artifacts/docs/<ts>_<name>_apply_report.md`, or the relative `artifacts/docs/<ts>_<name>_apply_report.md` when `repo_path` is empty, since `Path("")` is the working directory. |
| PatchApply.WriteApplyReport | orchestrator/ai_operator/repo/patch_apply.py:158-235 | The report goes to the path `ReportPathPlacement` describes, holds the report text, and ends with a newline. Its metadata names that same path. |

## Left out

- Database plumbing (connections, commits, SQL parsing) is not modelled. Each statement is an atomic map update, which is what `FOR UPDATE SKIP LOCKED` and the row-level update provide.
- The claim statement's tie-break among rows with equal (`priority`, `created_at`) is unspecified in SQL. It is made deterministic by a `scan` order input. The "None iff nothing claimable" and "best candidate" directions assume that scan covers the table.
- Lease expiry, renewal, cancel, heartbeats and parent linkage are left out because the code has none. `lock_expires_at` is written and never read, and the `canceled` status is never set.
- A null `attempts` or `max_attempts` column is not modelled in the task table: every claimed row carries both as integers. The `or 0` default for `attempts` is therefore the identity; the two readers of `max_attempts` take an optional value, so the `or 3` default is stated on them.
- Runner.FailureLabelMatchesStoredStatus: for the code as written it is stated only for a stored cap other than 0, where it holds; at cap 0 it is false, which Runner.AsWrittenZeroCapMislabels shows.
- The handlers behind the four tags are not modelled: `run_tool_call`, `run_repo_change_task`, `run_doc_build_task` and `run_patch_apply_task` are not part of this model. A handler is a function parameter returning a JSON value or raising.
- The reflection branches of `_normalize_result` (dataclass, pydantic, `__dict__`) and their `repr` fallbacks are not modelled. Handlers return JSON values here.
- `json.dumps`/`json.loads` are not modelled. Parse results are inputs, and dumping is an opaque function. `Runner.WorkerEventsRecordedUnderTheirType` takes the JSON round trip of an event dict to be the identity.
- Dict key order is not modelled. So `Registry.ValidateArgs` reports which check failed (`SchemaNotObject`, `RequiredUnusable`, `MissingRequired`, `RejectedArg`), not the message naming the first offending argument.
- Registry.ValidateArgs: a non-dict `properties` value and an undeclared argument are both `RejectedArg`. This does not distinguish Python's `TypeError` from its `ValueError`.
- Logging, `time.time()` and the per-event ISO timestamps are not modelled. One `ts` and one `took_ms` are inputs to an iteration, although the code reads the clock separately for each event.
- `git` subprocesses, `os.path.abspath`, `Path.resolve`, directory creation, file writes, `stat` and SHA-256 hashing are not modelled. Their results are inputs. A git command's result is either its exit code and output or a time-out; the time-out limits themselves (30 and 120 seconds) are not modelled.
- Tasks.CompleteFailure: one `now` stands for both Python's clock reading (the re-queue time, tasks.py:90-91) and the database's `now()` (`updated_at`); the two clocks are not told apart. Tasks.CompleteSuccess reads only the database's `now()`.
- Artifacts.WriteArtifact: `name` and `meta` are taken as their annotated types (`Optional[str]`, `Optional[dict]`); a truthy non-string `name` failing at `.strip()`, or a non-dict `meta` failing in the `**` spread, is not modelled. `repo_path` and the body are any JSON value, so their `isinstance` checks are.
- Artifacts.JoinPath: `pathlib` normalisation of repeated or trailing separators and of `.` components is not modelled; an empty left operand is modelled (`Path("") / b` is the relative `b`).
- PatchApply.HeaderLines: the `ts`, `purpose`, `repo_path`, `patch_path` and `patch_sha256` bullet lines are produced but carry no contract of their own.
- `write_event`'s downstream insert is not modelled. It hands a dict to `event_to_content` and `event_to_tool_result`, which read attributes, and `insert_memory` takes other parameters than it is given. The model stops at the event dict and the chosen `source`/`tool` columns; the iteration's `Faults` input covers a raising event write.
- Runner.AsWrittenZeroCapMislabels: describes the loop with the event write repaired. As written, the claim announcement already raises (Runner.FailingAnnouncementStrandsRow), so the mislabel is latent behind that crash.
- Runner.WorkerEventsRecordedUnderTheirType: states the `source`/`tool` columns the writer chooses; as written `write_event` raises in `event_to_content` before any row is recorded.
- Unicode: `Text.IsSpace` lists Python's whitespace code points explicitly. There is no case folding or normalisation.

## Findings

| source | as written | input that shows it | evidently intended | confidence | as-written member | corrected member |
|---|---|---|---|---|---|---|
| orchestrator/ai_operator/worker/runner.py:129 | `int(task.get("max_attempts") or 3)` treats a stored `0` as falsy and reads it as `3` | a row with `max_attempts = 0` claimed once (`attempts = 1`) whose handler raises: the failure statement (tasks.py:96-97) stores `failed`, while the worker's label (runner.py:216) says `task.failed`, i.e. retryable | default to 3 only when the column is missing, so the label's `attempts >= max_attempts` is the same test as the SQL's | medium; not executed; latent, since as written every event write raises first and the worker stops at the claim announcement (runner.py:136, Runner.FailingAnnouncementStrandsRow) | Runner.RunnerMaxAttemptsAsWritten, Runner.AsWrittenLabelDisagreesAtZero, Runner.AsWrittenZeroCapMislabels | Runner.RunnerMaxAttempts, Runner.LabelAgreesWithStoredStatus, Runner.FailureLabelMatchesStoredStatus |
