/** The task table and the three SQL statements that move its rows: claiming
    the best queued row, recording success, and recording failure (with a
    delayed re-queue while attempts remain). Each statement is one atomic
    transition on a map from task id to row; row locking in the database is
    what makes that view sound. Time is an integer number of seconds. */
module Tasks {
  import opened Wrappers
  import opened Json

  type TaskId = string
  type WorkerId = string

  datatype Status = Queued | Running | Succeeded | Failed | Canceled

  /** One row of the `tasks` table (the columns the statements read or write). */
  datatype Task = Task(
    taskType: string,
    payload: Json,
    priority: int,
    createdAt: int,
    updatedAt: int,
    status: Status,
    availableAt: int,
    lockedBy: Option<WorkerId>,
    lockedAt: Option<int>,
    lockExpiresAt: Option<int>,
    attempts: int,
    maxAttempts: int,
    lastError: Option<string>,
    result: Option<Json>)

  type Table = map<TaskId, Task>

  /** The claim statement's WHERE clause: queued and already available. */
  predicate Claimable(t: Task, now: int) {
    t.status == Queued && t.availableAt <= now
  }

  /** `ORDER BY priority ASC, created_at ASC`: `a` sorts no later than `b`. */
  predicate RanksNoLater(a: Task, b: Task) {
    a.priority < b.priority || (a.priority == b.priority && a.createdAt <= b.createdAt)
  }

  /** The ownership triple is all null or all set. */
  predicate LockFieldsAgree(t: Task) {
    t.lockedBy.None? == t.lockedAt.None? && t.lockedAt.None? == t.lockExpiresAt.None?
  }

  /** `id` is a row of `table` that the claim statement may return at `now`:
      claimable, and ranked no later than any other claimable row. */
  ghost predicate IsBestCandidate(table: Table, now: int, id: TaskId) {
    && id in table
    && Claimable(table[id], now)
    && forall other :: other in table && Claimable(table[other], now) ==> RanksNoLater(table[id], table[other])
  }

  /** `scan` lists every row of the table (the order the database visits rows). */
  ghost predicate Covers(table: Table, scan: seq<TaskId>) {
    forall id :: id in table ==> id in scan
  }

  /** The candidate CTE: among the rows `scan` visits, a claimable one that
      sorts first, or None. The database breaks ties among equal
      `(priority, created_at)` arbitrarily; here the row met first wins. */
  function PickCandidate(table: Table, now: int, scan: seq<TaskId>): (r: Option<TaskId>)
    ensures r.Some? ==> r.value in scan && r.value in table && Claimable(table[r.value], now)
    ensures r.Some? ==> forall j :: 0 <= j < |scan| && scan[j] in table && Claimable(table[scan[j]], now) ==>
                          RanksNoLater(table[r.value], table[scan[j]])
    ensures r.None? ==> forall j :: 0 <= j < |scan| && scan[j] in table ==> !Claimable(table[scan[j]], now)
  {
    if |scan| == 0 then None
    else
      var rest := PickCandidate(table, now, scan[1..]);
      var id := scan[0];
      if id in table && Claimable(table[id], now) && (rest.None? || RanksNoLater(table[id], table[rest.value]))
      then Some(id)
      else rest
  }

  /** The claimed row: running, owned by `worker` until `now + lockS`, one more attempt. */
  function ClaimRow(t: Task, worker: WorkerId, now: int, lockS: int): Task {
    t.(status := Running, lockedBy := Some(worker), lockedAt := Some(now),
       lockExpiresAt := Some(now + lockS), attempts := t.attempts + 1)
  }

  datatype ClaimResult = ClaimResult(claimed: Option<TaskId>, table: Table)

  /** `claim_task(worker_id, lock_s)` at time `now`. */
  function Claim(table: Table, scan: seq<TaskId>, worker: WorkerId, now: int, lockS: int): (r: ClaimResult)
    ensures r.claimed.None? ==> r.table == table
    ensures Covers(table, scan) ==> (r.claimed.None? <==> forall id :: id in table ==> !Claimable(table[id], now))
    ensures Covers(table, scan) && r.claimed.Some? ==> IsBestCandidate(table, now, r.claimed.value)
    ensures r.claimed.Some? ==> r.claimed.value in table && r.table.Keys == table.Keys
    ensures r.claimed.Some? ==>
      var id := r.claimed.value;
      var old_ := table[id];
      var new_ := r.table[id];
      && Claimable(old_, now)
      && (forall other :: other in table && other != id ==> r.table[other] == table[other])
      && new_.status == Running
      && new_.lockedBy == Some(worker) && new_.lockedAt == Some(now) && new_.lockExpiresAt == Some(now + lockS)
      && new_.attempts == old_.attempts + 1
      && new_.taskType == old_.taskType && new_.payload == old_.payload && new_.priority == old_.priority
      && new_.createdAt == old_.createdAt && new_.updatedAt == old_.updatedAt
      && new_.availableAt == old_.availableAt && new_.maxAttempts == old_.maxAttempts
      && new_.lastError == old_.lastError && new_.result == old_.result
  {
    match PickCandidate(table, now, scan)
    case None => ClaimResult(None, table)
    case Some(id) => ClaimResult(Some(id), table[id := ClaimRow(table[id], worker, now, lockS)])
  }

  /** `complete_task_success(task_id, result)`, with `now` the database's `now()`.
      No guard on status or owner; an unknown id updates nothing. */
  function CompleteSuccess(table: Table, id: TaskId, result: Json, now: int): (r: Table)
    ensures id !in table ==> r == table
    ensures r.Keys == table.Keys
    ensures forall other :: other in table && other != id ==> r[other] == table[other]
    ensures id in table ==>
      var old_ := table[id];
      var new_ := r[id];
      && new_.status == Succeeded && new_.result == Some(result) && new_.lastError.None?
      && new_.lockedBy.None? && new_.lockedAt.None? && new_.lockExpiresAt.None?
      && new_.updatedAt == now
      && new_.attempts == old_.attempts && new_.maxAttempts == old_.maxAttempts
      && new_.priority == old_.priority && new_.payload == old_.payload
      && new_.availableAt == old_.availableAt && new_.taskType == old_.taskType
      && new_.createdAt == old_.createdAt
  {
    if id !in table then table
    else
      table[id := table[id].(status := Succeeded, result := Some(result), lastError := None,
                              lockedBy := None, lockedAt := None, lockExpiresAt := None,
                              updatedAt := now)]
  }

  /** The re-queue time `now + timedelta(seconds=max(0, retry_backoff_s))`. */
  function RetryAt(now: int, backoffS: int): (t: int)
    ensures t >= now
    ensures backoffS >= 0 ==> t == now + backoffS
  {
    if backoffS < 0 then now else now + backoffS
  }

  /** `complete_task_failure(task_id, error, retry_backoff_s)` at time `now`.
      No guard on status or owner; an unknown id updates nothing. */
  function CompleteFailure(table: Table, id: TaskId, error: string, now: int, backoffS: int): (r: Table)
    ensures id !in table ==> r == table
    ensures r.Keys == table.Keys
    ensures forall other :: other in table && other != id ==> r[other] == table[other]
    ensures id in table ==>
      var old_ := table[id];
      var new_ := r[id];
      && (old_.attempts >= old_.maxAttempts ==> new_.status == Failed && new_.availableAt == old_.availableAt)
      && (old_.attempts < old_.maxAttempts ==> new_.status == Queued && new_.availableAt == RetryAt(now, backoffS))
      && new_.lastError == Some(error)
      && new_.lockedBy.None? && new_.lockedAt.None? && new_.lockExpiresAt.None?
      && new_.updatedAt == now
      && new_.attempts == old_.attempts && new_.maxAttempts == old_.maxAttempts
      && new_.priority == old_.priority && new_.payload == old_.payload
      && new_.result == old_.result && new_.taskType == old_.taskType
      && new_.createdAt == old_.createdAt
  {
    if id !in table then table
    else
      var t := table[id];
      var exhausted := t.attempts >= t.maxAttempts;
      table[id := t.(status := if exhausted then Failed else Queued,
                     lastError := Some(error),
                     availableAt := if exhausted then t.availableAt else RetryAt(now, backoffS),
                     lockedBy := None, lockedAt := None, lockExpiresAt := None,
                     updatedAt := now)]
  }
}
