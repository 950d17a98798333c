/** Sequences of task-table statements, as several workers issue them one
    after another, and the properties that hold across such sequences. */
module TaskTraces {
  import opened Wrappers
  import opened Json
  import opened Tasks

  /** One SQL statement against the task table. */
  datatype Op =
    | ClaimOp(scan: seq<TaskId>, worker: WorkerId, now: int, lockS: int)
    | SuccessOp(id: TaskId, result: Json, now: int)
    | FailureOp(id: TaskId, error: string, now: int, backoffS: int)

  function Step(table: Table, op: Op): Table {
    match op
    case ClaimOp(scan, worker, now, lockS) => Claim(table, scan, worker, now, lockS).table
    case SuccessOp(id, result, now) => CompleteSuccess(table, id, result, now)
    case FailureOp(id, error, now, backoffS) => CompleteFailure(table, id, error, now, backoffS)
  }

  /** The row a statement hands to a worker: the claimed id for a claim, None otherwise. */
  function Picked(table: Table, op: Op): Option<TaskId> {
    match op
    case ClaimOp(scan, worker, now, lockS) => Claim(table, scan, worker, now, lockS).claimed
    case _ => None
  }

  /** The table after running `ops` in order. */
  function Run(table: Table, ops: seq<Op>): Table
    decreases |ops|
  {
    if ops == [] then table else Step(Run(table, ops[..|ops| - 1]), ops[|ops| - 1])
  }

  /** `op` is a `complete_task_failure` call on `id`. */
  predicate FailsRow(op: Op, id: TaskId) {
    op.FailureOp? && op.id == id
  }

  /** Every row has a consistent ownership triple. */
  ghost predicate LocksConsistent(table: Table) {
    forall id :: id in table ==> LockFieldsAgree(table[id])
  }

  /** Every row is within its attempt cap, and a queued row still has an attempt left. */
  ghost predicate AttemptsBounded(table: Table) {
    forall id :: id in table ==>
      table[id].attempts <= table[id].maxAttempts
      && (table[id].status == Queued ==> table[id].attempts < table[id].maxAttempts)
  }

  /** Every queued row still has an attempt left. */
  ghost predicate QueuedHaveAttemptsLeft(table: Table) {
    forall id :: id in table && table[id].status == Queued ==> table[id].attempts < table[id].maxAttempts
  }

  /** A row that has used up its attempts and is not waiting in the queue. */
  predicate Exhausted(t: Task) {
    t.attempts >= t.maxAttempts && t.status != Queued
  }

  lemma StepPreservesLocksConsistent(table: Table, op: Op)
    requires LocksConsistent(table)
    ensures LocksConsistent(Step(table, op))
  {
  }

  lemma {:induction false} RunPreservesLocksConsistent(table: Table, ops: seq<Op>)
    requires LocksConsistent(table)
    ensures LocksConsistent(Run(table, ops))
    decreases |ops|
  {
    if ops != [] {
      RunPreservesLocksConsistent(table, ops[..|ops| - 1]);
      StepPreservesLocksConsistent(Run(table, ops[..|ops| - 1]), ops[|ops| - 1]);
    }
  }

  /** Claiming increments `attempts` only on a queued row, and failure
      re-queues only a row below its cap, so the cap is never exceeded. */
  lemma StepPreservesAttemptsBounded(table: Table, op: Op)
    requires AttemptsBounded(table)
    ensures AttemptsBounded(Step(table, op))
  {
    if op.ClaimOp? {
      var c := Claim(table, op.scan, op.worker, op.now, op.lockS);
      if c.claimed.Some? {
        var id := c.claimed.value;
        forall other | other in c.table
          ensures c.table[other].attempts <= c.table[other].maxAttempts
          ensures c.table[other].status == Queued ==> c.table[other].attempts < c.table[other].maxAttempts
        {
          if other != id {
            assert c.table[other] == table[other];
          }
        }
      }
    }
  }

  lemma {:induction false} RunPreservesAttemptsBounded(table: Table, ops: seq<Op>)
    requires AttemptsBounded(table)
    ensures AttemptsBounded(Run(table, ops))
    decreases |ops|
  {
    if ops != [] {
      RunPreservesAttemptsBounded(table, ops[..|ops| - 1]);
      StepPreservesAttemptsBounded(Run(table, ops[..|ops| - 1]), ops[|ops| - 1]);
    }
  }

  /** Claiming takes a row out of the queue, success leaves it out, and
      failure puts it back only below its cap. */
  lemma StepPreservesQueuedHaveAttemptsLeft(table: Table, op: Op)
    requires QueuedHaveAttemptsLeft(table)
    ensures QueuedHaveAttemptsLeft(Step(table, op))
  {
    if op.ClaimOp? {
      var c := Claim(table, op.scan, op.worker, op.now, op.lockS);
      if c.claimed.Some? {
        forall other | other in c.table && c.table[other].status == Queued
          ensures c.table[other].attempts < c.table[other].maxAttempts
        {
          assert other != c.claimed.value;
          assert c.table[other] == table[other];
        }
      }
    }
  }

  lemma {:induction false} RunPreservesQueuedHaveAttemptsLeft(table: Table, ops: seq<Op>)
    requires QueuedHaveAttemptsLeft(table)
    ensures QueuedHaveAttemptsLeft(Run(table, ops))
    decreases |ops|
  {
    if ops != [] {
      RunPreservesQueuedHaveAttemptsLeft(table, ops[..|ops| - 1]);
      StepPreservesQueuedHaveAttemptsLeft(Run(table, ops[..|ops| - 1]), ops[|ops| - 1]);
    }
  }

  /** A row that is not queued stays out of the queue, and is never handed
      out by a claim, until a `complete_task_failure` call on it. */
  lemma {:induction false} NotReclaimedWithoutFailure(table: Table, id: TaskId, ops: seq<Op>)
    requires id in table && table[id].status != Queued
    requires forall i :: 0 <= i < |ops| ==> !FailsRow(ops[i], id)
    ensures id in Run(table, ops) && Run(table, ops)[id].status != Queued
    ensures forall i :: 0 <= i < |ops| ==> Picked(Run(table, ops[..i]), ops[i]) != Some(id)
    decreases |ops|
  {
    if ops != [] {
      var init := ops[..|ops| - 1];
      forall i | 0 <= i < |init| ensures !FailsRow(init[i], id) {
        assert init[i] == ops[i];
      }
      NotReclaimedWithoutFailure(table, id, init);
      var before := Run(table, init);
      var last := ops[|ops| - 1];
      assert !FailsRow(last, id);
      forall i | 0 <= i < |ops| ensures Picked(Run(table, ops[..i]), ops[i]) != Some(id) {
        if i < |init| {
          assert ops[..i] == init[..i];
          assert ops[i] == init[i];
        } else {
          assert ops[..i] == init;
        }
      }
    }
  }

  /** A row handed out by one claim is not handed out by any later claim
      unless `complete_task_failure` was called on it in between. */
  lemma ClaimedRowNotClaimedAgain(table: Table, claim: Op, ops: seq<Op>)
    requires claim.ClaimOp? && Picked(table, claim).Some?
    requires forall i :: 0 <= i < |ops| ==> !FailsRow(ops[i], Picked(table, claim).value)
    ensures forall i :: 0 <= i < |ops| ==>
      Picked(Run(Step(table, claim), ops[..i]), ops[i]) != Picked(table, claim)
  {
    var id := Picked(table, claim).value;
    NotReclaimedWithoutFailure(Step(table, claim), id, ops);
  }

  /** An exhausted row stays exhausted under every statement and is never claimed again. */
  lemma {:induction false} ExhaustedNeverClaimed(table: Table, id: TaskId, ops: seq<Op>)
    requires id in table && Exhausted(table[id])
    ensures id in Run(table, ops) && Exhausted(Run(table, ops)[id])
    ensures forall i :: 0 <= i < |ops| ==> Picked(Run(table, ops[..i]), ops[i]) != Some(id)
    decreases |ops|
  {
    if ops != [] {
      var init := ops[..|ops| - 1];
      ExhaustedNeverClaimed(table, id, init);
      forall i | 0 <= i < |ops| ensures Picked(Run(table, ops[..i]), ops[i]) != Some(id) {
        if i < |init| {
          assert ops[..i] == init[..i];
          assert ops[i] == init[i];
        } else {
          assert ops[..i] == init;
        }
      }
    }
  }

  /** Of two rows available at once, the one with the smaller priority is claimed first. */
  lemma LowerPriorityValueClaimedFirst(a: TaskId, b: TaskId, ta: Task, tb: Task, worker: WorkerId, now: int, lockS: int)
    requires a != b
    requires Claimable(ta, now) && Claimable(tb, now)
    requires ta.priority < tb.priority
    ensures Claim(map[a := ta, b := tb], [a, b], worker, now, lockS).claimed == Some(a)
    ensures Claim(map[a := ta, b := tb], [b, a], worker, now, lockS).claimed == Some(a)
  {
    var table := map[a := ta, b := tb];
    assert Covers(table, [a, b]) && Covers(table, [b, a]);
  }

  /** One claim of the only row followed by a failure report on it. */
  function Round(id: TaskId, worker: WorkerId, claimAt: int, lockS: int, error: string, failAt: int, backoffS: int): seq<Op> {
    [ClaimOp([id], worker, claimAt, lockS), FailureOp(id, error, failAt, backoffS)]
  }

  /** A claim/fail round on a row with an attempt left: one more attempt, and
      the row is failed exactly when that used the last attempt. */
  lemma RoundOnSingleRow(id: TaskId, t: Task, worker: WorkerId, claimAt: int, lockS: int, error: string, failAt: int, backoffS: int)
    requires Claimable(t, claimAt) && t.attempts < t.maxAttempts
    ensures var t' := Run(map[id := t], Round(id, worker, claimAt, lockS, error, failAt, backoffS));
      && t'.Keys == {id}
      && t'[id].attempts == t.attempts + 1 && t'[id].maxAttempts == t.maxAttempts
      && t'[id].lastError == Some(error)
      && (t.attempts + 1 == t.maxAttempts ==> t'[id].status == Failed)
      && (t.attempts + 1 < t.maxAttempts ==> t'[id].status == Queued && t'[id].availableAt == RetryAt(failAt, backoffS))
  {
    var ops := Round(id, worker, claimAt, lockS, error, failAt, backoffS);
    var table := map[id := t];
    assert Covers(table, [id]);
    var c := Claim(table, [id], worker, claimAt, lockS);
    assert c.claimed == Some(id);
    assert ops[..1] == [ops[0]] && [ops[0]][..0] == [];
    assert Run(table, ops[..1]) == c.table;
    assert Run(table, ops) == CompleteFailure(c.table, id, error, failAt, backoffS);
  }

  /** With `max_attempts = 3`, three claim/fail rounds leave the row failed
      with `attempts = 3`, and no later statement ever claims it. */
  lemma ThreeFailedRoundsExhaust(id: TaskId, t: Task, worker: WorkerId, lockS: int, error: string, backoffS: int,
                                 c1: int, f1: int, c2: int, f2: int, c3: int, f3: int, later: seq<Op>)
    requires t.status == Queued && t.attempts == 0 && t.maxAttempts == 3 && t.availableAt <= c1
    requires RetryAt(f1, backoffS) <= c2 && RetryAt(f2, backoffS) <= c3
    ensures var t3 := Run(map[id := t], Round(id, worker, c1, lockS, error, f1, backoffS)
                                        + Round(id, worker, c2, lockS, error, f2, backoffS)
                                        + Round(id, worker, c3, lockS, error, f3, backoffS));
      && id in t3 && t3[id].status == Failed && t3[id].attempts == 3
      && forall i :: 0 <= i < |later| ==> Picked(Run(t3, later[..i]), later[i]) != Some(id)
  {
    var r1 := Round(id, worker, c1, lockS, error, f1, backoffS);
    var r2 := Round(id, worker, c2, lockS, error, f2, backoffS);
    var r3 := Round(id, worker, c3, lockS, error, f3, backoffS);
    RoundOnSingleRow(id, t, worker, c1, lockS, error, f1, backoffS);
    var t1 := Run(map[id := t], r1);
    assert t1 == map[id := t1[id]];
    RoundOnSingleRow(id, t1[id], worker, c2, lockS, error, f2, backoffS);
    var t2 := Run(map[id := t1[id]], r2);
    assert t2 == map[id := t2[id]];
    RoundOnSingleRow(id, t2[id], worker, c3, lockS, error, f3, backoffS);
    var t3 := Run(map[id := t2[id]], r3);
    RunAppend(map[id := t], r1, r2);
    RunAppend(map[id := t], r1 + r2, r3);
    assert Run(map[id := t], r1 + r2 + r3) == t3;
    ExhaustedNeverClaimed(t3, id, later);
  }

  /** Running `xs + ys` is running `xs` and then `ys`. */
  lemma {:induction false} RunAppend(table: Table, xs: seq<Op>, ys: seq<Op>)
    ensures Run(table, xs + ys) == Run(Run(table, xs), ys)
    decreases |ys|
  {
    if ys == [] {
      assert xs + ys == xs;
    } else {
      var init := ys[..|ys| - 1];
      assert (xs + ys)[..|xs + ys| - 1] == xs + init;
      RunAppend(table, xs, init);
    }
  }
}
