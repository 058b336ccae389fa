/**
 What becomes of a task whose worker crashed, or whose retry is due: recovery makes it claimable again, or
 fails it for good, and the next claim of it is the next attempt.
 */
module QueueRecovery {
  import opened Wrappers
  import opened Json
  import opened Queue
  import opened QueueRuns
  import opened QueueLaws

  /** The worker is gone: the lease is over, or there is none. */
  predicate Crashed(row: Task, stamp: int) {
    row.status == Active && (row.leaseExpiresAt.Some? ==> row.leaseExpiresAt.value <= stamp)
  }

  /** A failed attempt has waited out its delay. */
  predicate DueAgain(row: Task, stamp: int) {
    row.status == WaitingRetry && row.nextRunAt.Some? && row.nextRunAt.value <= stamp
  }

  /** Claimable at once by a worker of its type, with the attempts and the memory that it had. */
  predicate Claimable(row: Task, was: Task, stamp: int) {
    && Eligible(row, {was.identity.taskType}, stamp)
    && row.attempts == was.attempts && row.maxAttempts == was.maxAttempts && row.memory == was.memory
  }

  /**
   A crashed task, or one whose retry is due, is claimable after recovery exactly while attempts remain;
   otherwise it has failed.  Any other row is as it was.
   */
  lemma RecoveryBringsBack(s: Store, ids: seq<TaskId>, now: int, id: TaskId)
    requires RecoveryQuery(s, now, ids) && id in s.rows
    ensures var row, s2 := s.rows[id], Recover(s, ids, now);
      && id in s2.rows
      && (if Crashed(row, Stamp(now)) || DueAgain(row, Stamp(now)) then
            && (Eligible(s2.rows[id], {row.identity.taskType}, Stamp(now)) <==> row.attempts < row.maxAttempts)
            && (row.attempts < row.maxAttempts ==> Claimable(s2.rows[id], row, Stamp(now)))
            && (row.attempts >= row.maxAttempts ==> s2.rows[id].status == Failed)
          else s2.rows[id] == row)
  {
    RecoverRows(s, ids, now);
  }

  // ---------------------------------------------------------------- over whole runs

  /** Waiting for a worker, and nothing else: not cancelled, not taken. */
  predicate StillWaits(row: Task, was: Task) {
    row == was || row.status == Canceled
  }

  lemma WaitsThrough(c: Config, s: Store, op: Op, now: int, id: TaskId)
    requires KeysOk(s) && !op.OpClaim? && (op.OpCreate? ==> op.status in {New, Ready})
    requires op.OpRecover? ==> RecoveryQuery(s, now, op.ids)
    requires id in s.rows && s.rows[id].status == Ready && !s.rows[id].Continuation()
    ensures var s2 := Committed(c, s, op, now); id in s2.rows && StillWaits(s2.rows[id], s.rows[id])
  {
    if op.OpEnqueue? || op.OpCreate? || op.OpEnqueueWaiting? {
      WaitsThroughCreation(c, s, op, now, id);
    } else if op.OpRecover? {
      RecoverRows(s, op.ids, now);
    } else {
      WaitsThroughOthers(c, s, op, now, id);
    }
  }

  lemma WaitsThroughCreation(c: Config, s: Store, op: Op, now: int, id: TaskId)
    requires KeysOk(s) && (op.OpEnqueue? || op.OpCreate? || op.OpEnqueueWaiting?)
    requires op.OpCreate? ==> op.status in {New, Ready}
    requires id in s.rows && s.rows[id].status == Ready
    ensures var s2 := Committed(c, s, op, now); id in s2.rows && s2.rows[id] == s.rows[id]
  {
    CreateInserts(s, op.data, op.drawn, if op.OpCreate? then op.status else New, now);
    hide Create;
  }

  /** Nobody holds the task, so no holder's operation and no reply reaches it. */
  lemma WaitsThroughOthers(c: Config, s: Store, op: Op, now: int, id: TaskId)
    requires !op.OpClaim? && !op.OpEnqueue? && !op.OpCreate? && !op.OpEnqueueWaiting? && !op.OpRecover?
    requires id in s.rows && s.rows[id].status == Ready
    ensures var s2 := Committed(c, s, op, now); id in s2.rows && StillWaits(s2.rows[id], s.rows[id])
  {
    hide WithMemory, PendingInterrupts;
  }

  /** None of the leases handed out from state `m` to state `n` is for this task. */
  ghost predicate NotClaimed(r: Trace, m: nat, n: nat, id: TaskId)
    requires m < |r.states| && n < |r.states|
  {
    forall l :: l in r.states[n].issued && l !in r.states[m].issued ==> l.task != id
  }

  lemma IssuedGrows(c: Config, r: Trace, n: nat)
    requires IsTrace(c, r) && n < |r.steps|
    ensures r.states[n].issued <= r.states[n + 1].issued
  {
    assert StepAt(c, r, n);
    hide Claim, Committed, LegalOp;
  }

  /** A ready task stays as it is until it is claimed, unless somebody cancels it. */
  lemma {:induction false} ReadyWaits(c: Config, r: Trace, m: nat, n: nat, id: TaskId)
    requires IsTrace(c, r) && m <= n <= |r.steps| && id in r.states[m].store.rows
    requires r.states[m].store.rows[id].status == Ready && !r.states[m].store.rows[id].Continuation()
    requires NotClaimed(r, m, n, id)
    ensures r.states[m].issued <= r.states[n].issued
    ensures id in r.states[n].store.rows && StillWaits(r.states[n].store.rows[id], r.states[m].store.rows[id])
  {
    if m < n {
      IssuedGrows(c, r, n - 1);
      assert forall l :: l in r.states[n - 1].issued ==> l in r.states[n].issued;
      ReadyWaits(c, r, m, n - 1, id);
      WaitsOneStep(c, r, m, n - 1, id);
    }
  }

  lemma WaitsOneStep(c: Config, r: Trace, m: nat, n: nat, id: TaskId)
    requires IsTrace(c, r) && m <= n < |r.steps| && id in r.states[m].store.rows && id in r.states[n].store.rows
    requires r.states[m].store.rows[id].status == Ready && !r.states[m].store.rows[id].Continuation()
    requires StillWaits(r.states[n].store.rows[id], r.states[m].store.rows[id])
    requires r.states[m].issued <= r.states[n].issued && NotClaimed(r, m, n + 1, id)
    ensures id in r.states[n + 1].store.rows
    ensures StillWaits(r.states[n + 1].store.rows[id], r.states[m].store.rows[id])
  {
    Reachable(c, r, n);
    assert StepAt(c, r, n);
    var s, op, now := r.states[n].store, r.steps[n].op, r.steps[n].now;
    assert KeysOk(s) && RowsOk(s);
    StepTame(c, r, n);
    if s.rows[id].status == Canceled {
      assert r.states[n + 1].store.rows[id] == s.rows[id];
    } else if op.OpClaim? {
      ClaimChange(c, s, op.types, op.token, now);
      var claim := Claim(c, s, op.types, op.token, now);
      if claim.Success? && claim.value.1.Some? {
        assert r.states[n + 1].issued[|r.states[n].issued|] == claim.value.1.value;
        assert claim.value.1.value.task != id;
      }
    } else {
      hide Inv, Committed, StillWaits;
      WaitsThrough(c, s, op, now, id);
    }
  }

  /** The recovery at step `n` takes the row: its worker crashed, or its retry is due. */
  ghost predicate TakenUp(r: Trace, n: nat, id: TaskId) {
    && n < |r.steps| && n < |r.states| && r.steps[n].op.OpRecover? && id in r.states[n].store.rows
    && var row := r.states[n].store.rows[id];
       Crashed(row, Stamp(r.steps[n].now)) || DueAgain(row, Stamp(r.steps[n].now))
  }

  /**
   In every run, a task that recovery takes up while attempts remain is claimable at once and stays so until
   it is claimed or cancelled.
   */
  lemma CrashedTaskComesBack(c: Config, r: Trace, n: nat, m: nat, id: TaskId)
    requires IsTrace(c, r) && TakenUp(r, n, id) && n < m <= |r.steps| && NotClaimed(r, n + 1, m, id)
    requires r.states[n].store.rows[id].attempts < r.states[n].store.rows[id].maxAttempts
    ensures id in r.states[m].store.rows
    ensures var row, back := r.states[n].store.rows[id], r.states[m].store.rows[id];
      back.status == Canceled || Claimable(back, row, Stamp(r.steps[n].now))
  {
    RecoveredState(c, r, n, id);
    ReadyWaits(c, r, n + 1, m, id);
  }

  lemma RecoveredState(c: Config, r: Trace, n: nat, id: TaskId)
    requires IsTrace(c, r) && TakenUp(r, n, id)
    ensures var row, s2 := r.states[n].store.rows[id], r.states[n + 1].store;
      && id in s2.rows && !row.Continuation()
      && (if row.attempts < row.maxAttempts then Claimable(s2.rows[id], row, Stamp(r.steps[n].now))
          else s2.rows[id].status == Failed)
  {
    Reachable(c, r, n);
    assert StepAt(c, r, n);
    assert RowOk(r.states[n].store.rows[id]);
    RecoveryBringsBack(r.states[n].store, r.steps[n].op.ids, r.steps[n].now, id);
  }

  /** In every run, the first lease of the task after that is for its next attempt. */
  lemma NextLeaseIsNextAttempt(c: Config, r: Trace, n: nat, m: nat, id: TaskId)
    requires IsTrace(c, r) && TakenUp(r, n, id) && n < m < |r.steps| && NotClaimed(r, n + 1, m, id)
    requires |r.states[m + 1].issued| > |r.states[m].issued|
    requires r.states[m + 1].issued[|r.states[m].issued|].task == id
    ensures var row, l := r.states[n].store.rows[id], r.states[m + 1].issued[|r.states[m].issued|];
      && row.attempts < row.maxAttempts && l.attempt == row.attempts + 1
      && id in r.states[m + 1].store.rows && Owns(r.states[m + 1].store, l)
      && r.states[m + 1].store.rows[id].memory == row.memory
  {
    RecoveredState(c, r, n, id);
    assert StepAt(c, r, m);
    var s, op := r.states[m].store, r.steps[m].op;
    hide Claimable, Crashed, DueAgain, StillWaits, LegalOp, Committed;
    assert op.OpClaim? && Claim(c, s, op.types, op.token, r.steps[m].now).Success?
      && Claim(c, s, op.types, op.token, r.steps[m].now).value.1 == Some(r.states[m + 1].issued[|r.states[m].issued|]);
    UnmarkedClaim(c, s, op.types, op.token, r.steps[m].now);
    hide Claim, NotClaimed;
    if r.states[n].store.rows[id].attempts < r.states[n].store.rows[id].maxAttempts {
      CrashedTaskComesBack(c, r, n, m, id);
      WasWaiting(c, r, n, m, id);
    } else {
      TerminalIsFinal(c, r, n + 1, m, id);
    }
  }

  /** A claim of an unmarked row is its next attempt, and the row was ready. */
  lemma UnmarkedClaim(c: Config, s: Store, types: set<string>, token: Token, now: int)
    requires Claim(c, s, types, token, now).Success? && Claim(c, s, types, token, now).value.1.Some?
    ensures var (s2, lease) := Claim(c, s, types, token, now).value; var id := lease.value.task;
      && id in s.rows && id in s2.rows && s.rows[id].status == Ready && Owns(s2, lease.value)
      && (!s.rows[id].Continuation() ==>
            lease.value.attempt == s.rows[id].attempts + 1 && s2.rows[id].memory == s.rows[id].memory)
  {
  }

  /** What is still waiting has no marker, and the attempts and memory that it had. */
  lemma WasWaiting(c: Config, r: Trace, n: nat, m: nat, id: TaskId)
    requires IsTrace(c, r) && TakenUp(r, n, id) && n < m <= |r.steps| && id in r.states[m].store.rows
    requires r.states[m].store.rows[id].status == Ready
    requires var row, back := r.states[n].store.rows[id], r.states[m].store.rows[id];
      back.status == Canceled || Claimable(back, row, Stamp(r.steps[n].now))
    ensures var row, back := r.states[n].store.rows[id], r.states[m].store.rows[id];
      !back.Continuation() && back.attempts == row.attempts && back.memory == row.memory
  {
    RecoveredState(c, r, n, id);
    hide TakenUp, IsTrace;
  }

  /** In every run, a task that recovery takes up with no attempt left has failed, and stays so. */
  lemma SpentTaskFails(c: Config, r: Trace, n: nat, m: nat, id: TaskId)
    requires IsTrace(c, r) && TakenUp(r, n, id) && n < m <= |r.steps|
    requires r.states[n].store.rows[id].attempts >= r.states[n].store.rows[id].maxAttempts
    ensures id in r.states[m].store.rows && r.states[m].store.rows[id].status == Failed
  {
    RecoveredState(c, r, n, id);
    TerminalIsFinal(c, r, n + 1, m, id);
  }
}
