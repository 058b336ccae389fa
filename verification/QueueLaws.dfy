/** What every run of the queue keeps: fencing, attempt conservation and the audit trail. */
module QueueLaws {
  import opened Wrappers
  import opened Json
  import opened Queue
  import opened QueueRuns

  lemma {:induction false} Reachable(c: Config, r: Trace, n: nat)
    requires IsTrace(c, r) && n <= |r.steps|
    ensures Inv(r.states[n])
  {
    if n == 0 {
      assert Inv(START);
    } else {
      Reachable(c, r, n - 1);
      assert StepAt(c, r, n - 1);
      ApplyKeeps(c, r.states[n - 1], r.steps[n - 1]);
    }
  }

  // ---------------------------------------------------------------- at most one owner

  /** Two issued leases of one task never both pass, even on different clocks. */
  lemma LeaseMutualExclusion(c: Config, r: Trace, n: nat, l1: Lease, l2: Lease, t1: int, t2: int)
    requires IsTrace(c, r) && n <= |r.steps|
    requires var sys := r.states[n];
      && l1 in sys.issued && l2 in sys.issued && l1.task == l2.task
      && Passes(sys.store, l1, t1) && Passes(sys.store, l2, t2)
    ensures l1 == l2
  {
    Reachable(c, r, n);
    SameToken(r.states[n].issued, l1, l2);
  }

  lemma SameToken(issued: seq<Lease>, l1: Lease, l2: Lease)
    requires forall i, j :: 0 <= i < j < |issued| ==> issued[i].worker != issued[j].worker
    requires l1 in issued && l2 in issued && l1.worker == l2.worker
    ensures l1 == l2
  {
    var i :| 0 <= i < |issued| && issued[i] == l1;
    var j :| 0 <= j < |issued| && issued[j] == l2;
    assert !(i < j) && !(j < i);
  }

  /** A lease that owns its task is that task's latest claim and carries the row's attempt number. */
  lemma OwnerIsLatest(sys: Sys, l: Lease)
    requires Inv(sys) && l in sys.issued && Owns(sys.store, l)
    ensures exists i :: LatestClaim(sys.issued, l.task, i) && sys.issued[i] == l
    ensures sys.store.rows[l.task].attempts == l.attempt
  {
    var i :| OwnedBy(sys.store.rows[l.task], sys.issued, l.task, i);
    assert sys.issued[i] in sys.issued;
    SameToken(sys.issued, l, sys.issued[i]);
    assert LatestClaim(sys.issued, l.task, i);
  }

  /** Once a later claim of the task has been committed, an earlier lease passes no fence. */
  lemma SupersededLeaseIsFenced(c: Config, r: Trace, n: nat, i: nat, j: nat, now: int)
    requires IsTrace(c, r) && n <= |r.steps|
    requires var issued := r.states[n].issued; i < j < |issued| && issued[i].task == issued[j].task
    ensures !Passes(r.states[n].store, r.states[n].issued[i], now)
  {
    Reachable(c, r, n);
    var sys := r.states[n];
    if Owns(sys.store, sys.issued[i]) {
      OwnerIsLatest(sys, sys.issued[i]);
    }
  }

  // ---------------------------------------------------------------- lost leases stay lost

  /**
   If an issued lease owns its task after a step, it owned it before, its attempt number did not
   move, and its expiry moved only if the lease passed the fence at this very step.
   */
  ghost predicate OwnershipFrom(s: Store, s2: Store, l: Lease, now: int) {
    Owns(s2, l) ==>
      && Owns(s, l) && s2.rows[l.task].attempts == s.rows[l.task].attempts
      && (s2.rows[l.task].leaseExpiresAt == s.rows[l.task].leaseExpiresAt || Passes(s, l, now))
  }

  /** Rows are never deleted, keep their identity, and do not change once terminal. */
  ghost predicate Tame(s: Store, s2: Store, issued: seq<Lease>, now: int) {
    && (forall id :: id in s.rows ==>
          && id in s2.rows && s2.rows[id].identity == s.rows[id].identity
          && (Terminal(s.rows[id].status) ==> s2.rows[id] == s.rows[id]))
    && (forall l :: l in issued ==> OwnershipFrom(s, s2, l, now))
  }

  lemma CreateTame(s: Store, issued: seq<Lease>, data: TaskCreate, drawn: TaskId, status: Status, now: int)
    requires KeysOk(s) && status in {New, Ready}
    ensures Tame(s, KeptNew(s, Create(s, data, drawn, status, now)), issued, now)
  {
    CreateInserts(s, data, drawn, status, now);
  }

  lemma EnqueueTame(s: Store, issued: seq<Lease>, data: TaskCreate, status: Status, drawn: TaskId, now: int)
    requires KeysOk(s)
    ensures Tame(s, KeptNew(s, Enqueue(s, data, status, drawn, now)), issued, now)
  {
    CreateInserts(s, data, drawn, New, now);
  }

  lemma EnqueueWaitingTame(c: Config, s: Store, issued: seq<Lease>, data: TaskCreate, m: Memory, drawn: TaskId,
      now: int)
    requires KeysOk(s)
    ensures Tame(s, KeptNew(s, EnqueueWaiting(c, s, data, m, drawn, now)), issued, now)
  {
    CreateInserts(s, data, drawn, New, now);
  }

  /** Only the passing lease itself can push its expiry: two issued leases with one token are one lease. */
  lemma HeartbeatTame(c: Config, s: Store, issued: seq<Lease>, h: Lease, now: int)
    requires TokensOk(s, issued) && h in issued
    ensures Tame(s, Kept(s, Heartbeat(c, s, h, now)), issued, now)
  {
    forall l | l in issued ensures OwnershipFrom(s, Kept(s, Heartbeat(c, s, h, now)), l, now) {
      if Passes(s, h, now) && l.task == h.task && l.worker == h.worker {
        SameToken(issued, l, h);
      }
    }
  }

  lemma SaveTame(c: Config, s: Store, issued: seq<Lease>, h: Lease, m: Memory, now: int)
    ensures Tame(s, Kept(s, SaveMemory(c, s, h, m, now)), issued, now)
  {
  }

  lemma CompleteInTransactionTame(c: Config, s: Store, issued: seq<Lease>, h: Lease, m: Memory, waiting: bool, now: int)
    ensures Tame(s, Kept(s, CompleteInTransaction(c, s, h, m, waiting, now)), issued, now)
  {
  }

  lemma FailTame(s: Store, issued: seq<Lease>, h: Lease, retryable: bool, delay: nat, now: int)
    ensures Tame(s, Kept(s, Fail(s, h, retryable, delay, now)), issued, now)
  {
  }

  lemma ReleaseTame(c: Config, s: Store, issued: seq<Lease>, h: Lease, now: int)
    ensures Tame(s, Kept(s, Release(c, s, h, now)), issued, now)
  {
  }

  lemma AbortTame(s: Store, issued: seq<Lease>, h: Lease, now: int)
    ensures Tame(s, Kept(s, Abort(s, h, now)), issued, now)
  {
  }

  lemma RecoverTame(s: Store, issued: seq<Lease>, ids: seq<TaskId>, now: int)
    requires RecoveryQuery(s, now, ids)
    ensures Tame(s, Recover(s, ids, now), issued, now)
  {
    RecoverRows(s, ids, now);
  }

  lemma ResumeTame(c: Config, s: Store, issued: seq<Lease>, id: TaskId, i: string, v: Json, now: int)
    ensures Tame(s, Kept(s, Resume(c, s, id, i, v, now)), issued, now)
  {
  }

  lemma CancelTame(s: Store, issued: seq<Lease>, id: TaskId, now: int)
    ensures Tame(s, Kept(s, Cancel(s, id, now)), issued, now)
  {
  }

  lemma CommittedTame(c: Config, s: Store, issued: seq<Lease>, op: Op, now: int)
    requires Good(s, issued) && !op.OpClaim? && LegalOp(Sys(s, issued, now), op, now)
    ensures Tame(s, Committed(c, s, op, now), issued, now)
  {
    match op {
      case OpEnqueue(d, st, id) => EnqueueTame(s, issued, d, st, id, now);
      case OpCreate(d, st, id) => CreateTame(s, issued, d, id, st, now);
      case OpEnqueueWaiting(d, m, id) => EnqueueWaitingTame(c, s, issued, d, m, id, now);
      case OpHeartbeat(h) => HeartbeatTame(c, s, issued, h, now);
      case OpSave(h, m) => SaveTame(c, s, issued, h, m, now);
      case OpComplete(h, m, w) => CompleteInTransactionTame(c, s, issued, h, m, w, now);
      case OpFail(h, r, d) => FailTame(s, issued, h, r, d, now);
      case OpRelease(h) => ReleaseTame(c, s, issued, h, now);
      case OpAbort(h) => AbortTame(s, issued, h, now);
      case OpRecover(ids) => RecoverTame(s, issued, ids, now);
      case OpResume(id, i, v) => ResumeTame(c, s, issued, id, i, v, now);
      case OpCancel(id) => CancelTame(s, issued, id, now);
    }
  }

  lemma ClaimTame(c: Config, s: Store, issued: seq<Lease>, types: set<string>, token: Token, now: int)
    requires RowsOk(s) && forall l :: l in issued ==> l.worker != token
    ensures var r := Claim(c, s, types, token, now); r.Success? ==> Tame(s, r.value.0, issued, now)
  {
    ClaimChange(c, s, types, token, now);
  }

  lemma ApplyTame(c: Config, sys: Sys, step: Step)
    requires Inv(sys) && Legal(sys, step)
    ensures Tame(sys.store, Apply(c, sys, step).store, sys.issued, step.now)
    ensures forall l :: l in sys.issued ==> l in Apply(c, sys, step).issued
  {
    match step.op {
      case OpClaim(types, token) => ClaimTame(c, sys.store, sys.issued, types, token, step.now);
      case _ => CommittedTame(c, sys.store, sys.issued, step.op, step.now);
    }
  }

  lemma StepTame(c: Config, r: Trace, n: nat)
    requires IsTrace(c, r) && n < |r.steps|
    ensures Tame(r.states[n].store, r.states[n + 1].store, r.states[n].issued, r.states[n + 1].now)
    ensures r.states[n].now <= r.states[n + 1].now
    ensures forall l :: l in r.states[n].issued ==> l in r.states[n + 1].issued
  {
    Reachable(c, r, n);
    assert StepAt(c, r, n);
    hide Inv, LegalOp, Tame;
    ApplyTame(c, r.states[n], r.steps[n]);
  }

  /** Losing ownership is final: no clock assumption is used. */
  lemma {:induction false} LostOwnershipIsFinal(c: Config, r: Trace, m: nat, n: nat, l: Lease)
    requires IsTrace(c, r) && m <= n <= |r.steps| && l in r.states[m].issued && !Owns(r.states[m].store, l)
    ensures l in r.states[n].issued && !Owns(r.states[n].store, l)
  {
    if m < n {
      LostOwnershipIsFinal(c, r, m, n - 1, l);
      StepTame(c, r, n - 1);
    }
  }

  /**
   A lease that fails the fence once, by expiry or by loss of ownership, fails it for ever after,
   because the clock does not go back.  Continuation claims reuse attempt numbers; tokens decide.
   */
  lemma FencedOutStaysOut(c: Config, r: Trace, m: nat, n: nat, l: Lease, t: int)
    requires IsTrace(c, r) && m <= n <= |r.steps| && l in r.states[m].issued
    requires !Passes(r.states[m].store, l, r.states[m].now) && t >= r.states[n].now
    ensures !Passes(r.states[n].store, l, t)
  {
    FencedOutFrom(c, r, m, n, l);
  }

  lemma {:induction false} FencedOutFrom(c: Config, r: Trace, m: nat, n: nat, l: Lease)
    requires IsTrace(c, r) && m <= n <= |r.steps| && l in r.states[m].issued
      && !Passes(r.states[m].store, l, r.states[m].now)
    ensures l in r.states[n].issued && !Passes(r.states[n].store, l, r.states[n].now)
  {
    if m < n {
      FencedOutFrom(c, r, m, n - 1, l);
      StepTame(c, r, n - 1);
    }
  }

  /**
   Attempt numbers cannot replace tokens: a release followed by the next claim of the task hands out
   a second lease with the very same attempt number.
   */
  lemma ContinuationRepeatsAttempt(c: Config, sys: Sys, l: Lease, types: set<string>, token: Token, now: int)
    requires Inv(sys) && l in sys.issued && Passes(sys.store, l, now)
    requires Release(c, sys.store, l, now).Success?
    requires var s := Release(c, sys.store, l, now).value;
      types != {} && Next(s, types, Stamp(now)) == Some(l.task) && Claim(c, s, types, token, now).Success?
    ensures var r := Claim(c, Release(c, sys.store, l, now).value, types, token, now).value.1;
      r.Some? && r.value.task == l.task && r.value.attempt == l.attempt && r.value.worker == token
  {
  }

  // ---------------------------------------------------------------- attempts and the marker

  /**
   Successful claims are attempts plus continuation claims; releases and effective resumes are
   continuation claims plus the marker still waiting; attempts never exceed the maximum.
   */
  lemma AttemptConservation(c: Config, r: Trace, n: nat, id: TaskId)
    requires IsTrace(c, r) && n <= |r.steps| && id in r.states[n].store.rows
    ensures var s := r.states[n].store; var row := s.rows[id];
      && Claims(s.log, id) == row.attempts + ContinuationClaims(s.log, id)
      && Continuations(s.log, id) == ContinuationClaims(s.log, id) + One(row.Continuation())
      && (row.Continuation() ==> row.status in {Ready, Canceled})
      && row.attempts <= row.maxAttempts
  {
    Reachable(c, r, n);
    var s := r.states[n].store;
    assert RowCounts(s.log, id, s.rows[id]) && RowOk(s.rows[id]);
  }

  /** The attempts-exhausted branch of a claim is never taken: a claim returns None only for want of work. */
  lemma ClaimNeverExhausts(c: Config, r: Trace, n: nat, types: set<string>, token: Token, now: int)
    requires IsTrace(c, r) && n <= |r.steps|
    ensures var s := r.states[n].store;
      && (forall e :: e in s.log ==> e.event != AttemptsExhausted)
      && (Claim(c, s, types, token, now) == Success((s, None))
          <==> forall id :: id in s.rows ==> !Eligible(s.rows[id], types, Stamp(now)))
  {
    Reachable(c, r, n);
    var s := r.states[n].store;
    ClaimChange(c, s, types, token, now);
    if types != {} && Next(s, types, Stamp(now)).Some? {
      var id := Next(s, types, Stamp(now)).value;
      assert RowOk(s.rows[id]) && !Exhausted(s.rows[id]);
    }
  }

  /** The claimed row is the one first in order, and the order has exactly one first row. */
  lemma FirstIsUnique(s: Store, types: set<string>, stamp: int, a: TaskId, b: TaskId)
    requires First(s, types, stamp, a) && First(s, types, stamp, b)
    ensures a == b
  {
    assert Before(s.rows, a, b) && Before(s.rows, b, a);
  }

  // ---------------------------------------------------------------- the audit trail

  /** Replaying a task's log entries, each continuing the previous one, yields the stored row. */
  lemma AuditReplay(c: Config, r: Trace, n: nat, id: TaskId)
    requires IsTrace(c, r) && n <= |r.steps|
    ensures var s := r.states[n].store;
      Replay(s.log, id) == if id in s.rows then Some((s.rows[id].status, s.rows[id].version)) else None
  {
    Reachable(c, r, n);
  }

  // ---------------------------------------------------------------- recovery and terminal tasks

  /** Ready again, or failed where the attempts are used up; in any case nobody's, and without a time to wait for. */
  predicate PutBack(row: Task, back: Task, now: int) {
    && back == row.(status := back.status, worker := None, leaseExpiresAt := None, heartbeatAt := None,
                    nextRunAt := None, completedAt := back.completedAt, version := row.version + 1)
    && (row.attempts < row.maxAttempts ==> back.status == Ready && back.completedAt == row.completedAt)
    && (row.attempts >= row.maxAttempts ==> back.status == Failed && back.completedAt == Some(Stamp(now)))
  }

  /** Recovery changes exactly the dead leases and due retries, whatever order they come in. */
  lemma RecoveryIsExact(s: Store, ids: seq<TaskId>, now: int)
    requires RecoveryQuery(s, now, ids)
    ensures var rows := Recover(s, ids, now).rows;
      && rows.Keys == s.rows.Keys
      && forall id :: id in s.rows ==>
           if Recoverable(s.rows[id], Stamp(now)) then PutBack(s.rows[id], rows[id], now) else rows[id] == s.rows[id]
  {
    hide Recoverable;
    RecoverRows(s, ids, now);
  }

  /** In particular no live lease and no human wait is touched. */
  lemma RecoverySparesLiveLeases(s: Store, ids: seq<TaskId>, now: int, l: Lease)
    requires RecoveryQuery(s, now, ids)
    ensures Passes(s, l, now) ==> Passes(Recover(s, ids, now), l, now)
    ensures l.task in s.rows && s.rows[l.task].status == WaitingHuman ==>
      l.task in Recover(s, ids, now).rows && Recover(s, ids, now).rows[l.task] == s.rows[l.task]
  {
    RecoverRows(s, ids, now);
  }

  /** A finished task is never changed again; rows are never deleted; what a task is for never changes. */
  lemma {:induction false} TerminalIsFinal(c: Config, r: Trace, m: nat, n: nat, id: TaskId)
    requires IsTrace(c, r) && m <= n <= |r.steps| && id in r.states[m].store.rows
    ensures var row, end := r.states[m].store.rows[id], r.states[n].store;
      && id in end.rows && end.rows[id].identity == row.identity
      && (row.status in {Succeeded, Aborted, Failed, Canceled} ==> end.rows[id] == row)
      && (row.status in {Succeeded, Aborted, Failed, Canceled} <==> row.completedAt.Some?)
  {
    Reachable(c, r, m);
    assert RowOk(r.states[m].store.rows[id]);
    if m < n {
      TerminalIsFinal(c, r, m, n - 1, id);
      StepTame(c, r, n - 1);
    }
  }

  /** Repeating the same human reply changes nothing, in whatever state the task is by then. */
  lemma ResumeIsIdempotent(c: Config, s: Store, id: TaskId, interrupt: string, value: Json, now: int, later: int)
    requires Resume(c, s, id, interrupt, value, now).Success?
    ensures var s2 := Resume(c, s, id, interrupt, value, now).value;
      Resume(c, s2, id, interrupt, value, later) == Success(s2)
  {
  }

  // ---------------------------------------------------------------- what operations mean for each other

  /** The database keeps milliseconds of a clock that reads microseconds, cut off and not rounded. */
  lemma StampCutsOff(now: int)
    ensures Stamp(now) * 1000 <= now < Stamp(now) * 1000 + 1000
  {
  }

  /** Nothing but the row of this task changes, and the task keeps its identity. */
  ghost predicate OnlyTask(s: Store, s2: Store, id: TaskId) {
    && id in s.rows && id in s2.rows && s2.rows == s.rows[id := s2.rows[id]] && s2.keys == s.keys
    && s2.rows[id].identity == s.rows[id].identity
  }

  /** A claim hands out a lease that passes until its expiry and not later, on the row that was first. */
  lemma ClaimGivesLease(c: Config, s: Store, types: set<string>, token: Token, now: int, t: int)
    requires var r := Claim(c, s, types, token, now); r.Success? && r.value.1.Some?
    ensures var (s2, lease) := Claim(c, s, types, token, now).value; var l := lease.value;
      && First(s, types, Stamp(now), l.task) && OnlyTask(s, s2, l.task) && l.worker == token
      && l.taskType == s.rows[l.task].identity.taskType && l.payload == s.rows[l.task].identity.payload
      && (Passes(s2, l, t) <==> Stamp(t) < Stamp(now + c.leaseMicros))
  {
  }

  /** The only eligible row is the one that is claimed. */
  lemma ClaimsOnly(c: Config, s: Store, types: set<string>, token: Token, now: int, id: TaskId)
    requires id in s.rows && Eligible(s.rows[id], types, Stamp(now)) && !Exhausted(s.rows[id])
    requires forall o :: o in s.rows && Eligible(s.rows[o], types, Stamp(now)) ==> o == id
    requires types != {} && Claimed(c, s.rows[id], token, now).Success?
    ensures var row := Claimed(c, s.rows[id], token, now).value;
      Claim(c, s, types, token, now)
        == Success((Audited(s, id, row, TaskClaimed, Ready),
                    Some(Lease(id, token, row.attempts, row.identity.taskType, row.identity.payload))))
  {
    hide Eligible;
    assert Next(s, types, Stamp(now)) == Some(id);
  }

  /** If it succeeded, the lease had passed, and now owns nothing. */
  ghost predicate Ended(s: Store, r: Result<Store, Error>, l: Lease, now: int) {
    r.Success? ==> Passes(s, l, now) && OnlyTask(s, r.value, l.task) && !Owns(r.value, l)
  }

  /** Whatever ends a lease's work ends the lease: it owns nothing afterwards, so no fence lets it in again. */
  lemma EndedLeaseOwnsNothing(c: Config, s: Store, l: Lease, m: Memory, flag: bool, delay: nat, now: int)
    ensures Ended(s, Complete(c, s, l, m, flag, now), l, now) && Ended(s, Fail(s, l, flag, delay, now), l, now)
    ensures Ended(s, Release(c, s, l, now), l, now) && Ended(s, Abort(s, l, now), l, now)
  {
  }

  /** The operations by which a worker ends its work on a task. */
  predicate EndsLease(op: Op, l: Lease) {
    || (op.OpComplete? && op.lease == l) || (op.OpFail? && op.lease == l)
    || (op.OpRelease? && op.lease == l) || (op.OpAbort? && op.lease == l)
  }

  /** In every run a lease that was ended by its holder passes no fence at any later moment, on any clock. */
  lemma EndedLeaseNeverReturns(c: Config, r: Trace, m: nat, n: nat, l: Lease, t: int)
    requires IsTrace(c, r) && m < n <= |r.steps| && l in r.states[m].issued && EndsLease(r.steps[m].op, l)
    requires r.states[m + 1].store != r.states[m].store
    ensures !Passes(r.states[n].store, l, t)
  {
    assert StepAt(c, r, m);
    EndingTakesOwnership(c, r.states[m].store, r.steps[m].op, l, r.steps[m].now);
    StepTame(c, r, m);
    LostOwnershipIsFinal(c, r, m + 1, n, l);
  }

  lemma EndingTakesOwnership(c: Config, s: Store, op: Op, l: Lease, now: int)
    requires EndsLease(op, l)
    ensures var s2 := Committed(c, s, op, now); s2 != s ==> !Owns(s2, l)
  {
    var retryable, delay := op.OpFail? && op.retryable, if op.OpFail? then op.delay else 0;
    var m, waiting := if op.OpComplete? then op.memory else map[], op.OpComplete? && op.waiting;
    EndedLeaseOwnsNothing(c, s, l, m, if op.OpFail? then retryable else waiting, delay, now);
  }

  /** What renews a lease: nothing but a heartbeat of its holder while it still passes. */
  ghost predicate RenewedOnly(c: Config, s: Store, s2: Store, op: Op, l: Lease, now: int) {
    Owns(s2, l) ==>
      || (l.task in s.rows && s2.rows[l.task].leaseExpiresAt == s.rows[l.task].leaseExpiresAt)
      || (op == OpHeartbeat(l) && Passes(s, l, now)
          && s2.rows[l.task].leaseExpiresAt == Some(Stamp(now + c.leaseMicros)))
  }

  lemma HolderRenewsOnly(c: Config, s: Store, op: Op, l: Lease, now: int)
    requires op.OpHeartbeat? || op.OpSave? || op.OpComplete? || op.OpFail? || op.OpRelease? || op.OpAbort?
    requires op.lease.worker == l.worker ==> op.lease == l
    ensures RenewedOnly(c, s, Committed(c, s, op, now), op, l, now)
  {
  }

  lemma CreationRenewsNothing(c: Config, s: Store, op: Op, l: Lease, now: int)
    requires KeysOk(s) && (op.OpEnqueue? || op.OpCreate? || op.OpEnqueueWaiting?)
      && (op.OpCreate? ==> op.status in {New, Ready})
    ensures RenewedOnly(c, s, Committed(c, s, op, now), op, l, now)
  {
    CreateInserts(s, op.data, op.drawn, if op.OpCreate? then op.status else New, now);
  }

  lemma RecoveryRenewsNothing(c: Config, s: Store, ids: seq<TaskId>, l: Lease, now: int)
    requires RecoveryQuery(s, now, ids)
    ensures RenewedOnly(c, s, Committed(c, s, OpRecover(ids), now), OpRecover(ids), l, now)
  {
    RecoverRows(s, ids, now);
  }

  lemma ClaimRenewsNothing(c: Config, s: Store, types: set<string>, token: Token, l: Lease, now: int)
    requires l.worker != token
    ensures var r := Claim(c, s, types, token, now);
      r.Success? ==> RenewedOnly(c, s, r.value.0, OpClaim(types, token), l, now)
  {
  }

  /** In every run the expiry of a held lease moves only by a heartbeat of that very lease, while it passes. */
  lemma OnlyHeartbeatsRenew(c: Config, r: Trace, n: nat, l: Lease)
    requires IsTrace(c, r) && n < |r.steps| && l in r.states[n].issued
    ensures RenewedOnly(c, r.states[n].store, r.states[n + 1].store, r.steps[n].op, l, r.steps[n].now)
  {
    Reachable(c, r, n);
    assert StepAt(c, r, n);
    var s, op, now := r.states[n].store, r.steps[n].op, r.steps[n].now;
    assert KeysOk(s);
    if op.OpHeartbeat? || op.OpSave? || op.OpComplete? || op.OpFail? || op.OpRelease? || op.OpAbort? {
      if op.lease.worker == l.worker {
        SameToken(r.states[n].issued, op.lease, l);
      }
      hide Inv, RenewedOnly, Committed;
      HolderRenewsOnly(c, s, op, l, now);
    } else {
      hide Inv, RenewedOnly, Committed;
      match op {
        case OpClaim(types, token) => ClaimRenewsNothing(c, s, types, token, l, now);
        case OpRecover(ids) => RecoveryRenewsNothing(c, s, ids, l, now);
        case OpResume(_, _, _) => SettingRenewsNothing(c, s, op, l, now);
        case OpCancel(_) => SettingRenewsNothing(c, s, op, l, now);
        case _ => CreationRenewsNothing(c, s, op, l, now);
      }
    }
  }

  lemma SettingRenewsNothing(c: Config, s: Store, op: Op, l: Lease, now: int)
    requires op.OpResume? || op.OpCancel?
    ensures RenewedOnly(c, s, Committed(c, s, op, now), op, l, now)
  {
  }

  /** A failed attempt is retried exactly while it may be, and becomes claimable when its delay is over. */
  lemma FailedAttemptComesBack(c: Config, s: Store, l: Lease, retryable: bool, delay: nat, now: int, later: int)
    requires Fail(s, l, retryable, delay, now).Success? && later >= now
    ensures var s2 := Fail(s, l, retryable, delay, now).value;
      var row := s2.rows[l.task];
      if retryable && s.rows[l.task].attempts < s.rows[l.task].maxAttempts then
        && row.status == WaitingRetry
        && (Recoverable(row, Stamp(later)) <==> Stamp(later) >= Stamp(now + delay))
        && (Recoverable(row, Stamp(later)) ==>
          Eligible(RecoveredRow(row, later), {row.identity.taskType}, Stamp(later)))
      else row.status == Failed && !Recoverable(row, Stamp(later))
  {
  }

  /** A released task is claimed again with the memory and the attempt number it was released with. */
  lemma ReleaseIsUndoneByClaim(c: Config, s: Store, l: Lease, token: Token, now: int, later: int)
    requires Release(c, s, l, now).Success? && !(CONTINUATION in s.rows[l.task].Memory())
    requires l.task in s.rows && c.fits(s.rows[l.task].Memory())
    ensures var row := Release(c, s, l, now).value.rows[l.task];
      && row.status == Ready && !Exhausted(row)
      && var again := Claimed(c, row, token, later);
         again.Success? && again.value.Memory() == s.rows[l.task].Memory() && again.value.attempts == l.attempt
  {
    var m := s.rows[l.task].Memory();
    assert m[CONTINUATION := Bool(true)] - {CONTINUATION} == m;
  }

  /** The worker that claims a resumed task finds the human's reply and every other memory unchanged. */
  lemma ReplyReachesWorker(c: Config, s: Store, id: TaskId, interrupt: string, value: Json, token: Token, now: int,
      later: int)
    requires Resume(c, s, id, interrupt, value, now).Success? && Resume(c, s, id, interrupt, value, now).value != s
    requires !(CONTINUATION in s.rows[id].Memory())
    ensures var row := Resume(c, s, id, interrupt, value, now).value.rows[id];
      && row.status == Ready && !Exhausted(row)
      && var again := Claimed(c, row, token, later);
         again.Success? ==> again.value.Memory() == s.rows[id].Memory()[RESUME := Reply(interrupt, value)]
                            && again.value.attempts == s.rows[id].attempts
  {
    var m := s.rows[id].Memory();
    assert m[RESUME := Reply(interrupt, value)][CONTINUATION := Bool(true)] - {CONTINUATION}
      == m[RESUME := Reply(interrupt, value)];
  }

  /** Enqueuing the same work again, by dedupe key or by id, changes nothing and names the same task. */
  lemma EnqueueIsIdempotent(s: Store, data: TaskCreate, drawn: TaskId, drawn2: TaskId, now: int, later: int)
    requires KeysOk(s) && Enqueue(s, data, Ready, drawn, now).Success?
    requires data.given.Some? || data.identity.dedupeKey.Some?
    ensures var (s1, id) := Enqueue(s, data, Ready, drawn, now).value;
      Enqueue(s1, data, Ready, drawn2, later) == Success((s1, id))
  {
    CreateInserts(s, data, drawn, New, now);
  }
}
