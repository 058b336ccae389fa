/**
 The queue service as it runs: an object whose methods update the tables in place.

 Each method is one transaction.  Its contract says that the tables end as the corresponding
 function of module Queue makes them, or stay as they were when the Python method raises.
 */
module QueueService {
  import opened Wrappers
  import opened Json
  import opened Queue
  import QueueLaws
  import QueueRuns

  class QueueService {
    const config: Config
    var rows: map<TaskId, Task>
    var keys: map<DedupeKey, TaskId>
    var log: seq<Entry>
    ghost var issued: seq<Lease>    // every lease that a claim of this object has handed out

    ghost function State(): Store
      reads this
    {
      Store(rows, keys, log)
    }

    /** The invariant of all runs, of this object: rows, index, log and leases agree. */
    ghost predicate Valid()
      reads this
    {
      QueueRuns.Good(State(), issued)
    }

    /** What the environment promises about an operation on this object. */
    ghost predicate Legal(op: QueueRuns.Op, now: int)
      reads this
    {
      QueueRuns.LegalOp(QueueRuns.Sys(State(), issued, now), op, now)
    }

    constructor (config: Config)
      ensures this.config == config && State() == EMPTY && issued == [] && Valid()
    {
      this.config := config;
      rows, keys, log, issued := map[], map[], [], [];
    }

    /** A legal operation keeps the invariant; the methods below say that they perform theirs. */
    ghost method Foresee(op: QueueRuns.Op, now: int)
      requires !op.OpClaim?
      ensures Valid() && Legal(op, now) ==> QueueRuns.Good(QueueRuns.Committed(config, State(), op, now), issued)
    {
      if Valid() && Legal(op, now) {
        QueueRuns.CommittedKeeps(config, State(), issued, op, now);
      }
    }

    /** Two leases of one task that this object handed out never both pass, whatever the clocks. */
    lemma OneHolder(l1: Lease, l2: Lease, t1: int, t2: int)
      requires Valid() && l1 in issued && l2 in issued && l1.task == l2.task
      requires Passes(State(), l1, t1) && Passes(State(), l2, t2)
      ensures l1 == l2
    {
      QueueLaws.SameToken(issued, l1, l2);
    }

    /** The conservation of attempts and the audit trail, read off this object. */
    lemma Accounts(id: TaskId)
      requires Valid() && id in rows
      ensures QueueRuns.Claims(log, id) == rows[id].attempts + QueueRuns.ContinuationClaims(log, id)
      ensures QueueRuns.Continuations(log, id)
           == QueueRuns.ContinuationClaims(log, id) + QueueRuns.One(rows[id].Continuation())
      ensures rows[id].attempts <= rows[id].maxAttempts
      ensures QueueRuns.Replay(log, id) == Some((rows[id].status, rows[id].version))
    {
      assert QueueRuns.RowCounts(log, id, rows[id]) && QueueRuns.RowOk(rows[id]);
    }

    method Audit(id: TaskId, row: Task, event: Event, was: Status)
      modifies this`rows, this`keys, this`log
      ensures State() == Audited(old(State()), id, row, event, was)
    {
      var r := row.(version := row.version + 1);
      rows := rows[id := r];
      log := log + [Entry(event, id, Some(was), r.status, r.attempts, r.version)];
    }

    method Finish(id: TaskId, row: Task, status: Status, event: Event, now: int)
      modifies this`rows, this`keys, this`log
      ensures State() == Audited(old(State()), id, Finished(row, status, now), event, row.status)
    {
      var r := row.(status := status, worker := None, leaseExpiresAt := None, heartbeatAt := None);
      if Terminal(status) {
        r := r.(completedAt := Some(Stamp(now)), nextRunAt := None);
      }
      Audit(id, r, event, row.status);
    }

    method Insert(data: TaskCreate, status: Status, drawn: TaskId, now: int) returns (r: Result<TaskId, Error>)
      modifies this`rows, this`keys, this`log
      ensures var spec := Create(old(State()), data, drawn, status, now);
        if spec.Success? then State() == spec.value.0 && r == Success(spec.value.1)
        else State() == old(State()) && r == Failure(spec.error)
    {
      if data.maxAttempts < 1 {
        return Failure(InvalidArgument);
      }
      var found: Option<TaskId> := None;
      if data.given.Some? && data.given.value in rows {
        found := data.given;
      } else if data.identity.dedupeKey.Some? && data.identity.dedupeKey.value in keys {
        found := Some(keys[data.identity.dedupeKey.value]);
      }
      if found.Some? {
        var id := found.value;
        if id in rows && rows[id].identity == data.identity && (data.given.Some? ==> data.given.value == id) {
          return Success(id);
        }
        return Failure(ReplayConflict);
      }
      var id := if data.given.Some? then data.given.value else drawn;
      if id in rows {
        return Failure(IntegrityFailure);
      }
      rows := rows[id := FreshRow(data, status, now)];
      if data.identity.dedupeKey.Some? {
        keys := keys[data.identity.dedupeKey.value := id];
      }
      log := log + [Entry(TaskCreated, id, None, status, 0, 1)];
      return Success(id);
    }

    method Enqueue(data: TaskCreate, status: Status, drawn: TaskId, now: int) returns (r: Result<TaskId, Error>)
      modifies this`rows, this`keys, this`log
      ensures var spec := Queue.Enqueue(old(State()), data, status, drawn, now);
        if spec.Success? then State() == spec.value.0 && r == Success(spec.value.1)
        else State() == old(State()) && r == Failure(spec.error)
      ensures old(Valid() && Legal(QueueRuns.OpEnqueue(data, status, drawn), now)) ==> Valid()
    {
      hide QueueRuns.Good, QueueRuns.LegalOp;
      Foresee(QueueRuns.OpEnqueue(data, status, drawn), now);
      if status !in {New, Ready} {
        return Failure(InvalidArgument);
      }
      r := Insert(data, New, drawn, now);
      if r.Success? {
        var id := r.value;
        if id in rows && rows[id].status == New {
          Audit(id, rows[id].(status := Ready), TaskReady, New);
        }
      }
    }

    /** `enqueue_waiting_in_transaction`: a refusal leaves the tables to the caller's rollback. */
    method EnqueueWaiting(data: TaskCreate, m: Memory, drawn: TaskId, now: int) returns (r: Result<TaskId, Error>)
      modifies this`rows, this`keys, this`log
      ensures var spec := Queue.EnqueueWaiting(config, old(State()), data, m, drawn, now);
        if r.Success? then spec == Success((State(), r.value)) else spec == Failure(r.error)
      ensures r.Success? && old(Valid() && Legal(QueueRuns.OpEnqueueWaiting(data, m, drawn), now)) ==> Valid()
    {
      hide QueueRuns.Good, QueueRuns.LegalOp;
      Foresee(QueueRuns.OpEnqueueWaiting(data, m, drawn), now);
      r := Insert(data, New, drawn, now);
      if r.Failure? {
        return;
      }
      var id := r.value;
      if id !in rows {
        return Failure(RecordNotFound);
      }
      var row := rows[id];
      if row.status == WaitingHuman {
        return if row.memory == Some(m) then Success(id) else Failure(ConcurrentUpdate);
      }
      if row.status != New {
        return Failure(ConcurrentUpdate);
      }
      if !config.fits(m) {
        return Failure(MemoryTooLarge);
      }
      Audit(id, row.(status := WaitingHuman, memory := Some(m)), TaskWaitingHuman, New);
      return Success(id);
    }

    /** The claim query: the first eligible row by priority, creation time and id. */
    method Select(types: set<string>, stamp: int) returns (id: Option<TaskId>)
      ensures id == Next(State(), types, stamp)
    {
      ghost var next := Next(State(), types, stamp);
      if forall o :: o in rows ==> !Eligible(rows[o], types, stamp) {
        return None;
      }
      var first :| first in rows && Eligible(rows[first], types, stamp)
        && forall o :: o in rows && Eligible(rows[o], types, stamp) ==> Before(rows, first, o);
      QueueLaws.FirstIsUnique(State(), types, stamp, first, next.value);
      return Some(first);
    }

    method Claim(types: set<string>, token: Token, now: int) returns (r: Result<Option<Lease>, Error>)
      modifies this
      ensures var spec := Queue.Claim(config, old(State()), types, token, now);
        if spec.Success? then State() == spec.value.0 && r == Success(spec.value.1)
        else State() == old(State()) && r == Failure(spec.error)
      ensures issued == old(issued) + if r.Success? && r.value.Some? then [r.value.value] else []
      ensures old(Valid() && Legal(QueueRuns.OpClaim(types, token), now)) ==> Valid()
    {
      hide QueueRuns.Good;
      if Valid() && Legal(QueueRuns.OpClaim(types, token), now) {
        QueueRuns.ClaimKeeps(config, State(), issued, types, token, now);
      }
      if types == {} {
        return Success(None);
      }
      var found := Select(types, Stamp(now));
      if found.None? {
        return Success(None);
      }
      r := Take(found.value, token, now);
      if r.Success? && r.value.Some? {
        issued := issued + [r.value.value];
      }
    }

    method Take(id: TaskId, token: Token, now: int) returns (r: Result<Option<Lease>, Error>)
      requires id in rows
      modifies this`rows, this`keys, this`log
      ensures var s := old(State()); var row := s.rows[id];
        if Exhausted(row) then
          State() == Audited(s, id, Finished(row, Failed, now), AttemptsExhausted, row.status) && r == Success(None)
        else
          var taken := Claimed(config, row, token, now);
          if taken.Failure? then State() == s && r == Failure(taken.error)
          else
            && State() == Audited(s, id, taken.value, TaskClaimed, Ready)
            && r == Success(Some(Lease(id, token, taken.value.attempts, row.identity.taskType, row.identity.payload)))
    {
      var stamp := Stamp(now);
      var row := rows[id];
      var memory := row.Memory();
      var continuation := Flagged(memory);
      if row.attempts >= row.maxAttempts && !continuation {
        Finish(id, row, Failed, AttemptsExhausted, now);
        return Success(None);
      }
      row := row.(status := Active, worker := Some(token));
      if !continuation {
        row := row.(attempts := row.attempts + 1);
      } else {
        memory := memory - {CONTINUATION};
        if !config.fits(memory) {
          return Failure(MemoryTooLarge);
        }
        row := row.(memory := Some(memory));
      }
      row := row.(heartbeatAt := Some(stamp), leaseExpiresAt := Some(Stamp(now + config.leaseMicros)));
      if row.startedAt.None? {
        row := row.(startedAt := Some(stamp));
      }
      row := row.(nextRunAt := None);
      Audit(id, row, TaskClaimed, Ready);
      return Success(Some(Lease(id, token, row.attempts, row.identity.taskType, row.identity.payload)));
    }

    method Heartbeat(l: Lease, now: int) returns (r: Result<(), Error>)
      modifies this`rows, this`keys, this`log
      ensures var spec := Queue.Heartbeat(config, old(State()), l, now);
        State() == QueueRuns.Kept(old(State()), spec) && r == Unit(spec)
      ensures old(Valid() && Legal(QueueRuns.OpHeartbeat(l), now)) ==> Valid()
    {
      hide QueueRuns.Good, QueueRuns.LegalOp;
      Foresee(QueueRuns.OpHeartbeat(l), now);
      var row :- Fence(Store(rows, keys, log), l, now);
      Audit(l.task, row.(heartbeatAt := Some(Stamp(now)), leaseExpiresAt := Some(Stamp(now + config.leaseMicros))),
            TaskHeartbeat, Active);
      return Success(());
    }

    method SaveMemory(l: Lease, m: Memory, now: int) returns (r: Result<(), Error>)
      modifies this`rows, this`keys, this`log
      ensures var spec := Queue.SaveMemory(config, old(State()), l, m, now);
        State() == QueueRuns.Kept(old(State()), spec) && r == Unit(spec)
      ensures old(Valid() && Legal(QueueRuns.OpSave(l, m), now)) ==> Valid()
    {
      hide QueueRuns.Good, QueueRuns.LegalOp;
      Foresee(QueueRuns.OpSave(l, m), now);
      var row :- Fence(Store(rows, keys, log), l, now);
      if !config.fits(m) {
        return Failure(MemoryTooLarge);
      }
      Audit(l.task, row.(memory := Some(m)), TaskMemorySaved, Active);
      return Success(());
    }

    /** `complete_in_transaction`: ownership is checked again, the clock is not. */
    method CompleteInTransaction(l: Lease, m: Memory, waiting: bool, now: int) returns (r: Result<(), Error>)
      modifies this`rows, this`keys, this`log
      ensures var spec := Queue.CompleteInTransaction(config, old(State()), l, m, waiting, now);
        State() == QueueRuns.Kept(old(State()), spec) && r == Unit(spec)
      ensures old(Valid()) && Clean(m) ==> Valid()
    {
      hide QueueRuns.Good;
      if Valid() && Clean(m) {
        QueueRuns.CompleteInTransactionKeeps(config, State(), issued, l, m, waiting, now);
      }
      if l.task !in rows {
        return Failure(RecordNotFound);
      }
      var row := rows[l.task];
      if row.status != Active || row.worker != Some(l.worker) || row.attempts != l.attempt {
        return Failure(LeaseLost);
      }
      if !config.fits(m) {
        return Failure(MemoryTooLarge);
      }
      Finish(l.task, row.(memory := Some(m)), if waiting then WaitingHuman else Succeeded,
             if waiting then TaskWaitingHuman else TaskSucceeded, now);
      return Success(());
    }

    method Complete(l: Lease, m: Memory, waiting: bool, now: int) returns (r: Result<(), Error>)
      modifies this`rows, this`keys, this`log
      ensures var spec := Queue.Complete(config, old(State()), l, m, waiting, now);
        State() == QueueRuns.Kept(old(State()), spec) && r == Unit(spec)
      ensures old(Valid() && Legal(QueueRuns.OpComplete(l, m, waiting), now)) ==> Valid()
    {
      hide QueueRuns.Good, QueueRuns.LegalOp;
      Foresee(QueueRuns.OpComplete(l, m, waiting), now);
      var row :- Fence(Store(rows, keys, log), l, now);
      if !config.fits(m) {
        return Failure(MemoryTooLarge);
      }
      Finish(l.task, row.(memory := Some(m)), if waiting then WaitingHuman else Succeeded,
             if waiting then TaskWaitingHuman else TaskSucceeded, now);
      return Success(());
    }

    method Fail(l: Lease, retryable: bool, delay: nat, now: int) returns (r: Result<(), Error>)
      modifies this`rows, this`keys, this`log
      ensures var spec := Queue.Fail(old(State()), l, retryable, delay, now);
        State() == QueueRuns.Kept(old(State()), spec) && r == Unit(spec)
      ensures old(Valid() && Legal(QueueRuns.OpFail(l, retryable, delay), now)) ==> Valid()
    {
      hide QueueRuns.Good, QueueRuns.LegalOp;
      Foresee(QueueRuns.OpFail(l, retryable, delay), now);
      var row :- Fence(Store(rows, keys, log), l, now);
      var retry := retryable && row.attempts < row.maxAttempts;
      if retry {
        row := row.(nextRunAt := Some(Stamp(now + delay)));
      }
      Finish(l.task, row, if retry then WaitingRetry else Failed, TaskFailedAttempt, now);
      return Success(());
    }

    method Release(l: Lease, now: int) returns (r: Result<(), Error>)
      modifies this`rows, this`keys, this`log
      ensures var spec := Queue.Release(config, old(State()), l, now);
        State() == QueueRuns.Kept(old(State()), spec) && r == Unit(spec)
      ensures old(Valid() && Legal(QueueRuns.OpRelease(l), now)) ==> Valid()
    {
      hide QueueRuns.Good, QueueRuns.LegalOp;
      Foresee(QueueRuns.OpRelease(l), now);
      var row :- Fence(Store(rows, keys, log), l, now);
      var memory := row.Memory()[CONTINUATION := Bool(true)];
      if !config.fits(memory) {
        return Failure(MemoryTooLarge);
      }
      Finish(l.task, row.(memory := Some(memory)), Ready, TaskReleased, now);
      return Success(());
    }

    method Abort(l: Lease, now: int) returns (r: Result<(), Error>)
      modifies this`rows, this`keys, this`log
      ensures var spec := Queue.Abort(old(State()), l, now);
        State() == QueueRuns.Kept(old(State()), spec) && r == Unit(spec)
      ensures old(Valid() && Legal(QueueRuns.OpAbort(l), now)) ==> Valid()
    {
      hide QueueRuns.Good, QueueRuns.LegalOp;
      Foresee(QueueRuns.OpAbort(l), now);
      var row :- Fence(Store(rows, keys, log), l, now);
      Finish(l.task, row, Aborted, TaskAborted, now);
      return Success(());
    }

    /** Visits the rows of the recovery query in the order the database happens to return them. */
    method RecoverDue(now: int) returns (count: nat, ghost ids: seq<TaskId>)
      modifies this`rows, this`keys, this`log
      ensures RecoveryQuery(old(State()), now, ids) && count == |ids|
      ensures State() == Queue.Recover(old(State()), ids, now)
    {
      var stamp := Stamp(now);
      var due := set id | id in rows && Recoverable(rows[id], stamp);
      ghost var all := due;
      count, ids := 0, [];
      while due != {}
        invariant due <= all && (forall id :: id in ids <==> id in all && id !in due)
        invariant forall i, j :: 0 <= i < j < |ids| ==> ids[i] != ids[j]
        invariant State() == Queue.Recover(old(State()), ids, now) && count == |ids|
        invariant rows.Keys == old(rows).Keys && forall id :: id in due ==> rows[id] == old(rows)[id]
        decreases due
      {
        var id :| id in due;
        due := due - {id};
        var row := rows[id];
        var status := if row.attempts >= row.maxAttempts then Failed else Ready;
        ghost var was := ids;
        ids := ids + [id];
        assert ids[..|ids| - 1] == was;
        Finish(id, row.(nextRunAt := None), status, TaskRecovered, now);
        count := count + 1;
      }
    }

    /** `recover`. */
    method Recover(now: int) returns (count: nat, ghost ids: seq<TaskId>)
      modifies this`rows, this`keys, this`log
      ensures RecoveryQuery(old(State()), now, ids) && count == |ids|
      ensures State() == Queue.Recover(old(State()), ids, now)
      ensures old(Valid()) ==> Valid()
    {
      hide QueueRuns.Good;
      ghost var before, valid := State(), Valid();
      count, ids := RecoverDue(now);
      if valid {
        QueueRuns.RecoverKeeps(before, issued, ids, now);
      }
    }

    method Resume(id: TaskId, interrupt: string, value: Json, now: int) returns (r: Result<(), Error>)
      modifies this`rows, this`keys, this`log
      ensures var spec := Queue.Resume(config, old(State()), id, interrupt, value, now);
        State() == QueueRuns.Kept(old(State()), spec) && r == Unit(spec)
      ensures old(Valid() && Legal(QueueRuns.OpResume(id, interrupt, value), now)) ==> Valid()
    {
      hide QueueRuns.Good, QueueRuns.LegalOp;
      Foresee(QueueRuns.OpResume(id, interrupt, value), now);
      if id !in rows {
        return Failure(RecordNotFound);
      }
      var row := rows[id];
      var memory := row.Memory();
      var reply := Reply(interrupt, value);
      if RESUME in memory && memory[RESUME] == reply {
        return Success(());
      }
      if row.status != WaitingHuman || interrupt !in PendingInterrupts(memory) {
        return Failure(ConcurrentUpdate);
      }
      memory := memory[RESUME := reply];
      memory := memory[CONTINUATION := Bool(true)];
      if !config.fits(memory) {
        return Failure(MemoryTooLarge);
      }
      Finish(id, row.(memory := Some(memory)), Ready, TaskResumed, now);
      return Success(());
    }

    method Cancel(id: TaskId, now: int) returns (r: Result<(), Error>)
      modifies this`rows, this`keys, this`log
      ensures var spec := Queue.Cancel(old(State()), id, now);
        State() == QueueRuns.Kept(old(State()), spec) && r == Unit(spec)
      ensures old(Valid() && Legal(QueueRuns.OpCancel(id), now)) ==> Valid()
    {
      hide QueueRuns.Good, QueueRuns.LegalOp;
      Foresee(QueueRuns.OpCancel(id), now);
      if id !in rows {
        return Failure(RecordNotFound);
      }
      if rows[id].status !in {New, Ready, WaitingHuman} {
        return Failure(ConcurrentUpdate);
      }
      Finish(id, rows[id], Canceled, TaskCanceled, now);
      return Success(());
    }
  }

  /** The methods return nothing when they succeed. */
  function Unit(r: Result<Store, Error>): Result<(), Error> {
    if r.Success? then Success(()) else Failure(r.error)
  }
}
