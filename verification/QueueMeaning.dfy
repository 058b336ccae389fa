/** Exactly when each transaction of the queue succeeds, and what it leaves in the row it is about. */
module QueueMeaning {
  import opened Wrappers
  import opened Json
  import opened Queue
  import opened QueueRuns

  // ---------------------------------------------------------------- creating tasks

  /** A task that nobody has touched. */
  predicate Untouched(row: Task, data: TaskCreate, now: int) {
    && row.identity == data.identity && row.priority == data.priority && row.maxAttempts == data.maxAttempts
    && row.createdAt == Stamp(now) && row.attempts == 0 && row.worker.None? && row.leaseExpiresAt.None?
    && row.heartbeatAt.None? && row.nextRunAt.None? && row.startedAt.None? && row.completedAt.None?
  }

  /** The creation names a task that is there already: by its id, or by its key. */
  predicate Known(s: Store, data: TaskCreate) {
    || (data.given.Some? && data.given.value in s.rows)
    || (data.identity.dedupeKey.Some? && data.identity.dedupeKey.value in s.keys)
  }

  function NewId(data: TaskCreate, drawn: TaskId): TaskId {
    if data.given.Some? then data.given.value else drawn
  }

  /** A new task under its id and key, and one log entry that says so. */
  predicate Inserted(s: Store, s2: Store, id: TaskId, data: TaskCreate) {
    && id !in s.rows && id in s2.rows && s2.rows == s.rows[id := s2.rows[id]]
    && s2.keys == (if data.identity.dedupeKey.Some? then s.keys[data.identity.dedupeKey.value := id] else s.keys)
    && |s2.log| > |s.log| && s2.log[..|s.log|] == s.log && s2.log[|s.log|].event == TaskCreated
    && s2.log[|s.log|].task == id && s2.log[|s.log|].was.None?
  }

  /** An unknown task is inserted, unless it can have no attempt or its drawn id is taken. */
  lemma CreateInsertsIff(s: Store, data: TaskCreate, drawn: TaskId, status: Status, now: int)
    requires !Known(s, data)
    ensures var r, id := Create(s, data, drawn, status, now), NewId(data, drawn);
      && (r.Success? <==> data.maxAttempts >= 1 && id !in s.rows)
      && (r.Success? ==>
            && r.value.1 == id && Inserted(s, r.value.0, id, data) && Untouched(r.value.0.rows[id], data, now)
            && r.value.0.rows[id].status == status && r.value.0.rows[id].memory.None?
            && r.value.0.rows[id].version == 1)
  {
  }

  /** A known task is returned unchanged if it is for the very same work, and refused otherwise. */
  lemma CreateReplays(s: Store, data: TaskCreate, drawn: TaskId, status: Status, now: int)
    requires KeysOk(s) && Known(s, data) && data.maxAttempts >= 1
    ensures var id := if data.given.Some? && data.given.value in s.rows then data.given.value
                      else s.keys[data.identity.dedupeKey.value];
      Create(s, data, drawn, status, now)
      == if s.rows[id].identity == data.identity && (data.given.Some? ==> data.given.value == id) then Success((s, id))
         else Failure(ReplayConflict)
  {
  }

  /** What is enqueued as new work can be claimed at once. */
  lemma EnqueuedIsClaimable(s: Store, data: TaskCreate, status: Status, drawn: TaskId, now: int)
    requires !Known(s, data) && Enqueue(s, data, status, drawn, now).Success?
    ensures var (s2, id) := Enqueue(s, data, status, drawn, now).value;
      && status in {New, Ready} && id == NewId(data, drawn) && Inserted(s, s2, id, data)
      && Untouched(s2.rows[id], data, now) && s2.rows[id].memory.None?
      && Eligible(s2.rows[id], {data.identity.taskType}, Stamp(now)) && !Exhausted(s2.rows[id])
      && |s2.log| == |s.log| + 2 && s2.log[|s.log| + 1] == Entry(TaskReady, id, Some(New), Ready, 0, 2)
  {
  }

  lemma EnqueueSucceedsIff(s: Store, data: TaskCreate, status: Status, drawn: TaskId, now: int)
    ensures Enqueue(s, data, status, drawn, now).Success? <==>
      status in {New, Ready} && Create(s, data, drawn, New, now).Success?
  {
    hide Create;
  }

  /** A task that waits for a human holds its interrupts, and each of them can be answered. */
  lemma WaitingCanBeAnswered(c: Config, s: Store, data: TaskCreate, m: Memory, drawn: TaskId, now: int, i: string,
      value: Json, later: int)
    requires !Known(s, data) && EnqueueWaiting(c, s, data, m, drawn, now).Success?
    ensures var (s2, id) := EnqueueWaiting(c, s, data, m, drawn, now).value;
      && id == NewId(data, drawn) && Inserted(s, s2, id, data) && Untouched(s2.rows[id], data, now)
      && s2.rows[id].status == WaitingHuman && s2.rows[id].memory == Some(m)
      && |s2.log| == |s.log| + 2 && s2.log[|s.log| + 1] == Entry(TaskWaitingHuman, id, Some(New), WaitingHuman, 0, 2)
      && (i in PendingInterrupts(m) && !(RESUME in m)
          && c.fits(m[RESUME := Reply(i, value)][CONTINUATION := Bool(true)]) ==>
            Resume(c, s2, id, i, value, later).Success?)
  {
  }

  /** Asked for again, a waiting task is returned if it still waits with these interrupts, and refused otherwise. */
  lemma WaitingReplays(c: Config, s: Store, data: TaskCreate, m: Memory, drawn: TaskId, now: int)
    requires KeysOk(s) && Known(s, data) && Create(s, data, drawn, New, now).Success?
    ensures var id := Create(s, data, drawn, New, now).value.1;
      && id in s.rows
      && (s.rows[id].status != New ==>
            EnqueueWaiting(c, s, data, m, drawn, now)
            == if s.rows[id].status == WaitingHuman && s.rows[id].memory == Some(m) then Success((s, id))
               else Failure(ConcurrentUpdate))
  {
  }

  // ---------------------------------------------------------------- claiming

  /** No claimable task has a smaller priority number, or the same and is older, or both alike and a smaller id. */
  lemma ClaimTakesFirst(c: Config, s: Store, types: set<string>, token: Token, now: int, o: TaskId)
    requires Claim(c, s, types, token, now).Success? && Claim(c, s, types, token, now).value.1.Some?
    requires o in s.rows && s.rows[o].status == Ready && s.rows[o].identity.taskType in types
    requires s.rows[o].nextRunAt.Some? ==> s.rows[o].nextRunAt.value <= Stamp(now)
    requires s.rows[o].leaseExpiresAt.Some? ==> s.rows[o].leaseExpiresAt.value <= Stamp(now)
    ensures var id := Claim(c, s, types, token, now).value.1.value.task;
      && id in s.rows && s.rows[id].status == Ready && s.rows[id].identity.taskType in types
      && (s.rows[id].nextRunAt.Some? ==> s.rows[id].nextRunAt.value <= Stamp(now))
      && (s.rows[id].leaseExpiresAt.Some? ==> s.rows[id].leaseExpiresAt.value <= Stamp(now))
      && var x, y := s.rows[id], s.rows[o];
         || x.priority < y.priority
         || (x.priority == y.priority && x.createdAt < y.createdAt)
         || (x.priority == y.priority && x.createdAt == y.createdAt && id <= o)
  {
    var id := Claim(c, s, types, token, now).value.1.value.task;
    assert First(s, types, Stamp(now), id);
    assert Eligible(s.rows[o], types, Stamp(now));
  }

  /** The claimed row: held by the token until the lease is over, its first start remembered, its marker gone. */
  lemma ClaimMeans(c: Config, s: Store, types: set<string>, token: Token, now: int)
    requires Claim(c, s, types, token, now).Success? && Claim(c, s, types, token, now).value.1.Some?
    ensures var (s2, lease) := Claim(c, s, types, token, now).value; var l := lease.value;
      && Change(s, s2, l.task, TaskClaimed)
      && var row, was := s2.rows[l.task], s.rows[l.task];
         && row.status == Active && row.worker == Some(token) && l.worker == token && l.attempt == row.attempts
         && row.leaseExpiresAt == Some(Stamp(now + c.leaseMicros)) && row.heartbeatAt == Some(Stamp(now))
         && row.startedAt == (if was.startedAt.Some? then was.startedAt else Some(Stamp(now))) && row.nextRunAt.None?
         && row.attempts == was.attempts + (if Flagged(was.Memory()) then 0 else 1)
         && (if Flagged(was.Memory()) then row.memory == Some(was.Memory() - {CONTINUATION})
             else row.memory == was.memory)
         && row.priority == was.priority && row.createdAt == was.createdAt && row.maxAttempts == was.maxAttempts
         && row.completedAt == was.completedAt
  {
  }

  /** A claim of a first task whose attempts are used up, and that has no marker, hands out nothing and fails it. */
  lemma SpentClaimFails(c: Config, s: Store, types: set<string>, token: Token, now: int, id: TaskId)
    requires types != {} && Next(s, types, Stamp(now)) == Some(id)
    ensures var r, row := Claim(c, s, types, token, now), s.rows[id];
      && (row.attempts >= row.maxAttempts && !Flagged(row.Memory()) <==> r.Success? && r.value.1.None?)
      && (r.Success? && r.value.1.None? ==>
            && Change(s, r.value.0, id, AttemptsExhausted) && LetGo(r.value.0.rows[id], row)
            && Over(r.value.0.rows[id], Failed, now))
      && (r.Failure? <==> Flagged(row.Memory()) && !c.fits(row.Memory() - {CONTINUATION}))
  {
  }

  // ---------------------------------------------------------------- a lease holder's operations

  /** Nobody holds the row any more. */
  predicate LetGo(row: Task, was: Task) {
    && row.worker.None? && row.leaseExpiresAt.None? && row.heartbeatAt.None?
    && row.attempts == was.attempts && row.maxAttempts == was.maxAttempts && row.priority == was.priority
    && row.createdAt == was.createdAt && row.startedAt == was.startedAt
  }

  /** Over for good, at this time. */
  predicate Over(row: Task, status: Status, now: int) {
    row.status == status && row.completedAt == Some(Stamp(now)) && row.nextRunAt.None?
  }

  /** A heartbeat succeeds exactly while the lease passes, and moves the expiry and the heartbeat only. */
  lemma HeartbeatMeans(c: Config, s: Store, l: Lease, now: int)
    ensures var r := Heartbeat(c, s, l, now);
      && (r.Success? <==> Passes(s, l, now))
      && (r.Success? ==>
            && Change(s, r.value, l.task, TaskHeartbeat)
            && r.value.rows[l.task] == s.rows[l.task].(heartbeatAt := Some(Stamp(now)),
                 leaseExpiresAt := Some(Stamp(now + c.leaseMicros)), version := s.rows[l.task].version + 1))
  {
  }

  /** Memory is saved exactly by a passing lease and within the size limit. */
  lemma SaveMeans(c: Config, s: Store, l: Lease, m: Memory, now: int)
    ensures var r := SaveMemory(c, s, l, m, now);
      && (r.Success? <==> Passes(s, l, now) && c.fits(m))
      && (r.Success? ==>
            && Change(s, r.value, l.task, TaskMemorySaved)
            && r.value.rows[l.task] == s.rows[l.task].(memory := Some(m), version := s.rows[l.task].version + 1))
  {
  }

  /** A completed task is over with this memory, or waits for a human with it. */
  lemma CompleteMeans(c: Config, s: Store, l: Lease, m: Memory, waiting: bool, now: int)
    ensures var r := Complete(c, s, l, m, waiting, now);
      && (r.Success? <==> Passes(s, l, now) && c.fits(m))
      && (r.Success? ==>
            && Change(s, r.value, l.task, if waiting then TaskWaitingHuman else TaskSucceeded)
            && var row, was := r.value.rows[l.task], s.rows[l.task];
               && LetGo(row, was) && row.memory == Some(m)
               && (if waiting then row.status == WaitingHuman && row.completedAt == was.completedAt
                   else Over(row, Succeeded, now)))
  {
  }

  /** Inside the caller's fence only the ownership is asked for again. */
  lemma CompleteInTransactionIff(c: Config, s: Store, l: Lease, m: Memory, waiting: bool, now: int)
    ensures CompleteInTransaction(c, s, l, m, waiting, now).Success? <==>
      Owns(s, l) && s.rows[l.task].attempts == l.attempt && c.fits(m)
    ensures Passes(s, l, now) ==>
      CompleteInTransaction(c, s, l, m, waiting, now) == Complete(c, s, l, m, waiting, now)
  {
  }

  /** A failed attempt is retried after the delay while attempts remain and it may be; otherwise the task is over. */
  lemma FailMeans(s: Store, l: Lease, retryable: bool, delay: nat, now: int)
    ensures var r := Fail(s, l, retryable, delay, now);
      && (r.Success? <==> Passes(s, l, now))
      && (r.Success? ==>
            && Change(s, r.value, l.task, TaskFailedAttempt)
            && var row, was := r.value.rows[l.task], s.rows[l.task];
               && LetGo(row, was) && row.memory == was.memory
               && (if retryable && was.attempts < was.maxAttempts
                   then row.status == WaitingRetry && row.nextRunAt == Some(Stamp(now + delay))
                        && row.completedAt == was.completedAt
                   else Over(row, Failed, now)))
  {
  }

  /** A released task is ready at once, with the marker in its memory. */
  lemma ReleaseMeans(c: Config, s: Store, l: Lease, now: int)
    ensures var r := Release(c, s, l, now);
      && (r.Success? <==> Passes(s, l, now) && c.fits(s.rows[l.task].Memory()[CONTINUATION := Bool(true)]))
      && (r.Success? ==>
            && Change(s, r.value, l.task, TaskReleased)
            && var row, was := r.value.rows[l.task], s.rows[l.task];
               && LetGo(row, was) && row.status == Ready && row.nextRunAt == was.nextRunAt
               && row.memory == Some(was.Memory()[CONTINUATION := Bool(true)]) && row.Continuation())
  {
  }

  /** An aborted task is over. */
  lemma AbortMeans(s: Store, l: Lease, now: int)
    ensures var r := Abort(s, l, now);
      && (r.Success? <==> Passes(s, l, now))
      && (r.Success? ==>
            && Change(s, r.value, l.task, TaskAborted)
            && LetGo(r.value.rows[l.task], s.rows[l.task]) && r.value.rows[l.task].memory == s.rows[l.task].memory
            && Over(r.value.rows[l.task], Aborted, now))
  {
  }

  /** A lease passes exactly for the row's own worker and attempt, before the expiry. */
  lemma PassesIff(s: Store, l: Lease, now: int)
    ensures Passes(s, l, now) <==>
      && l.task in s.rows && s.rows[l.task].status == Active && s.rows[l.task].worker == Some(l.worker)
      && s.rows[l.task].attempts == l.attempt && s.rows[l.task].leaseExpiresAt.Some?
      && Stamp(now) < s.rows[l.task].leaseExpiresAt.value
    ensures Fence(s, l, now)
         == if Passes(s, l, now) then Success(s.rows[l.task])
            else Failure(if l.task in s.rows then LeaseLost else RecordNotFound)
  {
  }

  // ---------------------------------------------------------------- anyone's operations

  /** A reply is taken exactly for an interrupt that the waiting task has, and leaves it ready with the reply. */
  lemma ResumeMeans(c: Config, s: Store, id: TaskId, interrupt: string, value: Json, now: int)
    requires id in s.rows
    ensures var r, was := Resume(c, s, id, interrupt, value, now), s.rows[id];
      var m := was.Memory();
      var repeated := RESUME in m && m[RESUME] == Reply(interrupt, value);
      && (repeated ==> r == Success(s))
      && (!repeated ==>
            && (r.Success? <==> was.status == WaitingHuman && interrupt in PendingInterrupts(m)
                                && c.fits(m[RESUME := Reply(interrupt, value)][CONTINUATION := Bool(true)]))
            && (r.Success? ==>
                  && Change(s, r.value, id, TaskResumed)
                  && LetGo(r.value.rows[id], was) && r.value.rows[id].status == Ready
                  && r.value.rows[id].memory == Some(m[RESUME := Reply(interrupt, value)][CONTINUATION := Bool(true)])))
      && (r == Failure(ConcurrentUpdate) <==>
            !repeated && (was.status != WaitingHuman || interrupt !in PendingInterrupts(m)))
  {
  }

  /** A task can be cancelled exactly while no worker has it and it is not over. */
  lemma CancelMeans(s: Store, id: TaskId, now: int)
    ensures var r := Cancel(s, id, now);
      && (r.Success? <==> id in s.rows && s.rows[id].status in {New, Ready, WaitingHuman})
      && (r.Success? ==>
            && Change(s, r.value, id, TaskCanceled) && LetGo(r.value.rows[id], s.rows[id])
            && r.value.rows[id].memory == s.rows[id].memory && Over(r.value.rows[id], Canceled, now))
      && (r.Failure? ==> r.error == if id in s.rows then ConcurrentUpdate else RecordNotFound)
  {
  }

  /** Recovery logs what it did to each row that it takes. */
  lemma RecoveryIsLogged(s: Store, id: TaskId, now: int)
    requires id in s.rows
    ensures Change(s, RecoverOne(s, id, now), id, TaskRecovered)
  {
  }
}
