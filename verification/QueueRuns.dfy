/**
 Runs of the queue: any number of workers, lost leases, crashes and recoveries.

 A run is a list of steps, each one committed or rolled back transaction with the clock reading it
 used.  A crashed worker is a worker that takes no further step; its lease stays in `issued`.
 */
module QueueRuns {
  import opened Wrappers
  import opened Json
  import opened Queue

  datatype Op =
    | OpEnqueue(data: TaskCreate, status: Status, drawn: TaskId)
    | OpCreate(data: TaskCreate, status: Status, drawn: TaskId)
    | OpEnqueueWaiting(data: TaskCreate, memory: Memory, drawn: TaskId)
    | OpClaim(types: set<string>, token: Token)
    | OpHeartbeat(lease: Lease)
    | OpSave(lease: Lease, memory: Memory)
    | OpComplete(lease: Lease, memory: Memory, waiting: bool)
    | OpFail(lease: Lease, retryable: bool, delay: nat)
    | OpRelease(lease: Lease)
    | OpAbort(lease: Lease)
    | OpRecover(ids: seq<TaskId>)
    | OpResume(id: TaskId, interrupt: string, value: Json)
    | OpCancel(id: TaskId)

  datatype Step = Step(now: int, op: Op)

  /** `issued` lists every lease ever handed to a worker, in claim order. */
  datatype Sys = Sys(store: Store, issued: seq<Lease>, now: int)

  const START := Sys(EMPTY, [], 0)

  function Kept(s: Store, r: Result<Store, Error>): Store {
    if r.Success? then r.value else s
  }

  function KeptNew(s: Store, r: Result<(Store, TaskId), Error>): Store {
    if r.Success? then r.value.0 else s
  }

  /** The committed store after an operation other than a claim; an error rolls back. */
  function Committed(c: Config, s: Store, op: Op, now: int): Store
    requires !op.OpClaim?
  {
    match op
    case OpEnqueue(d, st, id) => KeptNew(s, Enqueue(s, d, st, id, now))
    case OpCreate(d, st, id) => KeptNew(s, Create(s, d, id, st, now))
    case OpEnqueueWaiting(d, m, id) => KeptNew(s, EnqueueWaiting(c, s, d, m, id, now))
    case OpHeartbeat(l) => Kept(s, Heartbeat(c, s, l, now))
    case OpSave(l, m) => Kept(s, SaveMemory(c, s, l, m, now))
    case OpComplete(l, m, w) => Kept(s, Complete(c, s, l, m, w, now))
    case OpFail(l, r, d) => Kept(s, Fail(s, l, r, d, now))
    case OpRelease(l) => Kept(s, Release(c, s, l, now))
    case OpAbort(l) => Kept(s, Abort(s, l, now))
    case OpRecover(ids) => Recover(s, ids, now)
    case OpResume(id, i, v) => Kept(s, Resume(c, s, id, i, v, now))
    case OpCancel(id) => Kept(s, Cancel(s, id, now))
  }

  ghost function Apply(c: Config, sys: Sys, step: Step): Sys {
    if step.op.OpClaim? then
      var r := Claim(c, sys.store, step.op.types, step.op.token, step.now);
      if r.Success? then
        Sys(r.value.0, sys.issued + (if r.value.1.Some? then [r.value.1.value] else []), step.now)
      else sys.(now := step.now)
    else
      Sys(Committed(c, sys.store, step.op, step.now), sys.issued, step.now)
  }

  /**
   What the environment guarantees: the clock does not go back, ULID tokens are fresh, only issued
   leases are presented, and workers write maps without the continuation marker.
   */
  ghost predicate Legal(sys: Sys, step: Step) {
    step.now >= sys.now && LegalOp(sys, step.op, step.now)
  }

  ghost predicate LegalOp(sys: Sys, op: Op, now: int) {
    match op
    case OpEnqueue(_, _, _) => true
    case OpCreate(_, st, _) => st in {New, Ready}
    case OpEnqueueWaiting(_, m, _) => Clean(m)
    case OpClaim(_, token) => forall l :: l in sys.issued ==> l.worker != token
    case OpHeartbeat(l) => l in sys.issued
    case OpSave(l, m) => l in sys.issued && Clean(m)
    case OpComplete(l, m, _) => l in sys.issued && Clean(m)
    case OpFail(l, _, _) => l in sys.issued
    case OpRelease(l) => l in sys.issued
    case OpAbort(l) => l in sys.issued
    case OpRecover(ids) => RecoveryQuery(sys.store, now, ids)
    case OpResume(_, _, _) => true
    case OpCancel(_) => true
  }

  /** The states a queue goes through, and the steps between them. */
  datatype Trace = Trace(states: seq<Sys>, steps: seq<Step>)

  ghost predicate StepAt(c: Config, r: Trace, i: nat) {
    && i < |r.steps| && i + 1 < |r.states|
    && Legal(r.states[i], r.steps[i]) && r.states[i + 1] == Apply(c, r.states[i], r.steps[i])
  }

  /** Any number of workers taking any legal steps from the empty queue. */
  ghost predicate IsTrace(c: Config, r: Trace) {
    |r.states| == |r.steps| + 1 && r.states[0] == START && forall i :: 0 <= i < |r.steps| ==> StepAt(c, r, i)
  }

  // ---------------------------------------------------------------- readings of the audit log

  function ReplayEntry(was: Option<(Status, nat)>, e: Entry): Option<(Status, nat)> {
    if e.was.None? then
      if was.None? && e.version == 1 then Some((e.becomes, 1)) else None
    else if was == Some((e.was.value, e.version - 1)) then Some((e.becomes, e.version))
    else None
  }

  /** Following a task's entries: each must continue from the state and version of the one before. */
  function Replay(log: seq<Entry>, id: TaskId): Option<(Status, nat)> {
    if |log| == 0 then None else
    var before := Replay(log[..|log| - 1], id);
    var e := log[|log| - 1];
    if e.task == id then ReplayEntry(before, e) else before
  }

  function Count(log: seq<Entry>, id: TaskId, events: set<Event>): nat {
    if |log| == 0 then 0 else
    Count(log[..|log| - 1], id, events)
    + (if log[|log| - 1].task == id && log[|log| - 1].event in events then 1 else 0)
  }

  function Claims(log: seq<Entry>, id: TaskId): nat {
    Count(log, id, {TaskClaimed})
  }

  /** Shutdown releases and effective human resumes: the operations that set the marker. */
  function Continuations(log: seq<Entry>, id: TaskId): nat {
    Count(log, id, {TaskReleased, TaskResumed})
  }

  /** The attempt number in a task's last entry. */
  function LastAttempt(log: seq<Entry>, id: TaskId): nat {
    if |log| == 0 then 0
    else if log[|log| - 1].task == id then log[|log| - 1].attempt
    else LastAttempt(log[..|log| - 1], id)
  }

  /** Claims that did not advance the attempt number. */
  function ContinuationClaims(log: seq<Entry>, id: TaskId): nat {
    if |log| == 0 then 0 else
    var before, e := log[..|log| - 1], log[|log| - 1];
    ContinuationClaims(before, id)
    + One(e.task == id && e.event == TaskClaimed && e.attempt == LastAttempt(before, id))
  }

  function One(b: bool): nat {
    if b then 1 else 0
  }

  lemma Appended(log: seq<Entry>, e: Entry, id: TaskId)
    ensures Replay(log + [e], id)
         == if e.task == id then ReplayEntry(Replay(log, id), e) else Replay(log, id)
    ensures Claims(log + [e], id) == Claims(log, id) + One(e.task == id && e.event == TaskClaimed)
    ensures Continuations(log + [e], id)
         == Continuations(log, id) + One(e.task == id && e.event in {TaskReleased, TaskResumed})
    ensures LastAttempt(log + [e], id) == if e.task == id then e.attempt else LastAttempt(log, id)
    ensures ContinuationClaims(log + [e], id) == ContinuationClaims(log, id)
         + One(e.task == id && e.event == TaskClaimed && e.attempt == LastAttempt(log, id))
  {
    assert (log + [e])[..|log + [e]| - 1] == log;
  }

  // ---------------------------------------------------------------- the invariant

  predicate RowOk(row: Task) {
    && 1 <= row.maxAttempts && row.attempts <= row.maxAttempts && row.version >= 1
    && (row.status == Active <==> row.worker.Some?)
    && (row.status == Active <==> row.leaseExpiresAt.Some?)
    && (row.Continuation() ==> row.status in {Ready, Canceled})
    && (row.status in {New, WaitingRetry} ==> row.attempts < row.maxAttempts)
    && (row.status == Ready && !row.Continuation() ==> row.attempts < row.maxAttempts)
    && (row.status == WaitingRetry ==> row.nextRunAt.Some?)
    && (row.completedAt.Some? <==> Terminal(row.status))
  }

  ghost predicate KeysOk(s: Store) {
    && (forall k :: k in s.keys ==>
          s.keys[k] in s.rows && s.rows[s.keys[k]].identity.dedupeKey == Some(k))
    && (forall id :: id in s.rows && s.rows[id].identity.dedupeKey.Some? ==>
          s.rows[id].identity.dedupeKey.value in s.keys
          && s.keys[s.rows[id].identity.dedupeKey.value] == id)
  }

  ghost predicate RowsOk(s: Store) {
    forall id :: id in s.rows ==> RowOk(s.rows[id])
  }

  ghost predicate LogOk(s: Store) {
    && (forall id :: Replay(s.log, id)
          == if id in s.rows then Some((s.rows[id].status, s.rows[id].version)) else None)
    && (forall e :: e in s.log ==> e.event != AttemptsExhausted)
  }

  /** Every claim used an attempt or consumed a marker; every marker set was consumed or is still there. */
  ghost predicate RowCounts(log: seq<Entry>, id: TaskId, row: Task) {
    && LastAttempt(log, id) == row.attempts
    && Claims(log, id) == row.attempts + ContinuationClaims(log, id)
    && Continuations(log, id) == ContinuationClaims(log, id) + One(row.Continuation())
  }

  ghost predicate NoCounts(log: seq<Entry>, id: TaskId) {
    LastAttempt(log, id) == Claims(log, id) == ContinuationClaims(log, id) == Continuations(log, id) == 0
  }

  ghost predicate CountsOk(s: Store) {
    && (forall id :: id in s.rows ==> RowCounts(s.log, id, s.rows[id]))
    && (forall id :: id !in s.rows ==> NoCounts(s.log, id))
  }

  ghost predicate StoreOk(s: Store) {
    RowsOk(s) && KeysOk(s) && LogOk(s) && CountsOk(s)
  }

  /** i is the last claim ever made of the task. */
  ghost predicate LatestClaim(issued: seq<Lease>, id: TaskId, i: int) {
    && 0 <= i < |issued| && issued[i].task == id
    && forall j :: i < j < |issued| ==> issued[j].task != id
  }

  ghost predicate TokensOk(s: Store, issued: seq<Lease>) {
    && (forall i, j :: 0 <= i < j < |issued| ==> issued[i].worker != issued[j].worker)
    && (forall i :: 0 <= i < |issued| ==>
          issued[i].task in s.rows && issued[i].payload == s.rows[issued[i].task].identity.payload
          && issued[i].taskType == s.rows[issued[i].task].identity.taskType)
  }

  ghost predicate OwnedBy(row: Task, issued: seq<Lease>, id: TaskId, i: int) {
    LatestClaim(issued, id, i) && row.worker == Some(issued[i].worker) && row.attempts == issued[i].attempt
  }

  /** An ACTIVE row belongs to the task's latest claim, with that claim's attempt number. */
  ghost predicate OwnersOk(s: Store, issued: seq<Lease>) {
    forall id :: id in s.rows && s.rows[id].status == Active ==>
      exists i :: OwnedBy(s.rows[id], issued, id, i)
  }

  ghost predicate Good(s: Store, issued: seq<Lease>) {
    StoreOk(s) && TokensOk(s, issued) && OwnersOk(s, issued)
  }

  ghost predicate Inv(sys: Sys) {
    Good(sys.store, sys.issued)
  }

  // ---------------------------------------------------------------- one audited row change

  /** s2 differs from s in one row, whose version advanced once, and in the entry saying so. */
  ghost predicate Change(s: Store, s2: Store, id: TaskId, event: Event) {
    && id in s.rows && id in s2.rows
    && s2.rows == s.rows[id := s2.rows[id]]
    && s2.keys == s.keys
    && s2.rows[id].identity == s.rows[id].identity
    && s2.rows[id].version == s.rows[id].version + 1
    && s2.log == s.log + [Entry(event, id, Some(s.rows[id].status), s2.rows[id].status,
                                s2.rows[id].attempts, s2.rows[id].version)]
  }

  lemma ChangeKeepsLog(s: Store, s2: Store, id: TaskId, event: Event)
    requires LogOk(s) && Change(s, s2, id, event) && event != AttemptsExhausted
    ensures LogOk(s2)
  {
    var e := s2.log[|s.log|];
    forall o ensures Replay(s2.log, o)
        == if o in s2.rows then Some((s2.rows[o].status, s2.rows[o].version)) else None
    {
      Appended(s.log, e, o);
    }
  }

  /** A claim uses an attempt or the marker; a release or resume sets the marker; nothing else counts. */
  predicate MarkerStep(row: Task, next: Task, event: Event) {
    if event == TaskClaimed then
      next.attempts == row.attempts + One(!row.Continuation()) && !next.Continuation()
    else
      && next.attempts == row.attempts
      && One(next.Continuation()) == One(row.Continuation()) + One(event in {TaskReleased, TaskResumed})
  }

  lemma ChangeKeepsCounts(s: Store, s2: Store, id: TaskId, event: Event)
    requires CountsOk(s) && Change(s, s2, id, event)
    requires MarkerStep(s.rows[id], s2.rows[id], event)
    ensures CountsOk(s2)
  {
    var e := s2.log[|s.log|];
    forall o | o in s2.rows ensures RowCounts(s2.log, o, s2.rows[o]) {
      Appended(s.log, e, o);
    }
    forall o | o !in s2.rows ensures NoCounts(s2.log, o) {
      Appended(s.log, e, o);
    }
  }

  lemma ChangeKeepsStore(s: Store, s2: Store, id: TaskId, event: Event)
    requires StoreOk(s) && Change(s, s2, id, event)
    requires RowOk(s2.rows[id]) && event != AttemptsExhausted
    requires MarkerStep(s.rows[id], s2.rows[id], event)
    ensures StoreOk(s2)
  {
    ChangeKeepsLog(s, s2, id, event);
    ChangeKeepsCounts(s, s2, id, event);
    assert KeysOk(s2) && RowsOk(s2);
  }

  /** A change by which nobody becomes an owner keeps every owner known. */
  lemma ChangeKeepsOwners(s: Store, s2: Store, issued: seq<Lease>, id: TaskId, event: Event)
    requires OwnersOk(s, issued) && TokensOk(s, issued) && Change(s, s2, id, event)
    requires s2.rows[id].status == Active ==>
      s.rows[id].status == Active && s2.rows[id].worker == s.rows[id].worker
      && s2.rows[id].attempts == s.rows[id].attempts
    ensures OwnersOk(s2, issued) && TokensOk(s2, issued)
  {
    forall o | o in s2.rows && s2.rows[o].status == Active
      ensures exists i :: OwnedBy(s2.rows[o], issued, o, i)
    {
      var i :| OwnedBy(s.rows[o], issued, o, i);
      assert OwnedBy(s2.rows[o], issued, o, i);
    }
  }

  // ---------------------------------------------------------------- every operation keeps it

  lemma ChangeKeeps(s: Store, s2: Store, issued: seq<Lease>, id: TaskId, event: Event)
    requires Good(s, issued) && Change(s, s2, id, event)
    requires RowOk(s2.rows[id]) && event !in {AttemptsExhausted, TaskClaimed}
    requires s2.rows[id].status == Active ==>
      s.rows[id].status == Active && s2.rows[id].worker == s.rows[id].worker
    requires MarkerStep(s.rows[id], s2.rows[id], event)
    ensures Good(s2, issued)
  {
    ChangeKeepsStore(s, s2, id, event);
    ChangeKeepsOwners(s, s2, issued, id, event);
  }

  // Holder operations start from a live row, whose marker is unset; only a release sets it.

  lemma HeartbeatKeeps(c: Config, s: Store, issued: seq<Lease>, l: Lease, now: int)
    requires Good(s, issued)
    ensures Good(Kept(s, Heartbeat(c, s, l, now)), issued)
  {
    if Passes(s, l, now) {
      assert RowOk(s.rows[l.task]);
      ChangeKeeps(s, Heartbeat(c, s, l, now).value, issued, l.task, TaskHeartbeat);
    }
  }

  lemma SaveKeeps(c: Config, s: Store, issued: seq<Lease>, l: Lease, m: Memory, now: int)
    requires Good(s, issued) && Clean(m)
    ensures Good(Kept(s, SaveMemory(c, s, l, m, now)), issued)
  {
    if Passes(s, l, now) && c.fits(m) {
      assert RowOk(s.rows[l.task]);
      ChangeKeeps(s, SaveMemory(c, s, l, m, now).value, issued, l.task, TaskMemorySaved);
    }
  }

  lemma CompleteInTransactionKeeps(c: Config, s: Store, issued: seq<Lease>, l: Lease, m: Memory, waiting: bool,
      now: int)
    requires Good(s, issued) && Clean(m)
    ensures Good(Kept(s, CompleteInTransaction(c, s, l, m, waiting, now)), issued)
  {
    var r := CompleteInTransaction(c, s, l, m, waiting, now);
    if r.Success? {
      assert RowOk(s.rows[l.task]);
      ChangeKeeps(s, r.value, issued, l.task, if waiting then TaskWaitingHuman else TaskSucceeded);
    }
  }

  lemma FailKeeps(s: Store, issued: seq<Lease>, l: Lease, retryable: bool, delay: nat, now: int)
    requires Good(s, issued)
    ensures Good(Kept(s, Fail(s, l, retryable, delay, now)), issued)
  {
    if Passes(s, l, now) {
      assert RowOk(s.rows[l.task]);
      ChangeKeeps(s, Fail(s, l, retryable, delay, now).value, issued, l.task, TaskFailedAttempt);
    }
  }

  lemma AbortKeeps(s: Store, issued: seq<Lease>, l: Lease, now: int)
    requires Good(s, issued)
    ensures Good(Kept(s, Abort(s, l, now)), issued)
  {
    if Passes(s, l, now) {
      assert RowOk(s.rows[l.task]);
      ChangeKeeps(s, Abort(s, l, now).value, issued, l.task, TaskAborted);
    }
  }

  lemma ReleaseKeeps(c: Config, s: Store, issued: seq<Lease>, l: Lease, now: int)
    requires Good(s, issued)
    ensures Good(Kept(s, Release(c, s, l, now)), issued)
  {
    var r := Release(c, s, l, now);
    if r.Success? {
      assert RowOk(s.rows[l.task]);
      ChangeKeeps(s, r.value, issued, l.task, TaskReleased);
    }
  }

  lemma ResumeKeeps(c: Config, s: Store, issued: seq<Lease>, id: TaskId, i: string, v: Json, now: int)
    requires Good(s, issued)
    ensures Good(Kept(s, Resume(c, s, id, i, v, now)), issued)
  {
    var s2 := Kept(s, Resume(c, s, id, i, v, now));
    if s2 != s {
      assert RowOk(s.rows[id]);
      ChangeKeeps(s, s2, issued, id, TaskResumed);
    }
  }

  /** A canceled task keeps its marker, if it had one. */
  lemma CancelKeeps(s: Store, issued: seq<Lease>, id: TaskId, now: int)
    requires Good(s, issued)
    ensures Good(Kept(s, Cancel(s, id, now)), issued)
  {
    var s2 := Kept(s, Cancel(s, id, now));
    if s2 != s {
      assert RowOk(s.rows[id]);
      ChangeKeeps(s, s2, issued, id, TaskCanceled);
    }
  }

  /** A creation adds one row, its unique key and its first log entry, and nothing else. */
  ghost predicate Insertion(s: Store, s2: Store, id: TaskId) {
    && id !in s.rows && id in s2.rows
    && s2.rows == s.rows[id := s2.rows[id]]
    && s2.rows[id].version == 1 && s2.rows[id].attempts == 0
    && s2.log == s.log + [Entry(TaskCreated, id, None, s2.rows[id].status, 0, 1)]
  }

  lemma InsertionKeepsLog(s: Store, s2: Store, id: TaskId)
    requires LogOk(s) && CountsOk(s) && Insertion(s, s2, id) && !s2.rows[id].Continuation()
    ensures LogOk(s2) && CountsOk(s2)
  {
    var e := s2.log[|s.log|];
    forall o ensures Replay(s2.log, o)
        == if o in s2.rows then Some((s2.rows[o].status, s2.rows[o].version)) else None
    {
      Appended(s.log, e, o);
    }
    forall o | o in s2.rows ensures RowCounts(s2.log, o, s2.rows[o]) {
      Appended(s.log, e, o);
    }
    forall o | o !in s2.rows ensures NoCounts(s2.log, o) {
      Appended(s.log, e, o);
    }
  }

  lemma CreateInserts(s: Store, data: TaskCreate, drawn: TaskId, status: Status, now: int)
    requires KeysOk(s) && status in {New, Ready}
    ensures var r := Create(s, data, drawn, status, now);
      r.Success? ==>
        var (s2, id) := r.value;
        && id in s2.rows && KeysOk(s2)
        && (s2 == s || (Insertion(s, s2, id) && RowOk(s2.rows[id]) && s2.rows[id].status == status
                        && !s2.rows[id].Continuation()))
  {
  }

  lemma CreateKeeps(s: Store, issued: seq<Lease>, data: TaskCreate, drawn: TaskId, status: Status, now: int)
    requires Good(s, issued) && status in {New, Ready}
    ensures Good(KeptNew(s, Create(s, data, drawn, status, now)), issued)
    ensures var r := Create(s, data, drawn, status, now);
      r.Success? ==> r.value.1 in r.value.0.rows
  {
    CreateInserts(s, data, drawn, status, now);
    var r := Create(s, data, drawn, status, now);
    if r.Success? && r.value.0 != s {
      var (s2, id) := r.value;
      InsertionKeepsLog(s, s2, id);
      CreateKeepsOwners(s, s2, issued, id);
    }
  }

  lemma CreateKeepsOwners(s: Store, s2: Store, issued: seq<Lease>, id: TaskId)
    requires OwnersOk(s, issued) && TokensOk(s, issued)
    requires id !in s.rows && id in s2.rows && s2.rows == s.rows[id := s2.rows[id]]
    requires s2.rows[id].status != Active
    ensures OwnersOk(s2, issued) && TokensOk(s2, issued)
  {
    forall o | o in s2.rows && s2.rows[o].status == Active
      ensures exists i :: OwnedBy(s2.rows[o], issued, o, i)
    {
      var i :| OwnedBy(s.rows[o], issued, o, i);
      assert OwnedBy(s2.rows[o], issued, o, i);
    }
  }

  lemma EnqueueKeeps(s: Store, issued: seq<Lease>, data: TaskCreate, status: Status, drawn: TaskId, now: int)
    requires Good(s, issued)
    ensures Good(KeptNew(s, Enqueue(s, data, status, drawn, now)), issued)
  {
    CreateKeeps(s, issued, data, drawn, New, now);
    var r := Create(s, data, drawn, New, now);
    if status in {New, Ready} && r.Success? && r.value.0.rows[r.value.1].status == New {
      var (s1, id) := r.value;
      assert RowOk(s1.rows[id]);
      ChangeKeeps(s1, KeptNew(s, Enqueue(s, data, status, drawn, now)), issued, id, TaskReady);
    }
  }

  lemma EnqueueWaitingKeeps(c: Config, s: Store, issued: seq<Lease>, data: TaskCreate, m: Memory, drawn: TaskId,
      now: int)
    requires Good(s, issued) && Clean(m)
    ensures Good(KeptNew(s, EnqueueWaiting(c, s, data, m, drawn, now)), issued)
  {
    CreateKeeps(s, issued, data, drawn, New, now);
    var r := Create(s, data, drawn, New, now);
    if r.Success? && r.value.0.rows[r.value.1].status == New && c.fits(m) {
      var (s1, id) := r.value;
      assert RowOk(s1.rows[id]);
      ChangeKeeps(s1, KeptNew(s, EnqueueWaiting(c, s, data, m, drawn, now)), issued, id, TaskWaitingHuman);
    }
  }

  lemma RecoverOneKeeps(s: Store, issued: seq<Lease>, id: TaskId, now: int)
    requires Good(s, issued) && id in s.rows && s.rows[id].status in {Active, WaitingRetry}
    ensures Good(RecoverOne(s, id, now), issued)
  {
    assert RowOk(s.rows[id]);
    ChangeKeeps(s, RecoverOne(s, id, now), issued, id, TaskRecovered);
  }

  /** Rows outside the list are untouched; rows in it become their recovered form, in any order. */
  lemma {:induction false} RecoverRows(s: Store, ids: seq<TaskId>, now: int)
    requires forall i, j :: 0 <= i < j < |ids| ==> ids[i] != ids[j]
    requires forall id :: id in ids ==> id in s.rows
    ensures var s2 := Recover(s, ids, now);
      && s2.rows.Keys == s.rows.Keys && s2.keys == s.keys
      && (forall id :: id in s.rows && id !in ids ==> s2.rows[id] == s.rows[id])
      && (forall id :: id in ids ==>
            s2.rows[id] == RecoveredRow(s.rows[id], now).(version := s.rows[id].version + 1))
  {
    if |ids| > 0 {
      var front, last := ids[..|ids| - 1], ids[|ids| - 1];
      RecoverRows(s, front, now);
      assert forall id :: id in ids <==> id in front || id == last;
    }
  }

  lemma {:induction false} RecoverKeeps(s: Store, issued: seq<Lease>, ids: seq<TaskId>, now: int)
    requires Good(s, issued)
    requires forall i, j :: 0 <= i < j < |ids| ==> ids[i] != ids[j]
    requires forall id :: id in ids ==> id in s.rows && s.rows[id].status in {Active, WaitingRetry}
    ensures Good(Recover(s, ids, now), issued)
  {
    if |ids| > 0 {
      var front, last := ids[..|ids| - 1], ids[|ids| - 1];
      assert last in ids;
      RecoverKeeps(s, issued, front, now);
      RecoverRows(s, front, now);
      RecoverOneKeeps(Recover(s, front, now), issued, last, now);
    }
  }

  /** What a successful claim changes, and that it never finds a task out of attempts. */
  lemma ClaimChange(c: Config, s: Store, types: set<string>, token: Token, now: int)
    requires RowsOk(s)
    ensures var r := Claim(c, s, types, token, now);
      r.Success? ==>
        var (s2, lease) := r.value;
        && (lease.None? ==> s2 == s)
        && (lease.Some? ==>
              var l := lease.value;
              && Change(s, s2, l.task, TaskClaimed) && First(s, types, Stamp(now), l.task)
              && RowOk(s2.rows[l.task]) && s2.rows[l.task].status == Active
              && l.payload == s.rows[l.task].identity.payload && l.taskType == s.rows[l.task].identity.taskType
              && l.worker == token && s2.rows[l.task].worker == Some(token)
              && l.attempt == s2.rows[l.task].attempts
              && !s2.rows[l.task].Continuation()
              && s2.rows[l.task].attempts
                 == s.rows[l.task].attempts + One(!s.rows[l.task].Continuation()))
  {
    var r := Claim(c, s, types, token, now);
    if types != {} && Next(s, types, Stamp(now)).Some? {
      var id := Next(s, types, Stamp(now)).value;
      assert RowOk(s.rows[id]) && s.rows[id].status == Ready;
    }
  }

  /** A claim gives the row to a fresh token and makes that token the task's latest claim. */
  lemma ClaimKeeps(c: Config, s: Store, issued: seq<Lease>, types: set<string>, token: Token, now: int)
    requires Good(s, issued) && forall l :: l in issued ==> l.worker != token
    ensures var r := Claim(c, s, types, token, now);
      r.Success? ==> Good(r.value.0, issued + (if r.value.1.Some? then [r.value.1.value] else []))
  {
    ClaimChange(c, s, types, token, now);
    var r := Claim(c, s, types, token, now);
    if r.Success? {
      var (s2, lease) := r.value;
      if lease.Some? {
        ChangeKeepsStore(s, s2, lease.value.task, TaskClaimed);
        ClaimKeepsOwners(s, s2, issued, lease.value.task, lease.value);
      } else {
        assert issued + [] == issued;
      }
    }
  }

  lemma ClaimKeepsOwners(s: Store, s2: Store, issued: seq<Lease>, id: TaskId, l: Lease)
    requires OwnersOk(s, issued) && TokensOk(s, issued) && Change(s, s2, id, TaskClaimed)
    requires l.task == id && l.payload == s.rows[id].identity.payload && l.taskType == s.rows[id].identity.taskType
    requires s2.rows[id].worker == Some(l.worker) && s2.rows[id].attempts == l.attempt
    requires s.rows[id].status != Active && forall k :: k in issued ==> k.worker != l.worker
    ensures OwnersOk(s2, issued + [l]) && TokensOk(s2, issued + [l])
  {
    var more := issued + [l];
    forall i, j | 0 <= i < j < |more| ensures more[i].worker != more[j].worker {
      if j == |issued| {
        assert more[i] in issued;
      }
    }
    forall o | o in s2.rows && s2.rows[o].status == Active
      ensures exists i :: OwnedBy(s2.rows[o], more, o, i)
    {
      if o == id {
        assert OwnedBy(s2.rows[o], more, o, |issued|);
      } else {
        var i :| OwnedBy(s.rows[o], issued, o, i);
        assert OwnedBy(s2.rows[o], more, o, i);
      }
    }
  }

  lemma CommittedKeeps(c: Config, s: Store, issued: seq<Lease>, op: Op, now: int)
    requires Good(s, issued) && !op.OpClaim? && LegalOp(Sys(s, issued, now), op, now)
    ensures Good(Committed(c, s, op, now), issued)
  {
    match op {
      case OpEnqueue(d, st, id) => EnqueueKeeps(s, issued, d, st, id, now);
      case OpCreate(d, st, id) => CreateKeeps(s, issued, d, id, st, now);
      case OpEnqueueWaiting(d, m, id) => EnqueueWaitingKeeps(c, s, issued, d, m, id, now);
      case OpHeartbeat(l) => HeartbeatKeeps(c, s, issued, l, now);
      case OpSave(l, m) => SaveKeeps(c, s, issued, l, m, now);
      case OpComplete(l, m, w) => CompleteInTransactionKeeps(c, s, issued, l, m, w, now);
      case OpFail(l, r, d) => FailKeeps(s, issued, l, r, d, now);
      case OpRelease(l) => ReleaseKeeps(c, s, issued, l, now);
      case OpAbort(l) => AbortKeeps(s, issued, l, now);
      case OpRecover(ids) => RecoverKeeps(s, issued, ids, now);
      case OpResume(id, i, v) => ResumeKeeps(c, s, issued, id, i, v, now);
      case OpCancel(id) => CancelKeeps(s, issued, id, now);
    }
  }

  lemma ApplyKeeps(c: Config, sys: Sys, step: Step)
    requires Inv(sys) && Legal(sys, step)
    ensures Inv(Apply(c, sys, step))
  {
    match step.op {
      case OpClaim(types, token) => ClaimKeeps(c, sys.store, sys.issued, types, token, step.now);
      case _ => CommittedKeeps(c, sys.store, sys.issued, step.op, step.now);
    }
  }
}
