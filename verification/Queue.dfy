/**
 The leased task queue: its rows, its audit log, and what each of its transactions does to them.

 Every operation here is one `BEGIN IMMEDIATE` transaction, so it is a function from the committed
 store to the next committed store; a raised error rolls back and is a Failure.
 */
module Queue {
  import opened Wrappers
  import opened Json

  type TaskId = nat    // the number of the task's ULID; equal-length ULID text sorts the same way
  type Token = nat     // the ULID drawn for one claim
  type DedupeKey = seq<Json>

  /** Clock readings are microseconds; the database keeps milliseconds, truncated. */
  function Stamp(now: int): int {
    now / 1000
  }

  datatype Status =
    | New | Ready | Active | WaitingHuman | WaitingRetry
    | Succeeded | Aborted | Failed | Canceled

  predicate Terminal(s: Status) {
    s in {Succeeded, Aborted, Failed, Canceled}
  }

  datatype Event =
    | TaskCreated | TaskReady | TaskClaimed | TaskHeartbeat | TaskMemorySaved
    | TaskWaitingHuman | TaskSucceeded | TaskFailedAttempt | TaskReleased
    | TaskRecovered | TaskResumed | TaskAborted | TaskCanceled | AttemptsExhausted

  /** One activity-log row about a task. */
  datatype Entry = Entry(event: Event, task: TaskId, was: Option<Status>, becomes: Status,
                         attempt: nat, version: nat)

  /** What a replayed creation must agree on. */
  datatype Identity = Identity(taskType: string, dedupeKey: Option<DedupeKey>,
                               application: Option<nat>, job: Option<nat>, parent: Option<TaskId>,
                               payload: Memory)

  datatype TaskCreate = TaskCreate(identity: Identity, priority: int, maxAttempts: nat,
                                   given: Option<TaskId>)

  datatype Task = Task(identity: Identity, priority: int, createdAt: int, status: Status,
                       worker: Option<Token>, leaseExpiresAt: Option<int>, heartbeatAt: Option<int>,
                       attempts: nat, maxAttempts: nat, nextRunAt: Option<int>,
                       startedAt: Option<int>, completedAt: Option<int>, version: nat,
                       memory: Option<Memory>)
  {
    function Memory(): Memory {
      if memory.Some? then memory.value else map[]
    }

    predicate Continuation() {
      Flagged(Memory())
    }
  }

  /** `keys` is the unique index on dedupe_key. */
  datatype Store = Store(rows: map<TaskId, Task>, keys: map<DedupeKey, TaskId>, log: seq<Entry>)

  const EMPTY := Store(map[], map[], [])

  datatype Lease = Lease(task: TaskId, worker: Token, attempt: nat, taskType: string, payload: Memory)

  datatype Error =
    | RecordNotFound | LeaseLost | ConcurrentUpdate | ReplayConflict
    | InvalidArgument | MemoryTooLarge | IntegrityFailure

  /** The lease length, and whether an encoded memory stays within 64 KiB. */
  datatype Config = Config(leaseMicros: nat, fits: Memory -> bool)

  // ---------------------------------------------------------------- shared row steps

  /** `_audit`: the version always advances, and the log records the change in the same commit. */
  function Audited(s: Store, id: TaskId, row: Task, event: Event, was: Status): Store {
    var r := row.(version := row.version + 1);
    s.(rows := s.rows[id := r],
       log := s.log + [Entry(event, id, Some(was), r.status, r.attempts, r.version)])
  }

  /** `_finish`, before its audit. */
  function Finished(row: Task, status: Status, now: int): Task {
    var r := row.(status := status, worker := None, leaseExpiresAt := None, heartbeatAt := None);
    if Terminal(status) then r.(completedAt := Some(Stamp(now)), nextRunAt := None) else r
  }

  /** `_memory`. */
  function WithMemory(c: Config, row: Task, m: Memory): Result<Task, Error> {
    if c.fits(m) then Success(row.(memory := Some(m))) else Failure(MemoryTooLarge)
  }

  /** Ownership as the row states it, whatever the clock says. */
  predicate Owns(s: Store, l: Lease) {
    l.task in s.rows
    && s.rows[l.task].status == Active
    && s.rows[l.task].worker == Some(l.worker)
  }

  /** The conditions under which `fence` lets a lease holder commit. */
  predicate Passes(s: Store, l: Lease, now: int) {
    && Owns(s, l)
    && s.rows[l.task].attempts == l.attempt
    && s.rows[l.task].leaseExpiresAt.Some?
    && s.rows[l.task].leaseExpiresAt.value > Stamp(now)
  }

  function Fence(s: Store, l: Lease, now: int): Result<Task, Error> {
    if l.task !in s.rows then Failure(RecordNotFound)
    else if Passes(s, l, now) then Success(s.rows[l.task])
    else Failure(LeaseLost)
  }

  // ---------------------------------------------------------------- creating tasks

  /** The row a replayed creation would meet: by the given id first, then by the dedupe key. */
  function Existing(s: Store, data: TaskCreate): Option<TaskId> {
    if data.given.Some? && data.given.value in s.rows then data.given
    else if data.identity.dedupeKey.Some? && data.identity.dedupeKey.value in s.keys
    then Some(s.keys[data.identity.dedupeKey.value])
    else None
  }

  function FreshRow(data: TaskCreate, status: Status, now: int): Task {
    Task(data.identity, data.priority, Stamp(now), status, None, None, None, 0, data.maxAttempts,
         None, None, None, 1, None)
  }

  /** `TaskRepository.create`: insert, or return the identical earlier row, or refuse. */
  function Create(s: Store, data: TaskCreate, drawn: TaskId, status: Status, now: int)
    : Result<(Store, TaskId), Error>
  {
    if data.maxAttempts < 1 then Failure(InvalidArgument) else
    var found := Existing(s, data);
    if found.Some? then
      var id := found.value;
      if id in s.rows && s.rows[id].identity == data.identity && (data.given.Some? ==> data.given.value == id)
      then Success((s, id))
      else Failure(ReplayConflict)
    else
      var id := if data.given.Some? then data.given.value else drawn;
      if id in s.rows then Failure(IntegrityFailure) else
      var row := FreshRow(data, status, now);
      Success((Store(s.rows[id := row],
                     if data.identity.dedupeKey.Some? then s.keys[data.identity.dedupeKey.value := id] else s.keys,
                     s.log + [Entry(TaskCreated, id, None, status, 0, 1)]), id))
  }

  function Enqueue(s: Store, data: TaskCreate, status: Status, drawn: TaskId, now: int)
    : Result<(Store, TaskId), Error>
  {
    if status !in {New, Ready} then Failure(InvalidArgument) else
    var (s1, id) :- Create(s, data, drawn, New, now);
    if id in s1.rows && s1.rows[id].status == New
    then Success((Audited(s1, id, s1.rows[id].(status := Ready), TaskReady, New), id))
    else Success((s1, id))
  }

  /** A human-waiting task with its interrupts, made inside a caller's transaction. */
  function EnqueueWaiting(c: Config, s: Store, data: TaskCreate, m: Memory, drawn: TaskId, now: int)
    : Result<(Store, TaskId), Error>
  {
    var (s1, id) :- Create(s, data, drawn, New, now);
    if id !in s1.rows then Failure(RecordNotFound) else
    var row := s1.rows[id];
    if row.status == WaitingHuman then
      if row.memory == Some(m) then Success((s1, id)) else Failure(ConcurrentUpdate)
    else if row.status != New then Failure(ConcurrentUpdate)
    else
      var r :- WithMemory(c, row.(status := WaitingHuman), m);
      Success((Audited(s1, id, r, TaskWaitingHuman, New), id))
  }

  // ---------------------------------------------------------------- claiming

  predicate Eligible(row: Task, types: set<string>, stamp: int) {
    && row.status == Ready
    && row.identity.taskType in types
    && (row.nextRunAt.Some? ==> row.nextRunAt.value <= stamp)
    && (row.leaseExpiresAt.Some? ==> row.leaseExpiresAt.value <= stamp)
  }

  /** Ascending priority, then creation time, then task id. */
  predicate Before(rows: map<TaskId, Task>, a: TaskId, b: TaskId)
    requires a in rows && b in rows
  {
    var x, y := rows[a], rows[b];
    x.priority < y.priority
    || (x.priority == y.priority
        && (x.createdAt < y.createdAt || (x.createdAt == y.createdAt && a <= b)))
  }

  predicate First(s: Store, types: set<string>, stamp: int, id: TaskId) {
    && id in s.rows && Eligible(s.rows[id], types, stamp)
    && forall o :: o in s.rows && Eligible(s.rows[o], types, stamp) ==> Before(s.rows, id, o)
  }

  ghost function Next(s: Store, types: set<string>, stamp: int): (id: Option<TaskId>)
    ensures id.Some? ==> First(s, types, stamp, id.value)
    ensures id.None? ==> forall o :: o in s.rows ==> !Eligible(s.rows[o], types, stamp)
  {
    var due := set o | o in s.rows && Eligible(s.rows[o], types, stamp);
    if due == {} then
      assert forall o :: o in s.rows && Eligible(s.rows[o], types, stamp) ==> o in due;
      None
    else
      SomeLeast(s.rows, due);
      var id :| LeastOf(s.rows, due, id);
      Some(id)
  }

  ghost predicate LeastOf(rows: map<TaskId, Task>, due: set<TaskId>, id: TaskId)
    requires due <= rows.Keys
  {
    id in due && forall o :: o in due ==> Before(rows, id, o)
  }

  lemma {:induction false} LeastExists(rows: map<TaskId, Task>, due: set<TaskId>) returns (least: TaskId)
    requires due != {} && due <= rows.Keys
    ensures LeastOf(rows, due, least)
    decreases due
  {
    hide Before;
    var x :| x in due;
    var rest := due - {x};
    BeforeTotal(rows, x, x);
    if rest == {} {
      assert due == {x};
      least := x;
    } else {
      var y := LeastExists(rows, rest);
      BeforeTotal(rows, x, y);
      least := if Before(rows, x, y) then x else y;
      forall o | o in due ensures Before(rows, least, o) {
        if o in rest && least == x {
          BeforeTransitive(rows, x, y, o);
        }
      }
    }
  }

  lemma SomeLeast(rows: map<TaskId, Task>, due: set<TaskId>)
    requires due != {} && due <= rows.Keys
    ensures exists id :: LeastOf(rows, due, id)
  {
    var least := LeastExists(rows, due);
  }

  lemma BeforeTotal(rows: map<TaskId, Task>, a: TaskId, b: TaskId)
    requires a in rows && b in rows
    ensures Before(rows, a, b) || Before(rows, b, a)
  {
  }

  lemma BeforeTransitive(rows: map<TaskId, Task>, a: TaskId, b: TaskId, c: TaskId)
    requires a in rows && b in rows && c in rows && Before(rows, a, b) && Before(rows, b, c)
    ensures Before(rows, a, c)
  {
  }

  /** The claimed row, or None where a task without the marker has used all its attempts. */
  function Claimed(c: Config, row: Task, token: Token, now: int): Result<Task, Error> {
    var continuation := row.Continuation();
    var r := row.(status := Active, worker := Some(token),
                  attempts := if continuation then row.attempts else row.attempts + 1,
                  heartbeatAt := Some(Stamp(now)), leaseExpiresAt := Some(Stamp(now + c.leaseMicros)),
                  startedAt := if row.startedAt.Some? then row.startedAt else Some(Stamp(now)),
                  nextRunAt := None);
    if continuation then WithMemory(c, r, row.Memory() - {CONTINUATION}) else Success(r)
  }

  predicate Exhausted(row: Task) {
    row.attempts >= row.maxAttempts && !row.Continuation()
  }

  ghost function Claim(c: Config, s: Store, types: set<string>, token: Token, now: int)
    : Result<(Store, Option<Lease>), Error>
  {
    if types == {} then Success((s, None)) else
    match Next(s, types, Stamp(now))
    case None => Success((s, None))
    case Some(id) =>
      var row := s.rows[id];
      if Exhausted(row) then
        Success((Audited(s, id, Finished(row, Failed, now), AttemptsExhausted, row.status), None))
      else
        var r :- Claimed(c, row, token, now);
        Success((Audited(s, id, r, TaskClaimed, Ready),
                 Some(Lease(id, token, r.attempts, row.identity.taskType, row.identity.payload))))
  }

  // ---------------------------------------------------------------- a lease holder's operations

  function Heartbeat(c: Config, s: Store, l: Lease, now: int): Result<Store, Error> {
    var row :- Fence(s, l, now);
    Success(Audited(s, l.task,
                    row.(heartbeatAt := Some(Stamp(now)), leaseExpiresAt := Some(Stamp(now + c.leaseMicros))),
                    TaskHeartbeat, Active))
  }

  function SaveMemory(c: Config, s: Store, l: Lease, m: Memory, now: int): Result<Store, Error> {
    var row :- Fence(s, l, now);
    var r :- WithMemory(c, row, m);
    Success(Audited(s, l.task, r, TaskMemorySaved, Active))
  }

  /** `complete_in_transaction`: a caller that already passed the fence re-checks ownership only. */
  function CompleteInTransaction(c: Config, s: Store, l: Lease, m: Memory, waiting: bool, now: int)
    : Result<Store, Error>
  {
    if l.task !in s.rows then Failure(RecordNotFound) else
    if !Owns(s, l) || s.rows[l.task].attempts != l.attempt then Failure(LeaseLost) else
    var row := s.rows[l.task];
    var r :- WithMemory(c, row, m);
    Success(Audited(s, l.task, Finished(r, if waiting then WaitingHuman else Succeeded, now),
                    if waiting then TaskWaitingHuman else TaskSucceeded, row.status))
  }

  function Complete(c: Config, s: Store, l: Lease, m: Memory, waiting: bool, now: int): Result<Store, Error> {
    var _ :- Fence(s, l, now);
    CompleteInTransaction(c, s, l, m, waiting, now)
  }

  function Fail(s: Store, l: Lease, retryable: bool, delay: nat, now: int): Result<Store, Error> {
    var row :- Fence(s, l, now);
    var retry := retryable && row.attempts < row.maxAttempts;
    var r := if retry then row.(nextRunAt := Some(Stamp(now + delay))) else row;
    Success(Audited(s, l.task, Finished(r, if retry then WaitingRetry else Failed, now),
                    TaskFailedAttempt, row.status))
  }

  function Release(c: Config, s: Store, l: Lease, now: int): Result<Store, Error> {
    var row :- Fence(s, l, now);
    var r :- WithMemory(c, row, row.Memory()[CONTINUATION := Bool(true)]);
    Success(Audited(s, l.task, Finished(r, Ready, now), TaskReleased, row.status))
  }

  function Abort(s: Store, l: Lease, now: int): Result<Store, Error> {
    var row :- Fence(s, l, now);
    Success(Audited(s, l.task, Finished(row, Aborted, now), TaskAborted, row.status))
  }

  // ---------------------------------------------------------------- anyone's operations

  /** Rows that recovery takes: dead leases and due retries. */
  predicate Recoverable(row: Task, stamp: int) {
    || (row.status == Active && (row.leaseExpiresAt.None? || row.leaseExpiresAt.value <= stamp))
    || (row.status == WaitingRetry && row.nextRunAt.Some? && row.nextRunAt.value <= stamp)
  }

  function RecoveredRow(row: Task, now: int): Task {
    Finished(row.(nextRunAt := None), if row.attempts >= row.maxAttempts then Failed else Ready, now)
  }

  function RecoverOne(s: Store, id: TaskId, now: int): Store {
    if id !in s.rows then s else
    Audited(s, id, RecoveredRow(s.rows[id], now), TaskRecovered, s.rows[id].status)
  }

  /** The rows of the recovery query, in whatever order the database returns them. */
  ghost predicate RecoveryQuery(s: Store, now: int, ids: seq<TaskId>) {
    && (forall i, j :: 0 <= i < j < |ids| ==> ids[i] != ids[j])
    && (forall id :: id in ids <==> id in s.rows && Recoverable(s.rows[id], Stamp(now)))
  }

  function Recover(s: Store, ids: seq<TaskId>, now: int): Store {
    if |ids| == 0 then s
    else RecoverOne(Recover(s, ids[..|ids| - 1], now), ids[|ids| - 1], now)
  }

  function Resume(c: Config, s: Store, id: TaskId, interrupt: string, value: Json, now: int)
    : Result<Store, Error>
  {
    if id !in s.rows then Failure(RecordNotFound) else
    var row := s.rows[id];
    var m := row.Memory();
    var reply := Reply(interrupt, value);
    if RESUME in m && m[RESUME] == reply then Success(s)
    else if row.status != WaitingHuman || interrupt !in PendingInterrupts(m) then Failure(ConcurrentUpdate)
    else
      var r :- WithMemory(c, row, m[RESUME := reply][CONTINUATION := Bool(true)]);
      Success(Audited(s, id, Finished(r, Ready, now), TaskResumed, row.status))
  }

  function Cancel(s: Store, id: TaskId, now: int): Result<Store, Error> {
    if id !in s.rows then Failure(RecordNotFound)
    else if s.rows[id].status !in {New, Ready, WaitingHuman} then Failure(ConcurrentUpdate)
    else Success(Audited(s, id, Finished(s.rows[id], Canceled, now), TaskCanceled, s.rows[id].status))
  }
}
