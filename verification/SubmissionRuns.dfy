/**
 Runs of the submission pipeline.

 Every executor is a program counter over the separate transactions of `execute`; between any two
 steps anything else may happen: queue operations, lost leases, recovery, other executors, edits of
 the inputs, tampering with files.  A crashed executor takes no further step.
 */
module SubmissionRuns {
  import opened Wrappers
  import opened Json
  import opened Submission
  import opened QueueRuns
  import Queue

  datatype Pc =
    | Fetching(k: Case)                        // after the fenced checks: read the review file
    | Comparing(k: Case, review: Json)         // recompute the review from the database
    | Revoking(k: Case)
    | Planning(k: Case, review: Json)
    | Reconciling(k: Case, review: Json)       // call the adapter's read-only reconcile
    | Starting(k: Case, review: Json)
    | Clicking(k: Case, review: Json)          // authorised: call adapter.submit
    | Recording(k: Case, outcome: Outcome)
    | Scheduling(k: Case)
    | Stopped

  /** `since` is when the fenced checks of this execution ran. */
  datatype Exec = Exec(lease: Queue.Lease, pc: Pc, since: int)

  /** Ghost logs: clicks authorised, clicks made, outcomes recorded. */
  datatype Auth = Auth(key: ActionKey, approval: ApprovalId, token: Queue.Token, review: Json)
  datatype Call = Call(key: ActionKey, token: Queue.Token, review: Json)
  datatype Rec = Rec(key: ActionKey, outcome: Outcome)

  /** A form worker between its check of the application and the end of the form stage. */
  datatype Form = Form(lease: Queue.Lease, app: AppId)

  datatype World = World(db: Db, issued: seq<Queue.Lease>, now: int, execs: map<Queue.Token, Exec>,
                         forms: map<Queue.Token, Form>, auths: seq<Auth>, calls: seq<Call>, recs: seq<Rec>)

  const DAWN := World(Db(Queue.EMPTY, map[], map[], map[], map[], map[]), [], 0, map[], map[], [], [], [])

  /** What the environment picks for one executor step: an adapter outcome and fresh identifiers. */
  datatype Choice = Choice(outcome: Outcome, token: nat, first: Queue.TaskId, second: Queue.TaskId)

  datatype Event =
    | QueueStep(op: Op)
    | NewApplication(app: AppId, job: nat, url: string, drawn: Queue.TaskId)
    | FormStart(formLease: Queue.Lease)
    | FormDone(form: Queue.Token, memory: Memory, drawn: Queue.TaskId)
    | PrepareReview(reviewLease: Queue.Lease, ids: Drawn)
    | Decide(approval: ApprovalId, user: User, approve: bool)
    | EditInputs(editedApp: AppId, inputs: Option<Memory>)
    | WriteFile(path: Json, bytes: Bytes)
    | SetStatus(movedApp: AppId, status: AppStatus, stage: Stage)
    | Begin(lease: Queue.Lease)
    | Proceed(exec: Queue.Token, choice: Choice)
    | RecoverActions

  datatype At = At(now: int, event: Event)

  function QueueSys(w: World): Sys {
    Sys(w.db.queue, w.issued, w.now)
  }

  function Goto(w: World, tok: Queue.Token, pc: Pc): World
    requires tok in w.execs
  {
    w.(execs := w.execs[tok := w.execs[tok].(pc := pc)])
  }

  /** One transaction or one adapter call of an executor. */
  function StepExec(c: Config, w: World, tok: Queue.Token, ch: Choice): World
    requires tok in w.execs
  {
    var l := w.execs[tok].lease;
    match w.execs[tok].pc
    case Fetching(k) =>
      var r := ReadReview(c, w.db, k.path, k.sha);
      if r.Some? && CreatedAt(r.value).Some? then Goto(w, tok, Comparing(k, r.value)) else Goto(w, tok, Revoking(k))
    case Comparing(k, review) =>
      if CreatedAt(review).Some? && Payload(w.db, k.app, CreatedAt(review).value) == Some(review)
      then Goto(w, tok, Planning(k, review)) else Goto(w, tok, Revoking(k))
    case Revoking(k) =>
      var r := Revoke(w.db, l, k, w.now);
      Goto(if r.Success? then w.(db := r.value) else w, tok, Stopped)
    case Planning(k, review) =>
      var r := Plan(w.db, l, k, w.now);
      if r.Failure? then Goto(w, tok, Stopped) else
      var w2 := w.(db := r.value.0);
      (match r.value.1
       case Succeeded => Goto(w2, tok, Stopped)
       case Executing => Goto(w2, tok, Reconciling(k, review))
       case UnknownResult => Goto(w2, tok, Reconciling(k, review))
       case Planned => Goto(w2, tok, Starting(k, review))
       case Failed => Goto(w2, tok, Starting(k, review)))
    case Reconciling(k, review) => Goto(w, tok, Recording(k, ch.outcome))
    case Starting(k, review) =>
      var r := Start(c, w.db, l, k, review, w.now);
      if r.Failure? then Goto(w, tok, Stopped)
      else if !r.value.1 then Goto(w.(db := r.value.0), tok, Stopped)
      else Goto(w.(db := r.value.0, auths := w.auths + [Auth(k.Key(), k.approval, tok, review)]), tok,
        Clicking(k, review))
    case Clicking(k, review) =>
      Goto(w.(calls := w.calls + [Call(k.Key(), tok, review)]), tok, Recording(k, ch.outcome))
    case Recording(k, outcome) =>
      var r := Record(w.db, l, k.Key(), outcome, ch.first, ch.second, w.now);
      if r.Failure? then Goto(w, tok, Stopped) else
      Goto(w.(db := r.value, recs := w.recs + [Rec(k.Key(), outcome)]), tok,
           if outcome == NotSubmitted then Scheduling(k) else Stopped)
    case Scheduling(k) =>
      var r := ScheduleNewReview(w.db, l, k.app, ch.token, ch.first, w.now);
      Goto(if r.Success? then w.(db := r.value) else w, tok, Stopped)
    case Stopped => w
  }

  /** The fenced checks that open an execution. */
  function BeginExec(c: Config, w: World, l: Queue.Lease): World {
    var (db, r) := Validated(c, w.db, l, w.now);
    w.(db := db, execs := w.execs[l.worker := Exec(l, if r.Success? then Fetching(r.value) else Stopped, w.now)])
  }

  /** A new application starts in an earlier stage, owned by some earlier task. */
  function AddApplication(w: World, app: AppId, job: nat, url: string, drawn: Queue.TaskId): World {
    var identity := Queue.Identity(FORM, None, Some(app), Some(job), None, map[]);
    var r := Queue.Create(w.db.queue, Queue.TaskCreate(identity, 100, 3, None), drawn, Queue.Ready, w.now);
    if r.Failure? then w else
    w.(db := w.db.(queue := r.value.0,
                   apps := w.db.apps[app := App(OtherStatus("FORM_READY"), OtherStage("FORM"), r.value.1, job, url,
                     None)]))
  }

  function StartForm(w: World, l: Queue.Lease): World {
    var r := FormApplication(w.db, l, w.now);
    if r.Success? then w.(forms := w.forms[l.worker := Form(l, r.value)]) else w
  }

  function EndForm(c: Config, w: World, tok: Queue.Token, m: Memory, drawn: Queue.TaskId): World
    requires tok in w.forms
  {
    var r := FinishForm(c, w.db, w.forms[tok].lease, w.forms[tok].app, m, drawn, w.now);
    if r.Success? then w.(db := r.value) else w
  }

  function DecideApproval(w: World, a: ApprovalId, user: User, approve: bool): World {
    if a in w.db.approvals && w.db.approvals[a].status == Pending then
      w.(db := w.db.(approvals := w.db.approvals[a := w.db.approvals[a].(
        status := if approve then Approved else Rejected, decidedBy := Some(user))]))
    else w
  }

  ghost function Happen(c: Config, w0: World, at: At): World {
    var w := w0.(now := at.now);
    match at.event
    case QueueStep(op) =>
      var sys := Apply(c.queue, QueueSys(w0), Step(at.now, op));
      w.(db := w.db.(queue := sys.store), issued := sys.issued)
    case NewApplication(app, job, url, drawn) => AddApplication(w, app, job, url, drawn)
    case FormStart(l) => StartForm(w, l)
    case FormDone(tok, m, drawn) => if tok in w.forms then EndForm(c, w, tok, m, drawn) else w
    case PrepareReview(l, ids) => w.(db := Prepare(c, w.db, l, ids, w.now).0)
    case Decide(a, user, approve) => DecideApproval(w, a, user, approve)
    case EditInputs(app, inputs) => w.(db := w.db.(inputs := w.db.inputs[app := inputs]))
    case WriteFile(path, bytes) => w.(db := w.db.(files := w.db.files[path := bytes]))
    case SetStatus(app, status, stage) =>
      if app in w.db.apps
      then w.(db := w.db.(apps := w.db.apps[app := w.db.apps[app].(status := status, stage := stage)])) else w
    case Begin(l) => BeginExec(c, w, l)
    case Proceed(tok, ch) => if tok in w.execs then StepExec(c, w, tok, ch) else w
    case RecoverActions => w.(db := Submission.Recover(w.db))
  }

  /**
   The environment's promises: the clock does not go back, the queue is used as QueueRuns allows, each
   lease runs one execution, form workers claim form tasks only, and application ids are fresh.  Statuses,
   inputs and files may change in any way.
   */
  ghost predicate May(w: World, at: At) {
    at.now >= w.now &&
    match at.event
    case QueueStep(op) => LegalOp(QueueSys(w), op, at.now)
    case NewApplication(app, _, _, _) => app !in w.db.apps
    case FormStart(l) => l in w.issued && l.taskType == FORM && l.worker !in w.forms
    case FormDone(_, m, _) => Clean(m)
    case PrepareReview(l, _) => l in w.issued
    case Begin(l) => l in w.issued && l.worker !in w.execs
    case _ => true
  }

  /** The states of the pipeline, and the events between them. */
  datatype Run = Run(worlds: seq<World>, events: seq<At>)

  ghost predicate EventAt(c: Config, r: Run, i: nat) {
    && i < |r.events| && i + 1 < |r.worlds|
    && May(r.worlds[i], r.events[i]) && r.worlds[i + 1] == Happen(c, r.worlds[i], r.events[i])
  }

  ghost predicate IsRun(c: Config, r: Run) {
    |r.worlds| == |r.events| + 1 && r.worlds[0] == DAWN && forall i :: 0 <= i < |r.events| ==> EventAt(c, r, i)
  }

  // ---------------------------------------------------------------- the invariant: tables

  function TypeOf(q: Queue.Store, id: Queue.TaskId): string
    requires id in q.rows
  {
    q.rows[id].identity.taskType
  }

  /** The task is a submission task whose payload names this case. */
  ghost predicate CaseTask(q: Queue.Store, id: Queue.TaskId, k: Case) {
    id in q.rows && TypeOf(q, id) == SUBMIT && CaseOf(q.rows[id].identity.payload) == Success(k)
  }

  /** An action row belongs to the one task whose payload has its key and approval. */
  ghost predicate ActionOk(db: Db, key: ActionKey) {
    key in db.actions && key.app in db.apps
    && var a := db.actions[key];
       a.app == key.app && a.sha == key.sha && a.approval in db.approvals && Names(db.queue, a, key)
  }

  ghost predicate Names(q: Queue.Store, a: Action, key: ActionKey) {
    exists k :: CaseTask(q, a.task, k) && k.Key() == key && k.approval == a.approval
  }

  /** Actions of tasks that are no longer current are over. */
  ghost predicate PastOver(db: Db, app: AppId) {
    app in db.apps && db.apps[app].current in db.queue.rows
    && forall key :: key in db.actions && key.app == app && db.actions[key].task != db.apps[app].current
         ==> db.actions[key].status in {Failed, Succeeded}
  }

  /** After a success the pipeline has moved on to the connector, and every other action had failed. */
  ghost predicate SuccessLast(db: Db, app: AppId) {
    app in db.apps && db.apps[app].current in db.queue.rows
    && forall key :: key in db.actions && key.app == app && db.actions[key].status == Succeeded ==>
         && TypeOf(db.queue, db.apps[app].current) == CONNECT
         && forall o :: o in db.actions && o.app == app && o != key ==> db.actions[o].status == Failed
  }

  ghost predicate TablesOk(db: Db) {
    && (forall key :: key in db.actions ==> ActionOk(db, key))
    && (forall app :: app in db.apps ==> PastOver(db, app) && SuccessLast(db, app))
  }

  // ---------------------------------------------------------------- the invariant: ghost logs

  ghost predicate AuthorisedBy(auths: seq<Auth>, key: ActionKey) {
    exists i :: 0 <= i < |auths| && auths[i].key == key
  }

  ghost predicate ConsumedBy(auths: seq<Auth>, a: ApprovalId) {
    exists i :: 0 <= i < |auths| && auths[i].approval == a
  }

  ghost predicate AuthOk(db: Db, a: Auth) {
    && a.key in db.actions && db.actions[a.key].status != Planned && db.actions[a.key].approval == a.approval
    && a.approval in db.approvals && db.approvals[a.approval].status == Consumed
    && Hash(Canonical(a.review)) == a.key.sha
  }

  ghost predicate AuthsOk(db: Db, auths: seq<Auth>) {
    && (forall i :: 0 <= i < |auths| ==> AuthOk(db, auths[i]))
    && (forall i, j :: 0 <= i < j < |auths| ==> auths[i].key != auths[j].key && auths[i].approval != auths[j].approval)
    && (forall key :: key in db.actions && db.actions[key].status != Planned ==> AuthorisedBy(auths, key))
    && (forall a :: a in db.approvals && db.approvals[a].status == Consumed ==> ConsumedBy(auths, a))
  }

  ghost predicate CallsOk(auths: seq<Auth>, calls: seq<Call>) {
    && (forall i, j :: 0 <= i < j < |calls| ==> calls[i].key != calls[j].key)
    && (forall i :: 0 <= i < |calls| ==> CallAuthorised(auths, calls[i]))
  }

  /** The click was made by the executor that was authorised, with the very review that was authorised. */
  ghost predicate CallAuthorised(auths: seq<Auth>, call: Call) {
    exists n :: 0 <= n < |auths| && auths[n].key == call.key && auths[n].token == call.token
                && auths[n].review == call.review
  }

  ghost predicate RecsOk(db: Db, recs: seq<Rec>) {
    forall key :: key in db.actions ==>
      && (db.actions[key].status == Failed ==> Rec(key, NotSubmitted) in recs)
      && (db.actions[key].status == Succeeded ==> Rec(key, Confirmed) in recs)
  }

  // ---------------------------------------------------------------- the invariant: executors

  /** The executor's lease, task, approval and payload agree; none of these ever changes. */
  ghost predicate BoundTo(db: Db, l: Queue.Lease, k: Case) {
    && CaseTask(db.queue, l.task, k) && k.app in db.apps && k.approval in db.approvals
    && db.approvals[k.approval].app == k.app && db.approvals[k.approval].task == l.task
    && db.approvals[k.approval].path == k.path && db.approvals[k.approval].sha == k.sha
  }

  ghost predicate HasAction(db: Db, l: Queue.Lease, k: Case) {
    k.Key() in db.actions && db.actions[k.Key()].task == l.task && db.actions[k.Key()].approval == k.approval
  }

  /** While the executor still owns its task, its authorised action is not yet decided. */
  ghost predicate Undecided(db: Db, l: Queue.Lease, k: Case) {
    Queue.Owns(db.queue, l) ==> k.Key() in db.actions && db.actions[k.Key()].status in {Executing, UnknownResult}
  }

  function BoundReview(k: Case, review: Json): bool {
    Hash(Canonical(review)) == k.sha
  }

  ghost predicate PcOk(w: World, tok: Queue.Token, l: Queue.Lease, pc: Pc) {
    match pc
    case Fetching(k) => true
    case Comparing(k, review) => BoundReview(k, review)
    case Revoking(k) => true
    case Planning(k, review) => BoundReview(k, review)
    case Starting(k, review) => BoundReview(k, review) && HasAction(w.db, l, k)
    case Reconciling(k, review) =>
      BoundReview(k, review) && HasAction(w.db, l, k) && AuthorisedBy(w.auths, k.Key()) && Undecided(w.db, l, k)
    case Clicking(k, review) =>
      && BoundReview(k, review) && HasAction(w.db, l, k) && Undecided(w.db, l, k)
      && Auth(k.Key(), k.approval, tok, review) in w.auths
      && (forall i :: 0 <= i < |w.calls| ==> w.calls[i].key != k.Key())
    case Recording(k, _) => HasAction(w.db, l, k) && AuthorisedBy(w.auths, k.Key()) && Undecided(w.db, l, k)
    case Scheduling(k) => HasAction(w.db, l, k) && StatusOf(w.db, k) == Failed
    case Stopped => true
  }

  function StatusOf(db: Db, k: Case): ActionStatus {
    if k.Key() in db.actions then db.actions[k.Key()].status else Planned
  }

  /** An executor that still owns its task finds the application's current task to be its own. */
  ghost predicate Current(db: Db, l: Queue.Lease, k: Case) {
    Queue.Owns(db.queue, l) ==> k.app in db.apps && db.apps[k.app].current == l.task
  }

  ghost predicate ExecOk(w: World, tok: Queue.Token, x: Exec) {
    && x.lease in w.issued && x.lease.worker == tok
    && (!x.pc.Stopped? ==>
          BoundTo(w.db, x.lease, x.pc.k) && Current(w.db, x.lease, x.pc.k) && PcOk(w, tok, x.lease, x.pc))
  }

  ghost predicate ExecsOk(w: World) {
    forall tok :: tok in w.execs ==> ExecOk(w, tok, w.execs[tok])
  }

  /** A form worker that still owns its task finds the application's current task to be its own. */
  ghost predicate FormOk(w: World, tok: Queue.Token, x: Form) {
    && x.lease in w.issued && x.lease.worker == tok && x.app in w.db.apps
    && x.lease.task in w.db.queue.rows && TypeOf(w.db.queue, x.lease.task) == FORM
    && (Queue.Owns(w.db.queue, x.lease) ==> w.db.apps[x.app].current == x.lease.task)
  }

  ghost predicate FormsOk(w: World) {
    forall tok :: tok in w.forms ==> FormOk(w, tok, w.forms[tok])
  }

  ghost predicate Safe(w: World) {
    && Inv(QueueSys(w)) && TablesOk(w.db) && AuthsOk(w.db, w.auths) && CallsOk(w.auths, w.calls)
    && RecsOk(w.db, w.recs) && ExecsOk(w)
  }
}
