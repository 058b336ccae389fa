/**
 Reviews, approvals and the submission ledger: the tables, and the transactions of the review and
 submission services.

 A review is the canonical JSON of the application's validated inputs; an approval binds one review
 file by its digest; an action row is unique per application and digest.
 */
module Submission {
  import opened Wrappers
  import opened Json
  import Queue

  type AppId = nat
  type ApprovalId = nat
  type User = nat

  datatype AppStatus =
    | ReadyToReview | SubmissionApproved | Submitting | SubmissionUnknown | Submitted
    | OtherStatus(name: string)

  datatype Stage = StageReview | StageSubmission | StagePostSubmission | OtherStage(name: string)

  /** The pipeline and details rows of an application; their two status columns are always written together. */
  datatype App = App(status: AppStatus, stage: Stage, current: Queue.TaskId, job: nat, url: string,
                     submittedAt: Option<int>)

  datatype ApprovalStatus = Pending | Approved | Rejected | Expired | Revoked | Consumed

  /** Only approvals of the SUBMIT_APPLICATION type are kept here. */
  datatype Approval = Approval(app: AppId, task: Queue.TaskId, path: Json, sha: Json,
                               status: ApprovalStatus, validUntil: Option<int>, decidedBy: Option<User>)

  datatype ActionStatus = Planned | Executing | Succeeded | Failed | UnknownResult

  /** The idempotency key `submit:<application>:<digest>`, unique in the table. */
  datatype ActionKey = ActionKey(app: AppId, sha: Json)

  datatype Action = Action(app: AppId, task: Queue.TaskId, approval: ApprovalId, sha: Json, status: ActionStatus)

  datatype Outcome = Confirmed | Unknown | NotSubmitted

  /** `inputs` is what review_payload would collect now, None where it would raise. */
  datatype Db = Db(queue: Queue.Store, apps: map<AppId, App>, approvals: map<ApprovalId, Approval>,
                   actions: map<ActionKey, Action>, inputs: map<AppId, Option<Memory>>, files: map<Json, Bytes>)

  datatype Config = Config(queue: Queue.Config, live: bool, authorized: set<User>,
                           readable: Bytes -> bool, ttlMicros: nat)

  datatype Error =
    | Blocked(reason: string)          // SubmissionError
    | ReviewFailed(reason: string)     // ReviewError
    | QueueFailed(error: Queue.Error)
    | InvalidId

  const SUBMIT := "SUBMIT_APPLICATION"
  const CREATE_REVIEW := "CREATE_REVIEW"
  const CONNECT := "CONNECT_CONTACTS"
  const MONITOR := "MONITOR_APPLICATION"
  const FORM := "FORM_PROCESS"

  // ---------------------------------------------------------------- review content

  /** `review_payload`: the review value recomputed from the database. */
  function Payload(db: Db, app: AppId, createdAt: Json): Option<Json> {
    if app in db.apps && app in db.inputs && db.inputs[app].Some? then
      Some(Obj(db.inputs[app].value["application_id" := Id(app)]["created_at" := createdAt]))
    else None
  }

  /** `read_review`: the file must be small, match its digest and be canonical JSON of an object. */
  function ReadReview(c: Config, db: Db, path: Json, sha: Json): Option<Json> {
    if path in db.files && c.readable(db.files[path]) && Hash(db.files[path]) == sha
       && db.files[path].Canonical? && db.files[path].value.Obj?
    then Some(db.files[path].value)
    else None
  }

  function CreatedAt(review: Json): Option<Json> {
    if review.Obj? && "created_at" in review.fields && IsText(review.fields["created_at"])
    then Some(review.fields["created_at"]) else None
  }

  /** The review still is what the file holds and what the database would produce. */
  predicate Unchanged(c: Config, db: Db, k: Case, review: Json) {
    && CreatedAt(review).Some?
    && ReadReview(c, db, k.path, k.sha) == Some(review)
    && Payload(db, k.app, CreatedAt(review).value) == Some(review)
  }

  // ---------------------------------------------------------------- validation

  /** What a submission task's payload names. */
  datatype Case = Case(app: AppId, approval: ApprovalId, path: Json, sha: Json) {
    function Key(): ActionKey {
      ActionKey(app, sha)
    }
  }

  function Field(m: Memory, name: string): Json {
    if name in m then m[name] else Null
  }

  function CaseOf(payload: Memory): Result<Case, Error> {
    var a, p := Field(payload, "application_id"), Field(payload, "approval_id");
    var path, sha := Field(payload, "review_path"), Field(payload, "review_sha256");
    if !(IsText(a) && IsText(p) && IsText(path) && IsText(sha)) then Failure(Blocked("submission_task_payload_invalid"))
    else if !a.Id? || !p.Id? then Failure(InvalidId)
    else Success(Case(a.ulid, p.ulid, path, sha))
  }

  function Fenced(q: Queue.Store, l: Queue.Lease, now: int): Result<Queue.Task, Error> {
    var r := Queue.Fence(q, l, now);
    if r.Success? then Success(r.value) else Failure(QueueFailed(r.error))
  }

  predicate Correlated(db: Db, l: Queue.Lease, k: Case) {
    && l.task in db.queue.rows
    && db.queue.rows[l.task].identity.taskType == SUBMIT
    && db.queue.rows[l.task].identity.application == Some(k.app)
    && k.app in db.apps && db.apps[k.app].current == l.task
    && k.approval in db.approvals
    && var a := db.approvals[k.approval];
       a.app == k.app && a.task == l.task && a.path == k.path && a.sha == k.sha
  }

  function Name(s: ApprovalStatus): string {
    match s
    case Pending => "pending"
    case Approved => "approved"
    case Rejected => "rejected"
    case Expired => "expired"
    case Revoked => "revoked"
    case Consumed => "consumed"
  }

  predicate PastDeadline(a: Approval, now: int) {
    a.validUntil.None? || now >= a.validUntil.value * 1000
  }

  /** The fenced part of `_validated`; an expiry is committed although the call then raises. */
  function Validated(c: Config, db: Db, l: Queue.Lease, now: int): (Db, Result<Case, Error>) {
    if !c.live then (db, Failure(Blocked("submission_requires_live_mode"))) else
    var correlation := CaseOf(l.payload);
    if correlation.Failure? then (db, Failure(correlation.error)) else
    var k := correlation.value;
    var row := Fenced(db.queue, l, now);
    if row.Failure? then (db, Failure(row.error)) else
    if !Correlated(db, l, k) then (db, Failure(Blocked("submission_correlation_invalid"))) else
    var a := db.approvals[k.approval];
    if a.status == Approved && (a.decidedBy.None? || a.decidedBy.value !in c.authorized) then
      (db, Failure(Blocked("submission_approver_not_authorized")))
    else if a.status !in {Approved, Consumed} then (db, Failure(Blocked("submission_approval_" + Name(a.status))))
    else if db.apps[k.app].status.OtherStatus? then (db, Failure(Blocked("submission_application_state_invalid")))
    else if a.status == Approved && PastDeadline(a, now) then
      (db.(approvals := db.approvals[k.approval := a.(status := Expired)]),
       Failure(Blocked("submission_approval_expired")))
    else (db, Success(k))
  }

  /** `_revoke`. */
  function Revoke(db: Db, l: Queue.Lease, k: Case, now: int): Result<Db, Error> {
    var _ :- Fenced(db.queue, l, now);
    var approvals :=
      if k.approval in db.approvals && db.approvals[k.approval].status in {Pending, Approved}
      then db.approvals[k.approval := db.approvals[k.approval].(status := Revoked)] else db.approvals;
    var apps :=
      if k.app in db.apps && db.apps[k.app].status != Submitted
      then db.apps[k.app := db.apps[k.app].(stage := StageReview, status := ReadyToReview)] else db.apps;
    Success(db.(approvals := approvals, apps := apps))
  }

  // ---------------------------------------------------------------- the ledger

  predicate Open(s: ActionStatus) {
    s in {Executing, UnknownResult, Succeeded}
  }

  /** `_action`: find the row of this key, or plan it while no other action of the application is open. */
  function Plan(db: Db, l: Queue.Lease, k: Case, now: int): Result<(Db, ActionStatus), Error> {
    var _ :- Fenced(db.queue, l, now);
    if k.Key() in db.actions then
      var a := db.actions[k.Key()];
      if a.app != k.app || a.task != l.task || a.approval != k.approval || a.sha != k.sha
      then Failure(Blocked("submission_idempotency_conflict"))
      else Success((db, a.status))
    else if exists o :: o in db.actions && db.actions[o].app == k.app && Open(db.actions[o].status)
    then Failure(Blocked("submission_action_already_exists"))
    else
      var row := Action(k.app, l.task, k.approval, k.sha, Planned);
      Success((db.(actions := db.actions[k.Key() := row]), Planned))
  }

  predicate Startable(db: Db, k: Case) {
    && k.Key() in db.actions && db.actions[k.Key()].status == Planned
    && k.approval in db.approvals && db.approvals[k.approval].status == Approved
    && k.app in db.apps && db.apps[k.app].status == ReadyToReview
  }

  /** The commit that authorises a click: approval, application and action move together. */
  function Authorised(db: Db, k: Case): Db
    requires Startable(db, k)
  {
    db.(approvals := db.approvals[k.approval := db.approvals[k.approval].(status := Consumed)],
        apps := db.apps[k.app := db.apps[k.app].(stage := StageSubmission, status := Submitting)],
        actions := db.actions[k.Key() := db.actions[k.Key()].(status := Executing)])
  }

  /** `_start`: the returned flag says whether the click is authorised; otherwise the approval is revoked. */
  function Start(c: Config, db: Db, l: Queue.Lease, k: Case, review: Json, now: int): Result<(Db, bool), Error> {
    var _ :- Fenced(db.queue, l, now);
    if !Startable(db, k) then Failure(Blocked("submission_start_state_invalid"))
    else if !Unchanged(c, db, k, review) then
      Success((db.(approvals := db.approvals[k.approval := db.approvals[k.approval].(status := Revoked)]), false))
    else Success((Authorised(db, k), true))
  }

  function FollowUp(taskType: string, key: seq<Json>, app: AppId, row: App, parent: Queue.TaskId, payload: Memory)
    : Queue.TaskCreate
  {
    Queue.TaskCreate(Queue.Identity(taskType, Some(key), Some(app), Some(row.job), Some(parent), payload), 100, 3, None)
  }

  /** A follow-up task made inside the caller's transaction. */
  function Spawn(q: Queue.Store, data: Queue.TaskCreate, drawn: Queue.TaskId, now: int)
    : Result<(Queue.Store, Queue.TaskId), Error>
  {
    var r := Queue.Create(q, data, drawn, Queue.Ready, now);
    if r.Success? then Success(r.value) else Failure(QueueFailed(r.error))
  }

  function ConnectorTask(app: AppId, row: App, parent: Queue.TaskId): Queue.TaskCreate {
    FollowUp(CONNECT, [Str("connect_contacts"), Id(app)], app, row, parent,
             map["application_id" := Id(app), "source_urls" := Arr([Str(row.url)])])
  }

  function MonitorTask(app: AppId, row: App, parent: Queue.TaskId): Queue.TaskCreate {
    FollowUp(MONITOR, [Str("monitor"), Id(app), Str("initial")], app, row, parent,
             map["application_id" := Id(app)])
  }

  /** `_record`. */
  function Record(db: Db, l: Queue.Lease, key: ActionKey, outcome: Outcome,
                  connect: Queue.TaskId, monitor: Queue.TaskId, now: int): Result<Db, Error>
  {
    var _ :- Fenced(db.queue, l, now);
    if key !in db.actions || key.app !in db.apps then Failure(Blocked("assertion")) else
    var action, app := db.actions[key], db.apps[key.app];
    match outcome
    case Confirmed =>
      var (q1, connector) :- Spawn(db.queue, ConnectorTask(key.app, app, l.task), connect, now);
      var (q2, _) :- Spawn(q1, MonitorTask(key.app, app, l.task), monitor, now);
      Success(db.(queue := q2,
                  actions := db.actions[key := action.(status := Succeeded)],
                  apps := db.apps[key.app := app.(stage := StagePostSubmission, status := Submitted,
                                                  submittedAt := if app.submittedAt.Some? then app.submittedAt
                                                                 else Some(Queue.Stamp(now)),
                                                  current := connector)]))
    case Unknown =>
      Success(db.(actions := db.actions[key := action.(status := UnknownResult)],
                  apps := db.apps[key.app := app.(stage := StageSubmission, status := SubmissionUnknown)]))
    case NotSubmitted =>
      Success(db.(actions := db.actions[key := action.(status := Failed)],
                  apps := db.apps[key.app := app.(stage := StageReview, status := ReadyToReview)]))
  }

  /** `schedule_new_review`: `token` is the ULID that makes the deduplication key unique. */
  function ScheduleNewReview(db: Db, l: Queue.Lease, app: AppId, token: nat, drawn: Queue.TaskId, now: int)
    : Result<Db, Error>
  {
    var _ :- Fenced(db.queue, l, now);
    if app !in db.apps || db.apps[app].status != ReadyToReview
      then Failure(Blocked("review_restart_state_invalid")) else
    var (q, task) :- Spawn(db.queue, FollowUp(CREATE_REVIEW, [Str("create_review"), Id(app), Id(token)], app,
                                              db.apps[app], l.task, map["application_id" := Id(app)]), drawn, now);
    Success(db.(queue := q, apps := db.apps[app := db.apps[app].(current := task)]))
  }

  /** `recover`: every EXECUTING action becomes UNKNOWN_RESULT, whoever may still be executing it. */
  function Recover(db: Db): Db {
    db.(actions := map k | k in db.actions ::
          if db.actions[k].status == Executing then db.actions[k].(status := UnknownResult) else db.actions[k],
        apps := map a | a in db.apps ::
          if exists k :: k in db.actions && db.actions[k].status == Executing && db.actions[k].app == a
          then db.apps[a].(status := SubmissionUnknown) else db.apps[a])
  }

  // ---------------------------------------------------------------- the form stage

  /** `_application` of the form worker: the application whose current task this is. */
  function FormApplication(db: Db, l: Queue.Lease, now: int): Result<AppId, Error> {
    var task :- Fenced(db.queue, l, now);
    if task.identity.application.None? then Failure(Blocked("form_task_application_mismatch")) else
    var app := task.identity.application.value;
    if "application_id" in l.payload && l.payload["application_id"] != Id(app)
    then Failure(Blocked("form_task_application_mismatch"))
    else if app !in db.apps || db.apps[app].current != l.task then Failure(Blocked("form_task_not_current"))
    else
      var status, stage := db.apps[app].status, db.apps[app].stage;
      if status == ReadyToReview then Success(app)
      else if stage == OtherStage("FORM")
              && status in {OtherStatus("FORM_READY"), OtherStatus("FORM_IN_PROGRESS"),
                OtherStatus("WAITING_USER_INPUT")}
      then Success(app)
      else Failure(Blocked("application_not_form_ready"))
  }

  function ReviewTask(app: AppId, row: App, parent: Queue.TaskId): Queue.TaskCreate {
    FollowUp(CREATE_REVIEW, [Str("create_review"), Id(app)], app, row, parent, map["application_id" := Id(app)])
  }

  /**
   `_finish` of the form worker: the review task is queued and becomes current, and the form task ends,
   in one transaction.  Whether the form task still is current is not asked again.
   */
  function FinishForm(c: Config, db: Db, l: Queue.Lease, app: AppId, m: Memory, drawn: Queue.TaskId, now: int)
    : Result<Db, Error>
  {
    var _ :- Fenced(db.queue, l, now);
    if app !in db.apps then Failure(Blocked("assertion")) else
    var (q, task) :- Spawn(db.queue, ReviewTask(app, db.apps[app], l.task), drawn, now);
    var done := Queue.CompleteInTransaction(c.queue, q, l, m, false, now);
    if done.Failure? then Failure(QueueFailed(done.error)) else
    Success(db.(queue := done.value,
                apps := db.apps[app := db.apps[app].(status := ReadyToReview, stage := StageReview, current := task)]))
  }

  // ---------------------------------------------------------------- preparing a review

  datatype Drawn = Drawn(approval: ApprovalId, task: Queue.TaskId, review: nat, interrupt: string)

  function SubmissionTask(app: AppId, row: App, parent: Queue.TaskId, path: Json, sha: Json,
      ids: Drawn): Queue.TaskCreate {
    Queue.TaskCreate(
      Queue.Identity(SUBMIT, Some([Str("submit_task"), Id(app), sha]), Some(app), Some(row.job), Some(parent),
                     map["application_id" := Id(app), "approval_id" := Id(ids.approval),
                         "review_path" := path, "review_sha256" := sha]),
      100, 3, Some(ids.task))
  }

  function ApprovalInterrupt(app: AppId, sha: Json, ids: Drawn): Memory {
    var item := Obj(map["kind" := Str("SUBMISSION_APPROVAL"), "application_id" := Id(app),
                        "approval_id" := Id(ids.approval), "review_sha256" := sha]);
    map[INTERRUPTS := Obj(map[ids.interrupt := item])]
  }

  /**
   `prepare`.  The review file is written before the transaction commits, so a later failure leaves
   the file behind but nothing else.
   */
  function Prepare(c: Config, db: Db, l: Queue.Lease, ids: Drawn, now: int): (Db, Result<(), Error>) {
    if l.taskType != CREATE_REVIEW then (db, Failure(ReviewFailed("review_task_type_invalid"))) else
    var a := Field(l.payload, "application_id");
    if !a.Id? then (db, Failure(ReviewFailed("review_task_application_missing"))) else
    var app := a.ulid;
    var row := Fenced(db.queue, l, now);
    if row.Failure? then (db, Failure(row.error)) else
    if row.value.identity.application != Some(app) || app !in db.apps || db.apps[app].current != l.task
       || db.apps[app].stage != StageReview || db.apps[app].status != ReadyToReview
    then (db, Failure(ReviewFailed("review_application_state_invalid"))) else
    var payload := Payload(db, app, Time(Queue.Stamp(now)));
    if payload.None? then (db, Failure(ReviewFailed("review_payload_failed"))) else
    var content := Canonical(payload.value);
    var path, sha := Path([app, ids.review]), Hash(content);
    if path in db.files && db.files[path] != content
      then (db, Failure(ReviewFailed("review_path_content_conflict"))) else
    var db1 := db.(files := db.files[path := content]);
    var r := Enlist(c, db1, l, app, path, sha, ids, now);
    if r.Success? then (r.value, Success(())) else (db1, Failure(r.error))
  }

  /** The rest of the transaction: task, approval, `current_task_id`, and the end of the review task. */
  function Enlist(c: Config, db: Db, l: Queue.Lease, app: AppId, path: Json, sha: Json, ids: Drawn,
      now: int): Result<Db, Error>
    requires app in db.apps
  {
    var waiting := Queue.EnqueueWaiting(c.queue, db.queue, SubmissionTask(app, db.apps[app], l.task, path, sha, ids),
                                        ApprovalInterrupt(app, sha, ids), ids.task, now);
    if waiting.Failure? then Failure(QueueFailed(waiting.error)) else
    var (q1, task) := waiting.value;
    if ids.approval in db.approvals then Failure(QueueFailed(Queue.ReplayConflict)) else
    var approval := Approval(app, ids.task, path, sha, Pending, Some(Queue.Stamp(now + c.ttlMicros)), None);
    var done := Queue.CompleteInTransaction(c.queue, q1, l, map["review_path" := path, "review_sha256" := sha], false,
      now);
    if done.Failure? then Failure(QueueFailed(done.error)) else
    Success(db.(queue := done.value,
                approvals := db.approvals[ids.approval := approval],
                apps := db.apps[app := db.apps[app].(current := task)]))
  }
}
