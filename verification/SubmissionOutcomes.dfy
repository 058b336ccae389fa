/**
 What the outcome of a click leaves behind: the action, the application and the tasks that go on from it,
 and which doors it closes for good.
 */
module SubmissionOutcomes {
  import opened Wrappers
  import opened Json
  import opened Submission
  import opened SubmissionRuns
  import opened SubmissionSteps
  import opened SubmissionLaws
  import opened QueueRuns
  import Queue

  // ---------------------------------------------------------------- one outcome

  /** Nothing changes but this action's status, this application, and the queue. */
  predicate OnlyOutcome(db: Db, db2: Db, key: ActionKey) {
    && key in db.actions && key in db2.actions && key.app in db.apps && key.app in db2.apps
    && db2.approvals == db.approvals && db2.inputs == db.inputs && db2.files == db.files
    && db2.actions == db.actions[key := db2.actions[key]] && db2.apps == db.apps[key.app := db2.apps[key.app]]
    && db2.actions[key] == db.actions[key].(status := db2.actions[key].status)
    && db2.apps[key.app].job == db.apps[key.app].job && db2.apps[key.app].url == db.apps[key.app].url
  }

  predicate Stands(db: Db, key: ActionKey, action: ActionStatus, status: AppStatus, stage: Stage)
    requires key in db.actions && key.app in db.apps
  {
    && db.actions[key].status == action
    && db.apps[key.app].status == status && db.apps[key.app].stage == stage
  }

  /** A task of this kind for the application, under this key, with this payload. */
  predicate TaskOf(q: Queue.Store, id: Queue.TaskId, kind: string, key: seq<Json>, app: AppId, job: nat,
                   payload: Memory)
  {
    && id in q.rows && q.rows[id].identity.taskType == kind && q.rows[id].identity.dedupeKey == Some(key)
    && q.rows[id].identity.application == Some(app) && q.rows[id].identity.job == Some(job)
    && q.rows[id].identity.payload == payload
  }

  /**
   A key that was free got a new task, ready for the first of three attempts at the usual priority; one that was
   taken names the same task.
   */
  predicate ReadyIfNew(q: Queue.Store, q2: Queue.Store, key: seq<Json>, id: Queue.TaskId, drawn: Queue.TaskId) {
    if key in q.keys then q.keys[key] == id
    else
      && id == drawn && id !in q.rows && id in q2.rows && q2.rows[id].status == Queue.Ready && q2.rows[id].attempts == 0
      && q2.rows[id].maxAttempts == 3 && q2.rows[id].priority == 100
  }

  function ConnectKey(app: AppId): seq<Json> {
    [Str("connect_contacts"), Id(app)]
  }

  function MonitorKey(app: AppId): seq<Json> {
    [Str("monitor"), Id(app), Str("initial")]
  }

  /** After a confirmation the connector's task is current, and the monitor's exists. */
  ghost predicate HandedOn(db: Db, db2: Db, app: AppId, connect: Queue.TaskId, monitor: Queue.TaskId,
                           now: int)
    requires app in db.apps && app in db2.apps
  {
    var id, job := db2.apps[app].current, db.apps[app].job;
    && TaskOf(db2.queue, id, CONNECT, ConnectKey(app), app, job,
              map["application_id" := Id(app), "source_urls" := Arr([Str(db.apps[app].url)])])
    && ReadyIfNew(db.queue, db2.queue, ConnectKey(app), id, connect)
    && MonitorKey(app) in db2.queue.keys
    && TaskOf(db2.queue, db2.queue.keys[MonitorKey(app)], MONITOR, MonitorKey(app), app, job,
              map["application_id" := Id(app)])
    && ReadyIfNew(db.queue, db2.queue, MonitorKey(app), db2.queue.keys[MonitorKey(app)], monitor)
    && db2.apps[app].submittedAt == (if db.apps[app].submittedAt.Some? then db.apps[app].submittedAt
                                     else Some(Queue.Stamp(now)))
  }

  lemma SpawnMeans(q: Queue.Store, data: Queue.TaskCreate, drawn: Queue.TaskId, now: int)
    requires KeysOk(q) && data.identity.dedupeKey.Some? && data.given.None?
    requires data.maxAttempts == 3 && data.priority == 100
    ensures var r, key := Spawn(q, data, drawn, now), data.identity.dedupeKey.value;
      r.Success? ==>
        var (q2, id) := r.value;
        && KeysOk(q2) && id in q2.rows && q2.rows[id].identity == data.identity && ReadyIfNew(q, q2, key, id, drawn)
        && q2.keys == q.keys[key := id] && q2.rows == q.rows[id := q2.rows[id]]
    ensures var key := data.identity.dedupeKey.value;
      key !in q.keys && drawn !in q.rows ==> Spawn(q, data, drawn, now).Success?
  {
  }

  lemma OutcomeStands(db: Db, l: Queue.Lease, key: ActionKey, outcome: Outcome, connect: Queue.TaskId,
      monitor: Queue.TaskId, now: int)
    requires Record(db, l, key, outcome, connect, monitor, now).Success?
    ensures var db2 := Record(db, l, key, outcome, connect, monitor, now).value;
      && OnlyOutcome(db, db2, key)
      && (match outcome
          case Confirmed => Stands(db2, key, Succeeded, Submitted, StagePostSubmission)
          case Unknown => Stands(db2, key, UnknownResult, SubmissionUnknown, StageSubmission)
          case NotSubmitted => Stands(db2, key, Failed, ReadyToReview, StageReview))
      && (outcome != Confirmed ==> db2.queue == db.queue && db2.apps[key.app].current == db.apps[key.app].current
                                   && db2.apps[key.app].submittedAt == db.apps[key.app].submittedAt)
  {
    hide Fenced, Spawn;
  }

  /** Confirmation hands the application on to the connector and the monitor. */
  lemma ConfirmationHandsOn(db: Db, l: Queue.Lease, key: ActionKey, connect: Queue.TaskId, monitor: Queue.TaskId,
      now: int)
    requires KeysOk(db.queue) && Record(db, l, key, Confirmed, connect, monitor, now).Success?
    ensures var db2 := Record(db, l, key, Confirmed, connect, monitor, now).value;
      key.app in db.apps && key.app in db2.apps && HandedOn(db, db2, key.app, connect, monitor, now)
  {
    hide Fenced, Spawn, KeysOk;
    var app := db.apps[key.app];
    var first := ConnectorTask(key.app, app, l.task);
    var second := MonitorTask(key.app, app, l.task);
    SpawnMeans(db.queue, first, connect, now);
    var (q1, id) := Spawn(db.queue, first, connect, now).value;
    SpawnMeans(q1, second, monitor, now);
    assert |ConnectKey(key.app)| != |MonitorKey(key.app)|;
  }

  /** An outcome can always be recorded by a holder whose lease passes; a confirmation needs its tasks to be new. */
  lemma OutcomeCanBeRecorded(db: Db, l: Queue.Lease, key: ActionKey, outcome: Outcome, connect: Queue.TaskId,
      monitor: Queue.TaskId, now: int)
    requires KeysOk(db.queue) && Fenced(db.queue, l, now).Success? && key in db.actions && key.app in db.apps
    requires outcome == Confirmed ==>
      && ConnectKey(key.app) !in db.queue.keys && MonitorKey(key.app) !in db.queue.keys
      && connect !in db.queue.rows && monitor !in db.queue.rows && connect != monitor
    ensures Record(db, l, key, outcome, connect, monitor, now).Success?
  {
    hide Fenced, Spawn, KeysOk;
    if outcome == Confirmed {
      var app := db.apps[key.app];
      SpawnMeans(db.queue, ConnectorTask(key.app, app, l.task), connect, now);
      var q1 := Spawn(db.queue, ConnectorTask(key.app, app, l.task), connect, now).value.0;
      assert |ConnectKey(key.app)| != |MonitorKey(key.app)|;
      SpawnMeans(q1, MonitorTask(key.app, app, l.task), monitor, now);
    }
  }

  // ---------------------------------------------------------------- what comes after an outcome

  /** No review, form, click or restart of this application can begin. */
  ghost predicate Closed(c: Config, db: Db, app: AppId) {
    && (forall l: Queue.Lease, token, drawn, now :: ScheduleNewReview(db, l, app, token, drawn, now).Failure?)
    && (forall k: Case :: k.app == app ==> !Startable(db, k))
    && (forall l: Queue.Lease, now :: FormApplication(db, l, now) != Success(app))
    && (forall l: Queue.Lease, ids, now :: Field(l.payload, "application_id") == Id(app) ==>
          Prepare(c, db, l, ids, now).1.Failure?)
  }

  lemma ClosedUnlessReady(c: Config, db: Db, app: AppId)
    requires app in db.apps && db.apps[app].status != ReadyToReview && !db.apps[app].stage.OtherStage?
    ensures Closed(c, db, app)
  {
    hide Fenced, Payload, Enlist, Spawn;
  }

  /** After a confirmed or unknown outcome everything is closed; what is unknown is not revoked into a new try. */
  lemma OutcomeCloses(c: Config, db: Db, l: Queue.Lease, key: ActionKey, outcome: Outcome, connect: Queue.TaskId,
      monitor: Queue.TaskId, now: int)
    requires Record(db, l, key, outcome, connect, monitor, now).Success? && outcome != NotSubmitted
    ensures Closed(c, Record(db, l, key, outcome, connect, monitor, now).value, key.app)
  {
    OutcomeStands(db, l, key, outcome, connect, monitor, now);
    hide Record, Closed;
    ClosedUnlessReady(c, Record(db, l, key, outcome, connect, monitor, now).value, key.app);
  }

  /** After a confirmation not even a revocation reopens the application. */
  lemma ConfirmedIsNotReopened(db: Db, l: Queue.Lease, key: ActionKey, connect: Queue.TaskId, monitor: Queue.TaskId,
      now: int, l2: Queue.Lease, k: Case, later: int)
    requires Record(db, l, key, Confirmed, connect, monitor, now).Success? && k.app == key.app
    ensures var db2 := Record(db, l, key, Confirmed, connect, monitor, now).value;
      var r := Revoke(db2, l2, k, later);
      r.Success? ==> r.value.apps == db2.apps
  {
    OutcomeStands(db, l, key, Confirmed, connect, monitor, now);
    hide Record, Fenced;
  }

  /** After NOT_SUBMITTED the same holder can start a new review, whose task becomes the application's current one. */
  lemma NotSubmittedCanRestart(db: Db, l: Queue.Lease, key: ActionKey, now: int, token: nat, drawn: Queue.TaskId)
    requires KeysOk(db.queue) && Record(db, l, key, NotSubmitted, 0, 0, now).Success?
    requires drawn !in db.queue.rows && [Str("create_review"), Id(key.app), Id(token)] !in db.queue.keys
    ensures var db2 := Record(db, l, key, NotSubmitted, 0, 0, now).value;
      var r := ScheduleNewReview(db2, l, key.app, token, drawn, now);
      && r.Success? && key.app in r.value.apps && Startover(db2, r.value, key.app, token, drawn)
  {
    OutcomeStands(db, l, key, NotSubmitted, 0, 0, now);
    var db2 := Record(db, l, key, NotSubmitted, 0, 0, now).value;
    RestartMeans(db2, l, key.app, token, drawn, now);
    hide Spawn;
  }

  /** A new review task, ready, is current; the application waits for its review as before. */
  ghost predicate Startover(db: Db, db2: Db, app: AppId, token: nat, drawn: Queue.TaskId)
    requires app in db.apps && app in db2.apps
  {
    && db2 == db.(queue := db2.queue, apps := db.apps[app := db.apps[app].(current := db2.apps[app].current)])
    && TaskOf(db2.queue, db2.apps[app].current, CREATE_REVIEW, [Str("create_review"), Id(app), Id(token)], app,
              db.apps[app].job, map["application_id" := Id(app)])
    && ReadyIfNew(db.queue, db2.queue, [Str("create_review"), Id(app), Id(token)], db2.apps[app].current, drawn)
  }

  /** A review is started anew exactly from a holder's lease, while the application is ready for review. */
  lemma RestartMeans(db: Db, l: Queue.Lease, app: AppId, token: nat, drawn: Queue.TaskId, now: int)
    requires KeysOk(db.queue)
    ensures var r := ScheduleNewReview(db, l, app, token, drawn, now);
      && (r.Success? ==> Fenced(db.queue, l, now).Success? && app in db.apps && db.apps[app].status == ReadyToReview
                         && app in r.value.apps && Startover(db, r.value, app, token, drawn))
      && (Fenced(db.queue, l, now).Success? && app in db.apps && db.apps[app].status == ReadyToReview ==>
            drawn !in db.queue.rows && [Str("create_review"), Id(app), Id(token)] !in db.queue.keys ==> r.Success?)
  {
    hide Fenced, Spawn, KeysOk;
    if app in db.apps {
      var key := [Str("create_review"), Id(app), Id(token)];
      SpawnMeans(db.queue, FollowUp(CREATE_REVIEW, key, app, db.apps[app], l.task, map["application_id" := Id(app)]),
                 drawn, now);
    }
  }

  // ---------------------------------------------------------------- recovery and revocation

  /** An action of the application was being executed. */
  ghost predicate WasExecuting(db: Db, app: AppId) {
    exists key :: key in db.actions && db.actions[key].app == app && db.actions[key].status == Executing
  }

  /**
   After recovery nothing is executing: what was has an unknown result, and its application is closed until
   somebody finds out.  Everything else is as it was.
   */
  lemma RecoveryCloses(c: Config, db: Db)
    ensures var db2 := Submission.Recover(db);
      && db2.queue == db.queue && db2.approvals == db.approvals && db2.inputs == db.inputs && db2.files == db.files
      && db2.actions.Keys == db.actions.Keys && db2.apps.Keys == db.apps.Keys
      && (forall key :: key in db.actions ==>
            && db2.actions[key] == db.actions[key].(status := db2.actions[key].status)
            && db2.actions[key].status != Executing
            && (db.actions[key].status == Executing ==> db2.actions[key].status == UnknownResult)
            && (db.actions[key].status != Executing ==> db2.actions[key] == db.actions[key]))
      && (forall app :: app in db.apps ==>
            && (!WasExecuting(db, app) ==> db2.apps[app] == db.apps[app])
            && (WasExecuting(db, app) ==> db2.apps[app] == db.apps[app].(status := SubmissionUnknown))
            && (WasExecuting(db, app) && !db.apps[app].stage.OtherStage? ==> Closed(c, db2, app)))
  {
    var db2 := Submission.Recover(db);
    forall app | app in db.apps
      ensures !WasExecuting(db, app) ==> db2.apps[app] == db.apps[app]
      ensures WasExecuting(db, app) ==> db2.apps[app] == db.apps[app].(status := SubmissionUnknown)
    {
    }
    hide Closed;
    forall app | app in db.apps && WasExecuting(db, app) && !db.apps[app].stage.OtherStage?
      ensures Closed(c, db2, app)
    {
      ClosedUnlessReady(c, db2, app);
    }
  }

  /** The holder's next try of a recovered action asks the adapter what happened instead of clicking again. */
  lemma RecoveredIsReconciled(c: Config, w: World, tok: Queue.Token, ch: Choice)
    requires tok in w.execs && w.execs[tok].pc.Planning?
    requires var k, l := w.execs[tok].pc.k, w.execs[tok].lease;
      && Fenced(w.db.queue, l, w.now).Success? && k.Key() in w.db.actions
      && w.db.actions[k.Key()] == Action(k.app, l.task, k.approval, k.sha, Executing)
    ensures var w2 := StepExec(c, w.(db := Submission.Recover(w.db)), tok, ch);
      && w2.execs[tok].pc == Reconciling(w.execs[tok].pc.k, w.execs[tok].pc.review)
      && w2.calls == w.calls && w2.auths == w.auths
  {
    hide Fenced;
  }

  /**
   A revocation spends the approval if it was open and sends the application back to its review unless it was
   submitted; nothing else changes, and nothing can be authorised by this approval.
   */
  lemma RevocationMeans(db: Db, l: Queue.Lease, k: Case, now: int)
    ensures var r := Revoke(db, l, k, now);
      && (r.Success? <==> Queue.Passes(db.queue, l, now))
      && (r.Success? ==>
            var db2 := r.value;
            && db2 == db.(approvals := db2.approvals, apps := db2.apps) && !Startable(db2, k)
            && db2.approvals.Keys == db.approvals.Keys && db2.apps.Keys == db.apps.Keys
            && (forall a :: a in db.approvals ==>
                  db2.approvals[a] == if a == k.approval && db.approvals[a].status in {Pending, Approved}
                                      then db.approvals[a].(status := Revoked) else db.approvals[a])
            && (forall app :: app in db.apps ==>
                  db2.apps[app] == if app == k.app && db.apps[app].status != Submitted
                                   then db.apps[app].(stage := StageReview, status := ReadyToReview)
                                   else db.apps[app]))
  {
  }

  /** After it the holder can start a new review. */
  lemma RevokedCanRestart(db: Db, l: Queue.Lease, k: Case, now: int, token: nat, drawn: Queue.TaskId)
    requires KeysOk(db.queue) && Revoke(db, l, k, now).Success? && k.app in db.apps
    requires db.apps[k.app].status != Submitted
    requires drawn !in db.queue.rows && [Str("create_review"), Id(k.app), Id(token)] !in db.queue.keys
    ensures ScheduleNewReview(Revoke(db, l, k, now).value, l, k.app, token, drawn, now).Success?
  {
    hide Fenced, Spawn;
    RestartMeans(Revoke(db, l, k, now).value, l, k.app, token, drawn, now);
  }

  // ---------------------------------------------------------------- over whole runs

  /** A submission of the application was confirmed, and its status says so. */
  ghost predicate IsSubmitted(db: Db, key: ActionKey) {
    && key in db.actions && db.actions[key].status == Succeeded && db.actions[key].app == key.app
    && key.app in db.apps && db.apps[key.app].status == Submitted && db.apps[key.app].stage == StagePostSubmission
  }

  /** Nobody outside moves the application. */
  predicate NotMoved(at: At, app: AppId) {
    at.event.SetStatus? ==> at.event.movedApp != app
  }

  /** The application of a confirmed action is current at the connector, so nobody at work has it. */
  lemma NotAtWork(w: World, tok: Queue.Token, key: ActionKey)
    requires Safe(w) && IsSubmitted(w.db, key) && tok in w.execs && !w.execs[tok].pc.Stopped?
    requires Fenced(w.db.queue, w.execs[tok].lease, w.now).Success?
    ensures w.execs[tok].pc.k.app != key.app
  {
    AtWork(w, tok);
    assert TablesOk(w.db) && SuccessLast(w.db, key.app);
    hide Good, AuthsOk, CallsOk, RecsOk, ExecsOk, PcOk, Fenced;
  }

  lemma NotAtForm(w: World, tok: Queue.Token, key: ActionKey)
    requires Safe(w) && FormsOk(w) && IsSubmitted(w.db, key) && tok in w.forms
    requires Fenced(w.db.queue, w.forms[tok].lease, w.now).Success?
    ensures w.forms[tok].app != key.app
  {
    assert TablesOk(w.db) && SuccessLast(w.db, key.app);
    assert FormOk(w, tok, w.forms[tok]);
    FenceOwns(w.db.queue, w.forms[tok].lease, w.now);
    hide Good, AuthsOk, CallsOk, RecsOk, ExecsOk, Fenced;
  }

  /** The application stays submitted. */
  predicate StaysSubmitted(db2: Db, app: AppId) {
    app in db2.apps && db2.apps[app].status == Submitted && db2.apps[app].stage == StagePostSubmission
  }

  lemma StepKeepsSubmitted(c: Config, w: World, tok: Queue.Token, ch: Choice, key: ActionKey)
    requires Safe(w) && IsSubmitted(w.db, key) && tok in w.execs
    ensures StaysSubmitted(StepExec(c, w, tok, ch).db, key.app)
  {
    if !w.execs[tok].pc.Stopped? && Fenced(w.db.queue, w.execs[tok].lease, w.now).Success? {
      NotAtWork(w, tok, key);
    }
    hide Safe, Fenced, StepExec;
    if w.execs[tok].pc.Recording? {
      RecordingLeaves(c, w, tok, ch, key.app);
    } else if w.execs[tok].pc.Starting? {
      StartingLeaves(c, w, tok, ch, key.app);
    } else {
      OtherStepsLeave(c, w, tok, ch, key.app);
    }
  }

  /** If it works, it works on another application. */
  ghost predicate WorksElsewhere(w: World, tok: Queue.Token, app: AppId)
    requires tok in w.execs
  {
    !w.execs[tok].pc.Stopped? && Fenced(w.db.queue, w.execs[tok].lease, w.now).Success? ==> w.execs[tok].pc.k.app != app
  }

  lemma RecordingLeaves(c: Config, w: World, tok: Queue.Token, ch: Choice, app: AppId)
    requires tok in w.execs && WorksElsewhere(w, tok, app) && StaysSubmitted(w.db, app) && w.execs[tok].pc.Recording?
    ensures StaysSubmitted(StepExec(c, w, tok, ch).db, app)
  {
    var l, pc := w.execs[tok].lease, w.execs[tok].pc;
    RecordKeepsOthers(w.db, l, pc.k.Key(), pc.outcome, ch.first, ch.second, w.now, app);
    hide Record, Fenced;
  }

  lemma StartingLeaves(c: Config, w: World, tok: Queue.Token, ch: Choice, app: AppId)
    requires tok in w.execs && WorksElsewhere(w, tok, app) && StaysSubmitted(w.db, app) && w.execs[tok].pc.Starting?
    ensures StaysSubmitted(StepExec(c, w, tok, ch).db, app)
  {
    hide Fenced, Unchanged;
  }

  lemma OtherStepsLeave(c: Config, w: World, tok: Queue.Token, ch: Choice, app: AppId)
    requires tok in w.execs && WorksElsewhere(w, tok, app) && StaysSubmitted(w.db, app)
    requires !w.execs[tok].pc.Recording? && !w.execs[tok].pc.Starting?
    ensures StaysSubmitted(StepExec(c, w, tok, ch).db, app)
  {
    var l, pc := w.execs[tok].lease, w.execs[tok].pc;
    if pc.Revoking? {
      RevocationMeans(w.db, l, pc.k, w.now);
      hide Revoke, Fenced;
    } else if pc.Scheduling? {
      hide Spawn, Fenced;
    } else {
      AppsLeft(c, w, tok, ch);
      hide StepExec;
    }
  }

  lemma AppsLeft(c: Config, w: World, tok: Queue.Token, ch: Choice)
    requires tok in w.execs
    requires var pc := w.execs[tok].pc; !pc.Recording? && !pc.Starting? && !pc.Revoking? && !pc.Scheduling?
    ensures StepExec(c, w, tok, ch).db.apps == w.db.apps
  {
    hide Fenced, Spawn, Record, Start, ReadReview, Payload, CreatedAt, Revoke, ScheduleNewReview;
  }

  lemma RecordKeepsOthers(db: Db, l: Queue.Lease, key: ActionKey, outcome: Outcome, connect: Queue.TaskId,
      monitor: Queue.TaskId, now: int, app: AppId)
    requires app in db.apps && (Fenced(db.queue, l, now).Success? ==> key.app != app)
    ensures var r := Record(db, l, key, outcome, connect, monitor, now);
      r.Success? ==> app in r.value.apps && r.value.apps[app] == db.apps[app]
  {
    hide Fenced, Spawn;
  }

  lemma FormKeepsSubmitted(c: Config, w: World, tok: Queue.Token, m: Memory, drawn: Queue.TaskId, key: ActionKey)
    requires Safe(w) && FormsOk(w) && IsSubmitted(w.db, key) && tok in w.forms
    ensures StaysSubmitted(EndForm(c, w, tok, m, drawn).db, key.app)
  {
    var x := w.forms[tok];
    if Fenced(w.db.queue, x.lease, w.now).Success? {
      NotAtForm(w, tok, key);
    }
    hide Safe, FormsOk, Fenced;
    FinishKeepsOthers(c, w.db, x.lease, x.app, m, drawn, w.now, key.app);
    hide FinishForm;
  }

  lemma FinishKeepsOthers(c: Config, db: Db, l: Queue.Lease, of: AppId, m: Memory, drawn: Queue.TaskId, now: int,
      app: AppId)
    requires app in db.apps && (Fenced(db.queue, l, now).Success? ==> of != app)
    ensures var r := FinishForm(c, db, l, of, m, drawn, now);
      r.Success? ==> app in r.value.apps && r.value.apps[app] == db.apps[app]
  {
    hide Fenced, Spawn, Queue.CompleteInTransaction;
  }

  lemma PrepareKeepsSubmitted(c: Config, db: Db, l: Queue.Lease, ids: Drawn, now: int, app: AppId)
    requires StaysSubmitted(db, app)
    ensures StaysSubmitted(Prepare(c, db, l, ids, now).0, app)
  {
    hide Fenced, Payload, Queue.EnqueueWaiting, Queue.CompleteInTransaction;
  }

  lemma RecoverKeepsSubmitted(w: World, key: ActionKey)
    requires Safe(w) && IsSubmitted(w.db, key)
    ensures StaysSubmitted(Submission.Recover(w.db), key.app)
  {
    NothingExecutes(w, key);
    hide Safe;
  }

  lemma NothingExecutes(w: World, key: ActionKey)
    requires Safe(w) && IsSubmitted(w.db, key)
    ensures !WasExecuting(w.db, key.app)
  {
    SafeTables(w);
    hide Safe;
    NoneExecuting(w.db, key);
  }

  lemma NoneExecuting(db: Db, key: ActionKey)
    requires TablesOk(db) && IsSubmitted(db, key)
    ensures !WasExecuting(db, key.app)
  {
    assert SuccessLast(db, key.app);
    hide PastOver, Names;
    forall o | o in db.actions && db.actions[o].app == key.app ensures db.actions[o].status != Executing {
      assert ActionOk(db, o);
    }
  }

  lemma EventKeepsSubmitted(c: Config, w0: World, at: At, key: ActionKey)
    requires Safe(w0) && FormsOk(w0) && May(w0, at) && IsSubmitted(w0.db, key) && NotMoved(at, key.app)
    ensures StaysSubmitted(Happen(c, w0, at).db, key.app)
  {
    hide Safe, FormsOk, May, Happen, StepExec, EndForm, Prepare, Submission.Recover, StartForm, AddApplication,
      BeginExec, DecideApproval, Apply;
    var w := w0.(now := at.now);
    ClockKeeps(w0, at.now);
    FormsAnyTime(w0, at.now);
    if at.event.Proceed? && at.event.exec in w.execs {
      StepKeepsSubmitted(c, w, at.event.exec, at.event.choice, key);
      ProceedHappens(c, w0, at);
    } else if at.event.FormDone? && at.event.form in w.forms {
      FormKeepsSubmitted(c, w, at.event.form, at.event.memory, at.event.drawn, key);
      FormHappens(c, w0, at);
    } else if at.event.RecoverActions? {
      RecoverKeepsSubmitted(w, key);
      RecoverHappens(c, w0, at);
    } else if at.event.PrepareReview? {
      PrepareKeepsSubmitted(c, w.db, at.event.reviewLease, at.event.ids, w.now, key.app);
      PrepareHappens(c, w0, at);
    } else {
      OtherEventsKeepSubmitted(c, w0, at, key.app);
    }
  }

  lemma FormsAnyTime(w: World, now: int)
    requires FormsOk(w)
    ensures FormsOk(w.(now := now))
  {
    forall tok | tok in w.forms ensures FormOk(w.(now := now), tok, w.forms[tok]) {
      assert FormOk(w, tok, w.forms[tok]);
    }
  }

  lemma OtherEventsKeepSubmitted(c: Config, w: World, at: At, app: AppId)
    requires May(w, at) && StaysSubmitted(w.db, app) && NotMoved(at, app)
    requires at.event.Proceed? ==> at.event.exec !in w.execs
    requires at.event.FormDone? ==> at.event.form !in w.forms
    requires !at.event.PrepareReview? && !at.event.RecoverActions?
    ensures StaysSubmitted(Happen(c, w, at).db, app)
  {
    hide Apply, LegalOp, Fenced, CaseOf, FormApplication, Queue.Create;
  }

  /** Event `m` of the run recorded a confirmation of this action. */
  ghost predicate ConfirmedAt(r: Run, m: nat, key: ActionKey) {
    m < |r.events| && m + 1 < |r.worlds| && r.worlds[m + 1].recs == r.worlds[m].recs + [Rec(key, Confirmed)]
  }

  /** A recorded confirmation stands at once. */
  lemma ConfirmationStands(c: Config, r: Run, m: nat, key: ActionKey)
    requires IsRun(c, r) && ConfirmedAt(r, m, key)
    ensures IsSubmitted(r.worlds[m + 1].db, key)
  {
    RunSafe(c, r, m);
    assert EventAt(c, r, m);
    var w0, at := r.worlds[m], r.events[m];
    assert |r.worlds[m + 1].recs| > |w0.recs| && r.worlds[m + 1].recs[|w0.recs|] == Rec(key, Confirmed);
    OnlyRecordingRecords(c, w0, at);
    var w, tok, ch := w0.(now := at.now), at.event.exec, at.event.choice;
    ClockKeeps(w0, at.now);
    hide Happen, May;
    RecordingStands(c, w, tok, ch, key);
    assert Happen(c, w0, at) == StepExec(c, w, tok, ch) by { ProceedHappens(c, w0, at); }
  }

  lemma ProceedHappens(c: Config, w: World, at: At)
    requires at.event.Proceed? && at.event.exec in w.execs
    ensures Happen(c, w, at) == StepExec(c, w.(now := at.now), at.event.exec, at.event.choice)
  {
    hide StepExec;
  }

  lemma FormHappens(c: Config, w: World, at: At)
    requires at.event.FormDone? && at.event.form in w.forms
    ensures Happen(c, w, at)
         == EndForm(c, w.(now := at.now), at.event.form, at.event.memory, at.event.drawn)
  {
    hide EndForm;
  }

  lemma RecoverHappens(c: Config, w: World, at: At)
    requires at.event.RecoverActions?
    ensures Happen(c, w, at).db == Submission.Recover(w.db)
  {
    hide Submission.Recover;
  }

  lemma PrepareHappens(c: Config, w: World, at: At)
    requires at.event.PrepareReview?
    ensures Happen(c, w, at).db == Prepare(c, w.db, at.event.reviewLease, at.event.ids, at.now).0
  {
    hide Prepare;
  }

  lemma OnlyRecordingRecords(c: Config, w: World, at: At)
    requires |Happen(c, w, at).recs| > |w.recs|
    ensures at.event.Proceed? && at.event.exec in w.execs && w.execs[at.event.exec].pc.Recording?
    ensures Happen(c, w, at) == StepExec(c, w.(now := at.now), at.event.exec, at.event.choice)
  {
    hide Apply, Fenced, Record, Start, Plan, Revoke, ScheduleNewReview, Prepare, FinishForm, Validated, Queue.Create,
      FormApplication, ReadReview, Payload;
  }

  lemma RecordingStands(c: Config, w: World, tok: Queue.Token, ch: Choice, key: ActionKey)
    requires Safe(w) && tok in w.execs && w.execs[tok].pc.Recording?
    requires StepExec(c, w, tok, ch).recs == w.recs + [Rec(key, Confirmed)]
    ensures IsSubmitted(StepExec(c, w, tok, ch).db, key)
  {
    var l, pc := w.execs[tok].lease, w.execs[tok].pc;
    var r := Record(w.db, l, pc.k.Key(), pc.outcome, ch.first, ch.second, w.now);
    var recs := StepExec(c, w, tok, ch).recs;
    assert recs[|w.recs|] == Rec(key, Confirmed);
    assert r.Success? && key == pc.k.Key() && pc.outcome == Confirmed;
    OutcomeStands(w.db, l, key, Confirmed, ch.first, ch.second, w.now);
    assert TablesOk(w.db) && ActionOk(w.db, key);
    hide Record, Safe, Fenced;
  }

  /**
   In every run a confirmed application stays submitted, through recovery, crashes, late executors and late
   form workers, for as long as nobody outside moves it.
   */
  lemma {:induction false} SubmittedStays(c: Config, r: Run, m: nat, n: nat, key: ActionKey)
    requires IsRun(c, r) && ConfirmedAt(r, m, key) && m < n <= |r.events|
    requires forall i :: m < i < n ==> NotMoved(r.events[i], key.app)
    ensures IsSubmitted(r.worlds[n].db, key) && Closed(c, r.worlds[n].db, key.app)
  {
    hide Happen, May, Safe, Closed;
    if n == m + 1 {
      ConfirmationStands(c, r, m, key);
    } else {
      SubmittedStays(c, r, m, n - 1, key);
      RunSafe(c, r, n - 1);
      assert EventAt(c, r, n - 1);
      EventKeepsSubmitted(c, r.worlds[n - 1], r.events[n - 1], key);
      DecisionsAreFinal(c, r, n - 1, n, key);
    }
    ClosedUnlessReady(c, r.worlds[n].db, key.app);
  }
}
