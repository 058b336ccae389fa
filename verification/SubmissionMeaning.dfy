/** Exactly when the transactions of review and submission go through, and what they leave. */
module SubmissionMeaning {
  import opened Wrappers
  import opened Json
  import opened Submission
  import opened QueueRuns
  import opened SubmissionOutcomes
  import Queue

  // ---------------------------------------------------------------- validation

  /** The payload names this application and approval by their ids, and a path and a digest by texts. */
  lemma CaseIff(payload: Memory, k: Case)
    ensures CaseOf(payload) == Success(k) <==>
      && "application_id" in payload && payload["application_id"] == Id(k.app)
      && "approval_id" in payload && payload["approval_id"] == Id(k.approval)
      && "review_path" in payload && payload["review_path"] == k.path && IsText(k.path)
      && "review_sha256" in payload && payload["review_sha256"] == k.sha && IsText(k.sha)
  {
  }

  /** The submission task, the application and the approval belong together, as the payload says. */
  predicate Belongs(db: Db, l: Queue.Lease, k: Case) {
    && l.task in db.queue.rows && db.queue.rows[l.task].identity.taskType == "SUBMIT_APPLICATION"
    && db.queue.rows[l.task].identity.application == Some(k.app)
    && k.app in db.apps && db.apps[k.app].current == l.task && k.approval in db.approvals
    && db.approvals[k.approval].app == k.app && db.approvals[k.approval].task == l.task
    && db.approvals[k.approval].path == k.path && db.approvals[k.approval].sha == k.sha
  }

  /** In live mode, by a holder, for a case that belongs. */
  predicate MayValidate(c: Config, db: Db, l: Queue.Lease, k: Case, now: int) {
    c.live && CaseOf(l.payload) == Success(k) && Queue.Passes(db.queue, l, now) && Belongs(db, l, k)
  }

  predicate GivenBy(a: Approval, authorized: set<User>) {
    a.status == Approved && a.decidedBy.Some? && a.decidedBy.value in authorized
  }

  predicate InTime(a: Approval, now: int) {
    a.validUntil.Some? && now < a.validUntil.value * 1000
  }

  /**
   An execution is let in exactly so: its approval given and in time, or consumed by an earlier execution, and the
   application in a status of the submission.  All that is ever written is the expiry of a given approval.
   */
  lemma ValidatedIff(c: Config, db: Db, l: Queue.Lease, k: Case, now: int)
    requires CaseOf(l.payload) == Success(k)
    ensures var (db2, r) := Validated(c, db, l, now);
      && (r.Success? <==>
            && MayValidate(c, db, l, k, now) && !db.apps[k.app].status.OtherStatus?
            && var a := db.approvals[k.approval];
               a.status == Consumed || (GivenBy(a, c.authorized) && InTime(a, now)))
      && (r.Success? ==> r.value == k && db2 == db)
      && (if MayValidate(c, db, l, k, now) && !db.apps[k.app].status.OtherStatus?
             && GivenBy(db.approvals[k.approval], c.authorized) && !InTime(db.approvals[k.approval], now)
          then db2 == db.(approvals := db.approvals[k.approval := db.approvals[k.approval].(status := Expired)])
               && r == Failure(Blocked("submission_approval_expired"))
          else db2 == db)
  {
    hide CaseOf;
  }

  // ---------------------------------------------------------------- the review

  /** What the review of the application would say now. */
  predicate WouldSay(db: Db, app: AppId, review: Json) {
    && app in db.apps && app in db.inputs && db.inputs[app].Some? && review.Obj?
    && "created_at" in review.fields
    && review.fields == db.inputs[app].value["application_id" := Id(app)]["created_at" := review.fields["created_at"]]
  }

  /** What the review file says: readable, with the digest, and the canonical form of an object. */
  predicate FileSays(c: Config, db: Db, path: Json, sha: Json, review: Json) {
    path in db.files && c.readable(db.files[path]) && Hash(db.files[path]) == sha && db.files[path] == Canonical(review)
    && review.Obj?
  }

  /** The review is unchanged exactly if file and database both say it, with a creation time that is a text. */
  lemma UnchangedIff(c: Config, db: Db, k: Case, review: Json)
    ensures Unchanged(c, db, k, review) <==>
      FileSays(c, db, k.path, k.sha, review) && WouldSay(db, k.app, review) && IsText(review.fields["created_at"])
  {
  }

  // ---------------------------------------------------------------- the ledger

  /** The row of this very case. */
  predicate IsRowOf(a: Action, l: Queue.Lease, k: Case) {
    a.app == k.app && a.task == l.task && a.approval == k.approval && a.sha == k.sha
  }

  lemma OpenIff(s: ActionStatus)
    ensures Open(s) <==> s !in {Planned, Failed}
  {
    match s {
      case Planned =>
      case Executing =>
      case Succeeded =>
      case Failed =>
      case UnknownResult =>
    }
  }

  /** The row of the key is returned if it is this case's; without one, it is planned while no action is open. */
  lemma PlanIff(db: Db, l: Queue.Lease, k: Case, now: int)
    ensures var r, key := Plan(db, l, k, now), ActionKey(k.app, k.sha);
      && (r.Success? <==>
            && Queue.Passes(db.queue, l, now)
            && (if key in db.actions then IsRowOf(db.actions[key], l, k)
                else forall o :: o in db.actions && db.actions[o].app == k.app ==>
                       db.actions[o].status in {Planned, Failed}))
      && (r.Success? ==>
            && key in r.value.0.actions && r.value.0 == db.(actions := db.actions[key := r.value.0.actions[key]])
            && IsRowOf(r.value.0.actions[key], l, k) && r.value.0.actions[key].status == r.value.1
            && (if key in db.actions then r.value.0 == db else r.value.1 == Planned))
  {
    forall o | o in db.actions ensures Open(db.actions[o].status) <==> db.actions[o].status !in {Planned, Failed} {
      OpenIff(db.actions[o].status);
    }
    if ActionKey(k.app, k.sha) in db.actions {
      assert db.actions[k.Key() := db.actions[k.Key()]] == db.actions;
    }
  }

  /** All three rows stand as a click needs them. */
  predicate StandsForStart(db: Db, k: Case) {
    && ActionKey(k.app, k.sha) in db.actions && db.actions[ActionKey(k.app, k.sha)].status == Planned
    && k.approval in db.approvals && db.approvals[k.approval].status == Approved
    && k.app in db.apps && db.apps[k.app].status == ReadyToReview
  }

  /** The click is authorised exactly for an unchanged review; a changed one costs the approval, and only that. */
  lemma StartIff(c: Config, db: Db, l: Queue.Lease, k: Case, review: Json, now: int)
    ensures var r := Start(c, db, l, k, review, now);
      && (r.Success? <==> Queue.Passes(db.queue, l, now) && StandsForStart(db, k))
      && (r.Success? ==> (r.value.1 <==> Unchanged(c, db, k, review)))
      && (r.Success? && r.value.1 ==>
            r.value.0 == db.(
              actions := db.actions[k.Key() := db.actions[k.Key()].(status := Executing)],
              approvals := db.approvals[k.approval := db.approvals[k.approval].(status := Consumed)],
              apps := db.apps[k.app := db.apps[k.app].(status := Submitting, stage := StageSubmission)]))
      && (r.Success? && !r.value.1 ==>
            r.value.0 == db.(approvals := db.approvals[k.approval := db.approvals[k.approval].(status := Revoked)]))
  {
    hide Unchanged;
  }

  // ---------------------------------------------------------------- the form stage

  /** A form worker gets the application whose current task it holds, in a stage that may still be filled in. */
  lemma FormIff(db: Db, l: Queue.Lease, app: AppId, now: int)
    ensures FormApplication(db, l, now) == Success(app) <==>
      && Queue.Passes(db.queue, l, now) && db.queue.rows[l.task].identity.application == Some(app)
      && ("application_id" in l.payload ==> l.payload["application_id"] == Id(app))
      && app in db.apps && db.apps[app].current == l.task
      && (db.apps[app].status == ReadyToReview
          || (db.apps[app].stage == OtherStage("FORM")
              && db.apps[app].status in {OtherStatus("FORM_READY"), OtherStatus("FORM_IN_PROGRESS"),
                                         OtherStatus("WAITING_USER_INPUT")}))
  {
  }

  /** A finished form leaves the application ready for review, with the review's task current and its own over. */
  lemma FormLeads(c: Config, db: Db, l: Queue.Lease, app: AppId, m: Memory, drawn: Queue.TaskId, now: int)
    requires KeysOk(db.queue) && FinishForm(c, db, l, app, m, drawn, now).Success?
    ensures var db2 := FinishForm(c, db, l, app, m, drawn, now).value;
      && Queue.Passes(db.queue, l, now) && app in db.apps && app in db2.apps
      && db2 == db.(queue := db2.queue, apps := db.apps[app := db.apps[app].(status := ReadyToReview,
                      stage := StageReview, current := db2.apps[app].current)])
      && TaskOf(db2.queue, db2.apps[app].current, "CREATE_REVIEW", [Str("create_review"), Id(app)], app,
                db.apps[app].job, map["application_id" := Id(app)])
      && (db2.apps[app].current != l.task ==>
            ReadyIfNew(db.queue, db2.queue, [Str("create_review"), Id(app)], db2.apps[app].current, drawn))
      && l.task in db2.queue.rows && db2.queue.rows[l.task].status == Queue.Succeeded
      && db2.queue.rows[l.task].memory == Some(m)
  {
    var data := ReviewTask(app, db.apps[app], l.task);
    SpawnMeans(db.queue, data, drawn, now);
    DoneMeans(c, Spawn(db.queue, data, drawn, now).value.0, l, m, now);
    assert Fenced(db.queue, l, now).Success? ==> Queue.Passes(db.queue, l, now);
    hide Spawn, Queue.CompleteInTransaction, Fenced, Queue.Passes;
  }

  // ---------------------------------------------------------------- preparing a review

  /** The review task of this application, whose current task it is, ready for its review. */
  predicate MayPrepare(db: Db, l: Queue.Lease, app: AppId, now: int) {
    && l.taskType == "CREATE_REVIEW" && "application_id" in l.payload && l.payload["application_id"] == Id(app)
    && Queue.Passes(db.queue, l, now) && db.queue.rows[l.task].identity.application == Some(app)
    && app in db.apps && db.apps[app].current == l.task && db.apps[app].stage == StageReview
    && db.apps[app].status == ReadyToReview && app in db.inputs && db.inputs[app].Some?
  }

  /** The content of the review made now. */
  function ReviewNow(db: Db, app: AppId, now: int): Json
    requires app in db.inputs && db.inputs[app].Some?
  {
    Obj(db.inputs[app].value["application_id" := Id(app)]["created_at" := Time(Queue.Stamp(now))])
  }

  /** Reviews are prepared for these leases only; the file is written as soon as the content is known. */
  lemma PrepareNeeds(c: Config, db: Db, l: Queue.Lease, ids: Drawn, now: int)
    ensures Prepare(c, db, l, ids, now).1.Success? ==>
      "application_id" in l.payload && l.payload["application_id"].Id?
      && MayPrepare(db, l, l.payload["application_id"].ulid, now)
  {
    hide Enlist;
  }

  /** A file that is there already is never overwritten: the same content is as good as written, another refused. */
  lemma ReviewFilesAreKept(c: Config, db: Db, l: Queue.Lease, app: AppId, ids: Drawn, now: int)
    requires MayPrepare(db, l, app, now) && Path([app, ids.review]) in db.files
    ensures var path := Path([app, ids.review]);
      var db2 := Prepare(c, db, l, ids, now).0;
      && path in db2.files && db2.files[path] == db.files[path]
      && (db.files[path] != Canonical(ReviewNow(db, app, now)) ==>
            Prepare(c, db, l, ids, now) == (db, Failure(ReviewFailed("review_path_content_conflict"))))
      && (db.files[path] == Canonical(ReviewNow(db, app, now)) ==>
            Prepare(c, db, l, ids, now).1.Failure? ==> Prepare(c, db, l, ids, now).1.error.QueueFailed?)
  {
    assert Payload(db, app, Time(Queue.Stamp(now))) == Some(ReviewNow(db, app, now));
    hide Queue.EnqueueWaiting, Queue.CompleteInTransaction;
  }

  /**
   A prepared review: its file, a submission task that waits for the decision, a pending approval of exactly this
   file with its deadline, that task current, and the review task over.
   */
  lemma PrepareLeaves(c: Config, db: Db, l: Queue.Lease, app: AppId, ids: Drawn, now: int)
    requires KeysOk(db.queue) && l.payload == map["application_id" := Id(app)]
    requires Prepare(c, db, l, ids, now).1.Success?
    requires [Str("submit_task"), Id(app), Hash(Canonical(ReviewNow(db, app, now)))] !in db.queue.keys
    requires ids.task !in db.queue.rows && app in db.inputs && db.inputs[app].Some?
    ensures var db2, path := Prepare(c, db, l, ids, now).0, Path([app, ids.review]);
      var content := Canonical(ReviewNow(db, app, now));
      var sha := Hash(content);
      && db2.files == db.files[path := content] && db2.actions == db.actions && db2.inputs == db.inputs
      && ids.approval !in db.approvals
      && db2.approvals == db.approvals[ids.approval :=
           Approval(app, ids.task, path, sha, Pending, Some(Queue.Stamp(now + c.ttlMicros)), None)]
      && app in db.apps && db2.apps == db.apps[app := db.apps[app].(current := ids.task)]
      && AsksForDecision(db2.queue, l, app, db.apps[app].job, path, sha, ids)
  {
    assert Payload(db, app, Time(Queue.Stamp(now))) == Some(ReviewNow(db, app, now));
    assert Field(l.payload, "application_id") == Id(app);
    var path, content := Path([app, ids.review]), Canonical(ReviewNow(db, app, now));
    EnlistLeaves(c, db.(files := db.files[path := content]), l, app, path, Hash(content), ids, now);
    hide Enlist, Payload, Field;
  }

  /** What the waiting task asks. */
  function Question(app: AppId, sha: Json, ids: Drawn): Json {
    Obj(map["kind" := Str("SUBMISSION_APPROVAL"), "application_id" := Id(app), "approval_id" := Id(ids.approval),
            "review_sha256" := sha])
  }

  /** The queue's part of it. */
  ghost predicate AsksForDecision(q: Queue.Store, l: Queue.Lease, app: AppId, job: nat, path: Json, sha: Json,
                                  ids: Drawn)
  {
    && TaskOf(q, ids.task, "SUBMIT_APPLICATION", [Str("submit_task"), Id(app), sha], app, job,
              map["application_id" := Id(app), "approval_id" := Id(ids.approval), "review_path" := path,
                  "review_sha256" := sha])
    && q.rows[ids.task].status == Queue.WaitingHuman && q.rows[ids.task].maxAttempts == 3
    && q.rows[ids.task].priority == 100
    && ids.interrupt in PendingInterrupts(q.rows[ids.task].Memory())
    && q.rows[ids.task].Memory() == map["interrupts" := Obj(map[ids.interrupt := Question(app, sha, ids)])]
    && l.task in q.rows && q.rows[l.task].status == Queue.Succeeded
    && q.rows[l.task].memory == Some(map["review_path" := path, "review_sha256" := sha])
  }

  lemma EnlistLeaves(c: Config, db: Db, l: Queue.Lease, app: AppId, path: Json, sha: Json, ids: Drawn, now: int)
    requires KeysOk(db.queue) && app in db.apps && Enlist(c, db, l, app, path, sha, ids, now).Success?
    requires [Str("submit_task"), Id(app), sha] !in db.queue.keys && ids.task !in db.queue.rows
    ensures var db2 := Enlist(c, db, l, app, path, sha, ids, now).value;
      && db2 == db.(queue := db2.queue, approvals := db2.approvals, apps := db2.apps) && ids.approval !in db.approvals
      && db2.approvals == db.approvals[ids.approval :=
           Approval(app, ids.task, path, sha, Pending, Some(Queue.Stamp(now + c.ttlMicros)), None)]
      && db2.apps == db.apps[app := db.apps[app].(current := ids.task)]
      && AsksForDecision(db2.queue, l, app, db.apps[app].job, path, sha, ids)
  {
    var data := SubmissionTask(app, db.apps[app], l.task, path, sha, ids);
    var m := ApprovalInterrupt(app, sha, ids);
    assert data.given == Some(ids.task) && data.identity.dedupeKey == Some([Str("submit_task"), Id(app), sha]);
    assert m[INTERRUPTS].Obj? && ids.interrupt in m[INTERRUPTS].fields;
    assert m == map["interrupts" := Obj(map[ids.interrupt := Question(app, sha, ids)])];
    assert TaskIs(data, app, db.apps[app].job, path, sha, ids);
    hide SubmissionTask, ApprovalInterrupt, Queue.EnqueueWaiting, Queue.CompleteInTransaction, KeysOk, TaskIs;
    WaitingMeans(c, db.queue, data, m, ids.task, now);
    var (q, id) := Queue.EnqueueWaiting(c.queue, db.queue, data, m, ids.task, now).value;
    DoneMeans(c, q, l, map["review_path" := path, "review_sha256" := sha], now);
    var done :=
      Queue.CompleteInTransaction(c.queue, q, l, map["review_path" := path, "review_sha256" := sha], false, now);
    hide Enlist;
    assert done.Success?;
    TaskKept(q, done.value, l, data, app, db.apps[app].job, path, sha, ids);
  }

  predicate TaskIs(data: Queue.TaskCreate, app: AppId, job: nat, path: Json, sha: Json, ids: Drawn) {
    && data.identity.taskType == "SUBMIT_APPLICATION" && data.maxAttempts == 3 && data.priority == 100
    && data.identity.dedupeKey == Some([Str("submit_task"), Id(app), sha])
    && data.identity.application == Some(app) && data.identity.job == Some(job)
    && data.identity.payload == map["application_id" := Id(app), "approval_id" := Id(ids.approval),
                                    "review_path" := path, "review_sha256" := sha]
  }

  lemma TaskKept(q: Queue.Store, q2: Queue.Store, l: Queue.Lease, data: Queue.TaskCreate, app: AppId, job: nat,
      path: Json, sha: Json, ids: Drawn)
    requires ids.task in q.rows && q.rows[ids.task].identity == data.identity && TaskIs(data, app, job, path, sha, ids)
    requires q.rows[ids.task].status == Queue.WaitingHuman && q.rows[ids.task].worker.None?
    requires q.rows[ids.task].maxAttempts == data.maxAttempts && q.rows[ids.task].priority == data.priority
    requires ids.interrupt in PendingInterrupts(q.rows[ids.task].Memory()) && Queue.Owns(q, l)
    requires q.rows[ids.task].Memory() == map["interrupts" := Obj(map[ids.interrupt := Question(app, sha, ids)])]
    requires l.task in q2.rows && q2.rows == q.rows[l.task := q2.rows[l.task]]
    requires q2.rows[l.task].status == Queue.Succeeded
    requires q2.rows[l.task].memory == Some(map["review_path" := path, "review_sha256" := sha])
    ensures AsksForDecision(q2, l, app, job, path, sha, ids)
  {
  }

  lemma WaitingMeans(c: Config, q: Queue.Store, data: Queue.TaskCreate, m: Memory, drawn: Queue.TaskId, now: int)
    requires KeysOk(q) && data.given == Some(drawn) && drawn !in q.rows
    requires data.identity.dedupeKey.Some? && data.identity.dedupeKey.value !in q.keys
    ensures var r := Queue.EnqueueWaiting(c.queue, q, data, m, drawn, now);
      r.Success? ==>
        var (q2, id) := r.value;
        && id == drawn && q2.rows.Keys == q.rows.Keys + {drawn} && q2.rows[drawn].identity == data.identity
        && q2.rows[drawn].status == Queue.WaitingHuman && q2.rows[drawn].memory == Some(m)
        && q2.rows[drawn].worker.None? && q2.rows[drawn].maxAttempts == data.maxAttempts
        && q2.rows[drawn].priority == data.priority
  {
  }

  lemma DoneMeans(c: Config, q: Queue.Store, l: Queue.Lease, m: Memory, now: int)
    ensures var r := Queue.CompleteInTransaction(c.queue, q, l, m, false, now);
      r.Success? ==>
        && Queue.Owns(q, l) && l.task in r.value.rows && r.value.rows == q.rows[l.task := r.value.rows[l.task]]
        && r.value.rows[l.task].status == Queue.Succeeded && r.value.rows[l.task].memory == Some(m)
  {
  }
}
