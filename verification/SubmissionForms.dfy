/** The form stage hands an application over only while its task is current; no promise is needed for that. */
module SubmissionForms {
  import opened Wrappers
  import opened Json
  import opened Submission
  import opened SubmissionRuns
  import opened SubmissionSteps
  import opened QueueRuns
  import opened QueueLaws
  import Queue

  /** Form workers of `app`, if any, have lost their tasks. */
  ghost predicate Unformed(w: World, q2: Queue.Store, app: AppId) {
    forall tok :: tok in w.forms && w.forms[tok].app == app ==> !Queue.Owns(q2, w.forms[tok].lease)
  }

  /** Leases stay issued, and ownership never appears from nowhere. */
  ghost predicate NobodyGains(w: World, w2: World) {
    forall l :: l in w.issued ==> l in w2.issued && (Queue.Owns(w2.db.queue, l) ==> Queue.Owns(w.db.queue, l))
  }

  /** At most the application `moved` gets another current task. */
  ghost predicate OnlyMoves(db: Db, db2: Db, moved: Option<AppId>) {
    forall a :: a in db.apps ==> a in db2.apps && (Some(a) != moved ==> db2.apps[a].current == db.apps[a].current)
  }

  lemma FormsStay(w: World, w2: World, moved: Option<AppId>)
    requires FormsOk(w) && w2.forms == w.forms && SameTasks(w.db.queue, w2.db.queue) && NobodyGains(w, w2)
    requires OnlyMoves(w.db, w2.db, moved)
    requires moved.Some? ==> Unformed(w, w2.db.queue, moved.value)
    ensures FormsOk(w2)
  {
    forall tok | tok in w2.forms ensures FormOk(w2, tok, w2.forms[tok]) {
      assert FormOk(w, tok, w.forms[tok]);
    }
  }

  /** While the current task is no form task, no form worker of the application is left. */
  lemma NoFormer(w: World, q2: Queue.Store, app: AppId)
    requires FormsOk(w) && app in w.db.apps && w.db.apps[app].current in w.db.queue.rows
    requires TypeOf(w.db.queue, w.db.apps[app].current) != FORM && NoNewOwner(w.db.queue, q2, w.issued)
    ensures Unformed(w, q2, app)
  {
    forall tok | tok in w.forms && w.forms[tok].app == app ensures !Queue.Owns(q2, w.forms[tok].lease) {
      assert FormOk(w, tok, w.forms[tok]);
    }
  }

  lemma FormStartStays(w: World, l: Queue.Lease)
    requires Safe(w) && FormsOk(w) && l in w.issued && l.taskType == FORM && l.worker !in w.forms
    ensures FormsOk(StartForm(w, l))
  {
    hide Good, TablesOk, AuthsOk, CallsOk, ExecsOk, RecsOk, KeysOk;
    FromGood(w.db.queue, w.issued);
    var w2 := StartForm(w, l);
    forall tok | tok in w2.forms ensures FormOk(w2, tok, w2.forms[tok]) {
      if tok != l.worker {
        assert FormOk(w, tok, w.forms[tok]);
      }
    }
  }

  lemma FormDoneStays(c: Config, w: World, tok: Queue.Token, m: Memory, drawn: Queue.TaskId)
    requires Safe(w) && FormsOk(w) && tok in w.forms && Clean(m)
    ensures FormsOk(EndForm(c, w, tok, m, drawn))
  {
    hide Good, TablesOk, AuthsOk, CallsOk, ExecsOk, RecsOk, FinishForm, Fenced;
    var w2, x := EndForm(c, w, tok, m, drawn), w.forms[tok];
    if w2 != w {
      assert FormOk(w, tok, x);
      FinishFormShape(c, w.db, w.issued, x.lease, x.app, m, drawn, w.now);
      FenceOwns(w.db.queue, x.lease, w.now);
      OneFormer(w, w2.db.queue, tok);
      FormsStay(w, w2, Some(x.app));
    }
  }

  /** Two form workers that own their tasks do not share the application. */
  lemma OneFormer(w: World, q2: Queue.Store, tok: Queue.Token)
    requires FormsOk(w) && tok in w.forms && Queue.Owns(w.db.queue, w.forms[tok].lease)
    requires NoNewOwner(w.db.queue, q2, w.issued) && !Queue.Owns(q2, w.forms[tok].lease)
    ensures Unformed(w, q2, w.forms[tok].app)
  {
    assert FormOk(w, tok, w.forms[tok]);
    forall t | t in w.forms && w.forms[t].app == w.forms[tok].app ensures !Queue.Owns(q2, w.forms[t].lease) {
      assert FormOk(w, t, w.forms[t]);
    }
  }

  lemma NewApplicationStays(w: World, app: AppId, job: nat, url: string, drawn: Queue.TaskId)
    requires Safe(w) && FormsOk(w) && app !in w.db.apps
    ensures FormsOk(AddApplication(w, app, job, url, drawn))
  {
    hide Good, TablesOk, AuthsOk, CallsOk, ExecsOk, RecsOk, FormsOk, SameTasks;
    var w2 := AddApplication(w, app, job, url, drawn);
    if w2 != w {
      var data := Queue.TaskCreate(Queue.Identity(FORM, None, Some(app), Some(job), None, map[]), 100, 3, None);
      SpawnExtends(w.db.queue, w.issued, data, drawn, w.now);
      FormsStay(w, w2, None);
    }
  }

  lemma PrepareStays(c: Config, w: World, l: Queue.Lease, ids: Drawn)
    requires Safe(w) && FormsOk(w) && l in w.issued
    ensures FormsOk(w.(db := Prepare(c, w.db, l, ids, w.now).0))
  {
    hide Good, TablesOk, AuthsOk, CallsOk, ExecsOk, RecsOk, FormsOk, Prepare, Enlist, KeysOk, SameTasks, Unformed;
    PrepareShape(c, w.db, l, ids, w.now);
    var (db2, r) := Prepare(c, w.db, l, ids, w.now);
    var w2 := w.(db := db2);
    if r.Success? {
      var app := Field(l.payload, "application_id").ulid;
      var db1 := w.db.(files := db2.files);
      var path, sha :| Enlist(c, db1, l, app, path, sha, ids, w.now) == Success(db2);
      FromGood(w.db.queue, w.issued);
      EnlistExtends(c, db1, w.issued, l, app, path, sha, ids, w.now);
      NoFormer(w, db2.queue, app);
      FormsStay(w, w2, Some(app));
    } else {
      SameQueueStays(w, w2);
    }
  }

  /** Most transactions touch neither the queue nor which task is current. */
  lemma SameQueueStays(w: World, w2: World)
    requires FormsOk(w) && w2.forms == w.forms && w2.issued == w.issued && w2.db.queue == w.db.queue
    requires OnlyMoves(w.db, w2.db, None)
    ensures FormsOk(w2)
  {
    FormsStay(w, w2, None);
  }

  lemma QueueStepStays(c: Config, w: World, op: Op, now: int)
    requires Safe(w) && FormsOk(w) && now >= w.now && LegalOp(QueueSys(w), op, now)
    ensures FormsOk(Happen(c, w, At(now, QueueStep(op))))
  {
    hide Apply, Good, LegalOp, TablesOk, AuthsOk, CallsOk, ExecsOk, RecsOk, FormsOk;
    ApplyTame(c.queue, QueueSys(w), Step(now, op));
    FormsStay(w, Happen(c, w, At(now, QueueStep(op))), None);
  }

  lemma RecordingStays(c: Config, w: World, tok: Queue.Token, ch: Choice)
    requires Safe(w) && FormsOk(w) && tok in w.execs && w.execs[tok].pc.Recording?
    ensures FormsOk(StepExec(c, w, tok, ch))
  {
    hide Good, TablesOk, AuthsOk, CallsOk, ExecsOk, RecsOk, FormsOk, Fenced, Record, Unformed;
    var l, k, outcome := w.execs[tok].lease, w.execs[tok].pc.k, w.execs[tok].pc.outcome;
    RecordShape(w.db, w.issued, l, k.Key(), outcome, ch.first, ch.second, w.now);
    var r := Record(w.db, l, k.Key(), outcome, ch.first, ch.second, w.now);
    var w2 := StepExec(c, w, tok, ch);
    if r.Failure? {
      SameQueueStays(w, w2);
    } else {
      AtWork(w, tok);
      NoFormer(w, w2.db.queue, k.app);
      FormsStay(w, w2, Some(k.app));
    }
  }

  lemma SchedulingStays(c: Config, w: World, tok: Queue.Token, ch: Choice)
    requires Safe(w) && FormsOk(w) && tok in w.execs && w.execs[tok].pc.Scheduling?
    ensures FormsOk(StepExec(c, w, tok, ch))
  {
    hide Good, TablesOk, AuthsOk, CallsOk, ExecsOk, RecsOk, FormsOk, Fenced, Spawn, Unformed, SameTasks;
    var l, k := w.execs[tok].lease, w.execs[tok].pc.k;
    var r := ScheduleNewReview(w.db, l, k.app, ch.token, ch.first, w.now);
    var w2 := StepExec(c, w, tok, ch);
    if r.Failure? {
      SameQueueStays(w, w2);
    } else {
      AtWork(w, tok);
      SpawnExtends(w.db.queue, w.issued,
                   FollowUp(CREATE_REVIEW, [Str("create_review"), Id(k.app), Id(ch.token)], k.app, w.db.apps[k.app],
                            l.task, map["application_id" := Id(k.app)]), ch.first, w.now);
      NoFormer(w, w2.db.queue, k.app);
      FormsStay(w, w2, Some(k.app));
    }
  }

  /** The other steps of an executor leave the queue and every current task alone. */
  lemma OtherStepStays(c: Config, w: World, tok: Queue.Token, ch: Choice)
    requires FormsOk(w) && tok in w.execs && !w.execs[tok].pc.Recording? && !w.execs[tok].pc.Scheduling?
    ensures FormsOk(StepExec(c, w, tok, ch))
  {
    hide FormsOk, Fenced, Unchanged, Payload, ReadReview;
    SameQueueStays(w, StepExec(c, w, tok, ch));
  }

  lemma StepExecStays(c: Config, w: World, tok: Queue.Token, ch: Choice)
    requires Safe(w) && FormsOk(w) && tok in w.execs
    ensures FormsOk(StepExec(c, w, tok, ch))
  {
    hide Safe, FormsOk, StepExec;
    if w.execs[tok].pc.Recording? {
      RecordingStays(c, w, tok, ch);
    } else if w.execs[tok].pc.Scheduling? {
      SchedulingStays(c, w, tok, ch);
    } else {
      OtherStepStays(c, w, tok, ch);
    }
  }

  lemma BeginStays(c: Config, w: World, l: Queue.Lease)
    requires FormsOk(w)
    ensures FormsOk(BeginExec(c, w, l))
  {
    hide FormsOk, Validated;
    ValidatedShape(c, w.db, l, w.now);
    SameQueueStays(w, BeginExec(c, w, l));
  }

  lemma FormsKeep(c: Config, w0: World, at: At)
    requires Safe(w0) && FormsOk(w0) && May(w0, at)
    ensures FormsOk(Happen(c, w0, at))
  {
    hide Safe, FormsOk, LegalOp, StepExec, BeginExec, Prepare, StartForm, EndForm, AddApplication, Apply;
    var w := w0.(now := at.now);
    ClockKeeps(w0, at.now);
    SameQueueStays(w0, w);
    match at.event {
      case QueueStep(op) => QueueStepStays(c, w0, op, at.now);
      case NewApplication(app, job, url, drawn) => NewApplicationStays(w, app, job, url, drawn);
      case FormStart(l) => FormStartStays(w, l);
      case FormDone(tok, m, drawn) =>
        if tok in w.forms {
          FormDoneStays(c, w, tok, m, drawn);
        }
      case PrepareReview(l, ids) => PrepareStays(c, w, l, ids);
      case Begin(l) => BeginStays(c, w, l);
      case Proceed(tok, ch) =>
        if tok in w.execs {
          StepExecStays(c, w, tok, ch);
        }
      case _ => SameQueueStays(w, Happen(c, w0, at));
    }
  }
}
