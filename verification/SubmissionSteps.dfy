/** Every event of the submission pipeline keeps the invariant. */
module SubmissionSteps {
  import opened Wrappers
  import opened Json
  import opened Submission
  import opened SubmissionRuns
  import opened QueueRuns
  import opened QueueLaws
  import Queue

  // ---------------------------------------------------------------- what carries an executor over

  /** Nothing is deleted or rebound, FAILED stays FAILED, and ownership never appears from nowhere. */
  ghost predicate Grows(w: World, w2: World) {
    && (forall l :: l in w.issued ==> l in w2.issued && (Queue.Owns(w2.db.queue, l) ==> Queue.Owns(w.db.queue, l)))
    && SameTasks(w.db.queue, w2.db.queue)
    && (forall a :: a in w.db.apps ==> a in w2.db.apps)
    && (forall a :: a in w.db.approvals ==> a in w2.db.approvals && SameBinding(w.db.approvals[a], w2.db.approvals[a]))
    && (forall key :: key in w.db.actions ==>
          && key in w2.db.actions
          && w2.db.actions[key].task == w.db.actions[key].task
          && w2.db.actions[key].approval == w.db.actions[key].approval
          && (w.db.actions[key].status == Failed ==> w2.db.actions[key].status == Failed))
    && w.auths <= w2.auths
  }

  ghost predicate SameTasks(q: Queue.Store, q2: Queue.Store) {
    forall id :: id in q.rows ==> id in q2.rows && q2.rows[id].identity == q.rows[id].identity
  }

  predicate SameBinding(a: Approval, b: Approval) {
    a.app == b.app && a.task == b.task && a.path == b.path && a.sha == b.sha
  }

  /** The application and the action of an executor that still owns its task are left alone. */
  ghost predicate Undisturbed(w: World, w2: World, l: Queue.Lease, pc: Pc) {
    !pc.Stopped? ==>
      var k := pc.k;
      && (Queue.Owns(w2.db.queue, l) && k.app in w.db.apps && k.app in w2.db.apps ==>
            && w2.db.apps[k.app].current == w.db.apps[k.app].current
            && (StatusOf(w2.db, k) == StatusOf(w.db, k)
                || (StatusOf(w.db, k) == Executing && StatusOf(w2.db, k) == UnknownResult)))
      && (pc.Clicking? ==>
            w2.calls == w.calls || (|w2.calls| == |w.calls| + 1 && w.calls <= w2.calls
                                    && w2.calls[|w.calls|].key != k.Key()))
  }

  lemma CarryPc(w: World, w2: World, tok: Queue.Token, l: Queue.Lease, pc: Pc)
    requires Grows(w, w2) && Undisturbed(w, w2, l, pc) && !pc.Stopped?
    requires l in w.issued && BoundTo(w.db, l, pc.k) && Current(w.db, l, pc.k) && PcOk(w, tok, l, pc)
    ensures PcOk(w2, tok, l, pc)
  {
    hide BoundTo, SameTasks, CaseTask;
    var k := pc.k;
    if AuthorisedBy(w.auths, k.Key()) {
      var i :| 0 <= i < |w.auths| && w.auths[i].key == k.Key();
      assert w2.auths[i] == w.auths[i];
    }
    if pc.Clicking? {
      var a := Auth(k.Key(), k.approval, tok, pc.review);
      var i :| 0 <= i < |w.auths| && w.auths[i] == a;
      assert w2.auths[i] == a;
    }
  }

  lemma Carry(w: World, w2: World, tok: Queue.Token, x: Exec)
    requires Grows(w, w2) && ExecOk(w, tok, x) && Undisturbed(w, w2, x.lease, x.pc)
    ensures ExecOk(w2, tok, x)
  {
    if !x.pc.Stopped? {
      CarryPc(w, w2, tok, x.lease, x.pc);
    }
  }

  // ---------------------------------------------------------------- events that move nothing on

  predicate SameOrRecovered(x: ActionStatus, y: ActionStatus) {
    x == y || (x == Executing && y == UnknownResult)
  }

  /** No application changes task, no action is planned or decided, no approval becomes consumed. */
  ghost predicate Calm(db: Db, db2: Db) {
    && SameTasks(db.queue, db2.queue)
    && db2.apps.Keys == db.apps.Keys
    && (forall a :: a in db.apps ==> db2.apps[a].current == db.apps[a].current)
    && (forall a :: a in db.approvals ==> a in db2.approvals && SameBinding(db.approvals[a], db2.approvals[a]))
    && (forall a :: a in db.approvals && db.approvals[a].status == Consumed ==> db2.approvals[a].status == Consumed)
    && (forall a :: a in db2.approvals && db2.approvals[a].status == Consumed ==>
          a in db.approvals && db.approvals[a].status == Consumed)
    && db2.actions.Keys == db.actions.Keys
    && (forall key :: key in db.actions ==>
          db2.actions[key] == db.actions[key].(status := db2.actions[key].status)
          && SameOrRecovered(db.actions[key].status, db2.actions[key].status))
  }

  /** Action rows stay valid when tasks, applications and approvals only accumulate. */
  lemma KeepAction(db: Db, db2: Db, key: ActionKey)
    requires ActionOk(db, key) && SameTasks(db.queue, db2.queue)
    requires key in db2.actions && db2.actions[key] == db.actions[key].(status := db2.actions[key].status)
    requires key.app in db2.apps && db.actions[key].approval in db2.approvals
    ensures ActionOk(db2, key)
  {
    var k :| CaseTask(db.queue, db.actions[key].task, k) && k.Key() == key && k.approval == db.actions[key].approval;
    assert CaseTask(db2.queue, db2.actions[key].task, k);
  }

  lemma CalmTables(db: Db, db2: Db)
    requires TablesOk(db) && Calm(db, db2)
    ensures TablesOk(db2)
  {
    forall key | key in db2.actions ensures ActionOk(db2, key) {
      hide Names, CaseTask, PastOver, SuccessLast;
      assert ActionOk(db, key);
      KeepAction(db, db2, key);
    }
    forall app | app in db2.apps ensures PastOver(db2, app) && SuccessLast(db2, app) {
      hide ActionOk;
      CalmApp(db, db2, app);
    }
  }

  lemma CalmApp(db: Db, db2: Db, app: AppId)
    requires app in db.apps && PastOver(db, app) && SuccessLast(db, app) && Calm(db, db2)
    ensures PastOver(db2, app) && SuccessLast(db2, app)
  {
  }

  lemma CalmAuths(db: Db, db2: Db, auths: seq<Auth>)
    requires AuthsOk(db, auths) && Calm(db, db2)
    ensures AuthsOk(db2, auths)
  {
    forall i | 0 <= i < |auths| ensures AuthOk(db2, auths[i]) {
      assert AuthOk(db, auths[i]);
    }
  }

  lemma CarryAll(w: World, w2: World)
    requires Grows(w, w2) && ExecsOk(w) && w2.execs == w.execs
    requires forall tok :: tok in w.execs ==> Undisturbed(w, w2, w.execs[tok].lease, w.execs[tok].pc)
    ensures ExecsOk(w2)
  {
    forall tok | tok in w2.execs ensures ExecOk(w2, tok, w2.execs[tok]) {
      Carry(w, w2, tok, w.execs[tok]);
    }
  }

  lemma CalmKeeps(w: World, w2: World)
    requires Safe(w) && Calm(w.db, w2.db) && Inv(QueueSys(w2))
    requires w2 == w.(db := w2.db, issued := w2.issued, now := w2.now)
    requires forall l :: l in w.issued ==>
      l in w2.issued && (Queue.Owns(w2.db.queue, l) ==> Queue.Owns(w.db.queue, l))
    ensures Safe(w2)
  {
    hide Inv, TablesOk, AuthsOk, CallsOk, ExecsOk;
    CalmTables(w.db, w2.db);
    CalmAuths(w.db, w2.db, w.auths);
    CarryAll(w, w2);
  }

  lemma QueueStepKeeps(c: Config, w: World, op: Op, now: int)
    requires Safe(w) && now >= w.now && LegalOp(QueueSys(w), op, now)
    ensures Safe(Happen(c, w, At(now, QueueStep(op))))
  {
    hide Apply, Good, LegalOp, TablesOk, AuthsOk, CallsOk, ExecsOk;
    ApplyKeeps(c.queue, QueueSys(w), Step(now, op));
    ApplyTame(c.queue, QueueSys(w), Step(now, op));
    CalmKeeps(w, Happen(c, w, At(now, QueueStep(op))));
  }

  lemma RecoverActionsKeeps(w: World)
    requires Safe(w)
    ensures Safe(w.(db := Submission.Recover(w.db)))
  {
    hide Inv, TablesOk, AuthsOk, CallsOk, ExecsOk;
    CalmKeeps(w, w.(db := Submission.Recover(w.db)));
  }

  // ---------------------------------------------------------------- what the current task tells

  /** Two actions of one application with the same task are one action. */
  lemma OneActionPerTask(db: Db, a: ActionKey, b: ActionKey)
    requires ActionOk(db, a) && ActionOk(db, b) && db.actions[a].task == db.actions[b].task
    ensures a == b
  {
    var k :| CaseTask(db.queue, db.actions[a].task, k) && k.Key() == a && k.approval == db.actions[a].approval;
    var j :| CaseTask(db.queue, db.actions[b].task, j) && j.Key() == b && j.approval == db.actions[b].approval;
  }

  /** While the current task is an earlier stage's or a review task, every action has failed. */
  lemma AllFailed(db: Db, app: AppId, key: ActionKey)
    requires TablesOk(db) && app in db.apps && db.apps[app].current in db.queue.rows
    requires TypeOf(db.queue, db.apps[app].current) in {FORM, CREATE_REVIEW}
    requires key in db.actions && key.app == app
    ensures db.actions[key].status == Failed
  {
    assert PastOver(db, app) && SuccessLast(db, app) && ActionOk(db, key);
  }

  /** While a submission task is current, no action has succeeded and those of other tasks have failed. */
  lemma OthersFailed(db: Db, app: AppId, key: ActionKey)
    requires TablesOk(db) && app in db.apps && db.apps[app].current in db.queue.rows
    requires TypeOf(db.queue, db.apps[app].current) == SUBMIT
    requires key in db.actions && key.app == app
    ensures db.actions[key].task != db.apps[app].current ==> db.actions[key].status == Failed
    ensures db.actions[key].status != Succeeded
  {
    assert PastOver(db, app) && SuccessLast(db, app);
  }

  // ---------------------------------------------------------------- events that move an application on

  /** An application that is new, or whose actions have all failed, gets a new current task. */
  ghost predicate Handover(db: Db, db2: Db, app: AppId) {
    && SameTasks(db.queue, db2.queue)
    && app in db2.apps && db2.apps == db.apps[app := db2.apps[app]]
    && db2.apps[app].current in db2.queue.rows
    && db2.actions == db.actions
    && (forall a :: a in db.approvals ==> a in db2.approvals && db2.approvals[a] == db.approvals[a])
    && (forall a :: a in db2.approvals && a !in db.approvals ==> db2.approvals[a].status == Pending)
    && (forall key :: key in db.actions && key.app == app ==> db.actions[key].status == Failed)
  }

  lemma HandoverTables(db: Db, db2: Db, app: AppId)
    requires TablesOk(db) && Handover(db, db2, app)
    ensures TablesOk(db2)
  {
    forall key | key in db2.actions ensures ActionOk(db2, key) {
      KeepAction(db, db2, key);
    }
    forall a | a in db2.apps ensures PastOver(db2, a) && SuccessLast(db2, a) {
      if a != app {
        assert PastOver(db, a) && SuccessLast(db, a);
      }
    }
  }

  lemma HandoverAuths(db: Db, db2: Db, app: AppId, auths: seq<Auth>)
    requires AuthsOk(db, auths) && Handover(db, db2, app)
    ensures AuthsOk(db2, auths)
  {
    forall i | 0 <= i < |auths| ensures AuthOk(db2, auths[i]) {
      assert AuthOk(db, auths[i]);
    }
  }

  /** No executor that owns its task after the change works on this application. */
  ghost predicate Unused(w: World, q2: Queue.Store, app: AppId) {
    forall tok :: tok in w.execs && Working(w.execs[tok], q2) ==> w.execs[tok].pc.k.app != app
  }

  ghost predicate Working(x: Exec, q: Queue.Store) {
    !x.pc.Stopped? && Queue.Owns(q, x.lease)
  }

  lemma HandoverKeeps(w: World, w2: World, app: AppId)
    requires Safe(w) && Handover(w.db, w2.db, app) && Inv(QueueSys(w2))
    requires w2 == w.(db := w2.db)
    requires forall l :: l in w.issued ==> (Queue.Owns(w2.db.queue, l) ==> Queue.Owns(w.db.queue, l))
    requires Unused(w, w2.db.queue, app)
    ensures Safe(w2)
  {
    hide Inv, TablesOk, AuthsOk, CallsOk, ExecsOk;
    HandoverTables(w.db, w2.db, app);
    HandoverAuths(w.db, w2.db, app, w.auths);
    CarryAll(w, w2);
  }

  // ---------------------------------------------------------------- queue changes inside a transaction

  /** Ownership never appears from a transaction that claims nothing. */
  ghost predicate NoNewOwner(q: Queue.Store, q2: Queue.Store, issued: seq<Queue.Lease>) {
    forall l :: l in issued && Queue.Owns(q2, l) ==> Queue.Owns(q, l)
  }

  ghost predicate Extends(q: Queue.Store, q2: Queue.Store, issued: seq<Queue.Lease>) {
    Good(q2, issued) && SameTasks(q, q2) && NoNewOwner(q, q2, issued)
  }

  /** What the queue's invariant says about an issued lease and about the unique index. */
  lemma FromGood(q: Queue.Store, issued: seq<Queue.Lease>)
    requires Good(q, issued)
    ensures KeysOk(q)
    ensures forall l :: l in issued ==>
      && l.task in q.rows && l.payload == q.rows[l.task].identity.payload
      && l.taskType == q.rows[l.task].identity.taskType
  {
  }

  lemma CreatedIdentity(q: Queue.Store, data: Queue.TaskCreate, drawn: Queue.TaskId, status: Queue.Status, now: int)
    requires KeysOk(q)
    ensures var r := Queue.Create(q, data, drawn, status, now);
      r.Success? ==> r.value.1 in r.value.0.rows && r.value.0.rows[r.value.1].identity == data.identity
                     && (data.given.Some? ==> r.value.1 == data.given.value)
  {
  }

  lemma SpawnExtends(q: Queue.Store, issued: seq<Queue.Lease>, data: Queue.TaskCreate, drawn: Queue.TaskId, now: int)
    requires Good(q, issued)
    ensures var r := Spawn(q, data, drawn, now);
      r.Success? ==>
        && Extends(q, r.value.0, issued) && r.value.1 in r.value.0.rows
        && r.value.0.rows[r.value.1].identity == data.identity
  {
    hide Good;
    FromGood(q, issued);
    hide KeysOk;
    CreateKeeps(q, issued, data, drawn, Queue.Ready, now);
    CreateTame(q, issued, data, drawn, Queue.Ready, now);
    CreatedIdentity(q, data, drawn, Queue.Ready, now);
  }

  // ---------------------------------------------------------------- applications enter, leave the form, get reviews

  /** A new application has no actions and no executors yet. */
  lemma NewApplicationKeeps(c: Config, w: World, app: AppId, job: nat, url: string, drawn: Queue.TaskId)
    requires Safe(w) && app !in w.db.apps
    ensures Safe(AddApplication(w, app, job, url, drawn))
  {
    hide Good, Undisturbed;
    var w2 := AddApplication(w, app, job, url, drawn);
    if w2 != w {
      var data := Queue.TaskCreate(Queue.Identity(FORM, None, Some(app), Some(job), None, map[]), 100, 3, None);
      SpawnExtends(w.db.queue, w.issued, data, drawn, w.now);
      NotYetUsed(w, w2.db.queue, app);
      hide TablesOk, AuthsOk, CallsOk, ExecsOk;
      HandoverKeeps(w, w2, app);
    }
  }

  lemma NotYetUsed(w: World, q2: Queue.Store, app: AppId)
    requires Safe(w) && app !in w.db.apps
    ensures forall key :: key in w.db.actions ==> key.app != app
    ensures Unused(w, q2, app)
  {
    hide Good, AuthsOk, CallsOk, PastOver, SuccessLast, Names;
    forall key | key in w.db.actions ensures key.app != app {
      assert ActionOk(w.db, key);
    }
    forall tok | tok in w.execs && Working(w.execs[tok], q2) ensures w.execs[tok].pc.k.app != app {
      assert ExecOk(w, tok, w.execs[tok]);
    }
  }

  /** The end of the form stage: a review task is made and the form task is over. */
  lemma FinishFormShape(c: Config, db: Db, issued: seq<Queue.Lease>, l: Queue.Lease, app: AppId, m: Memory,
                        drawn: Queue.TaskId, now: int)
    requires Good(db.queue, issued) && Clean(m)
    ensures var r := FinishForm(c, db, l, app, m, drawn, now);
      r.Success? ==>
        && Fenced(db.queue, l, now).Success? && app in db.apps && app in r.value.apps
        && r.value == db.(queue := r.value.queue, apps := db.apps[app := r.value.apps[app]])
        && Extends(db.queue, r.value.queue, issued) && !Queue.Owns(r.value.queue, l)
        && r.value.apps[app].current in r.value.queue.rows
  {
    hide Good, Fenced, Spawn;
    var r := FinishForm(c, db, l, app, m, drawn, now);
    if r.Success? {
      SpawnExtends(db.queue, issued, ReviewTask(app, db.apps[app], l.task), drawn, now);
      var q := Spawn(db.queue, ReviewTask(app, db.apps[app], l.task), drawn, now).value.0;
      CompleteInTransactionKeeps(c.queue, q, issued, l, m, false, now);
      CompleteInTransactionTame(c.queue, q, issued, l, m, false, now);
    }
  }

  lemma FormDoneKeeps(c: Config, w: World, tok: Queue.Token, m: Memory, drawn: Queue.TaskId)
    requires Safe(w) && FormsOk(w) && tok in w.forms && Clean(m)
    ensures Safe(EndForm(c, w, tok, m, drawn))
  {
    hide Good, TablesOk, AuthsOk, CallsOk, ExecsOk, FinishForm, Fenced;
    var w2, x := EndForm(c, w, tok, m, drawn), w.forms[tok];
    if w2 != w {
      assert FormOk(w, tok, x);
      FinishFormShape(c, w.db, w.issued, x.lease, x.app, m, drawn, w.now);
      FenceOwns(w.db.queue, x.lease, w.now);
      ReviewedFromElsewhere(w, w2.db.queue, x.app);
      HandoverKeeps(w, w2, x.app);
    }
  }

  /** A lease that passes the fence owns its task. */
  lemma FenceOwns(q: Queue.Store, l: Queue.Lease, now: int)
    requires Fenced(q, l, now).Success?
    ensures Queue.Owns(q, l)
  {
  }

  /** While the current task is no submission task, all actions have failed and no executor is at work. */
  lemma ReviewedFromElsewhere(w: World, q2: Queue.Store, app: AppId)
    requires Safe(w) && app in w.db.apps && w.db.apps[app].current in w.db.queue.rows
    requires TypeOf(w.db.queue, w.db.apps[app].current) in {FORM, CREATE_REVIEW}
    requires NoNewOwner(w.db.queue, q2, w.issued)
    ensures forall key :: key in w.db.actions && key.app == app ==> w.db.actions[key].status == Failed
    ensures Unused(w, q2, app)
  {
    hide Good, AuthsOk, CallsOk, PastOver, SuccessLast, Names;
    forall key | key in w.db.actions && key.app == app ensures w.db.actions[key].status == Failed {
      AllFailed(w.db, app, key);
    }
    forall tok | tok in w.execs && Working(w.execs[tok], q2) ensures w.execs[tok].pc.k.app != app {
      assert ExecOk(w, tok, w.execs[tok]);
    }
  }

  /** The transaction of a review: the queue parts are a waiting task and the end of the review task. */
  lemma EnlistQueue(c: Config, q: Queue.Store, issued: seq<Queue.Lease>, l: Queue.Lease, data: Queue.TaskCreate,
                    memory: Memory, done: Memory, drawn: Queue.TaskId, now: int)
    requires Good(q, issued) && Clean(memory) && Clean(done) && data.given.Some?
    ensures var waiting := Queue.EnqueueWaiting(c.queue, q, data, memory, drawn, now);
      waiting.Success? ==>
        && waiting.value.1 == data.given.value && waiting.value.1 in waiting.value.0.rows
        && var end := Queue.CompleteInTransaction(c.queue, waiting.value.0, l, done, false, now);
           end.Success? ==> Extends(q, end.value, issued) && data.given.value in end.value.rows
  {
    hide Good;
    FromGood(q, issued);
    EnqueueWaitingKeeps(c.queue, q, issued, data, memory, drawn, now);
    EnqueueWaitingTame(c.queue, q, issued, data, memory, drawn, now);
    CreatedIdentity(q, data, drawn, Queue.New, now);
    var waiting := Queue.EnqueueWaiting(c.queue, q, data, memory, drawn, now);
    if waiting.Success? {
      CompleteInTransactionKeeps(c.queue, waiting.value.0, issued, l, done, false, now);
      CompleteInTransactionTame(c.queue, waiting.value.0, issued, l, done, false, now);
    }
  }

  lemma EnlistExtends(c: Config, db: Db, issued: seq<Queue.Lease>, l: Queue.Lease, app: AppId, path: Json, sha: Json,
      ids: Drawn, now: int)
    requires Good(db.queue, issued) && app in db.apps
    ensures var r := Enlist(c, db, l, app, path, sha, ids, now);
      r.Success? ==>
        && Extends(db.queue, r.value.queue, issued) && ids.task in r.value.queue.rows
        && r.value.apps == db.apps[app := db.apps[app].(current := ids.task)]
        && ids.approval !in db.approvals && ids.approval in r.value.approvals
        && r.value.approvals == db.approvals[ids.approval := r.value.approvals[ids.approval]]
        && r.value.approvals[ids.approval].status == Pending
        && r.value == db.(queue := r.value.queue, approvals := r.value.approvals, apps := r.value.apps)
  {
    hide Good, Extends, Queue.EnqueueWaiting, Queue.CompleteInTransaction;
    EnlistQueue(c, db.queue, issued, l, SubmissionTask(app, db.apps[app], l.task, path, sha, ids),
                ApprovalInterrupt(app, sha, ids), map["review_path" := path, "review_sha256" := sha], ids.task, now);
  }

  /** A successful preparation is a saved file followed by the transaction of its review. */
  lemma PrepareShape(c: Config, db: Db, l: Queue.Lease, ids: Drawn, now: int)
    ensures var (db2, r) := Prepare(c, db, l, ids, now);
      && (r.Failure? ==> db2 == db.(files := db2.files))
      && (r.Success? ==>
            var app := Field(l.payload, "application_id").ulid;
            var db1 := db.(files := db2.files);
            && l.taskType == CREATE_REVIEW && Field(l.payload, "application_id").Id?
            && app in db.apps && db.apps[app].current == l.task
            && exists path, sha :: Enlist(c, db1, l, app, path, sha, ids, now) == Success(db2))
  {
    hide Enlist;
    var (db2, r) := Prepare(c, db, l, ids, now);
    if r.Success? {
      var app := Field(l.payload, "application_id").ulid;
      var path := Path([app, ids.review]);
      var sha := Hash(Canonical(Payload(db, app, Time(Queue.Stamp(now))).value));
      var db1 := db.(files := db.files[path := Canonical(Payload(db, app, Time(Queue.Stamp(now))).value)]);
      EnlistFiles(c, db1, l, app, path, sha, ids, now);
      assert Enlist(c, db1, l, app, path, sha, ids, now) == Success(db2);
      assert db1 == db.(files := db2.files);
    }
  }

  lemma EnlistFiles(c: Config, db: Db, l: Queue.Lease, app: AppId, path: Json, sha: Json, ids: Drawn, now: int)
    requires app in db.apps
    ensures var r := Enlist(c, db, l, app, path, sha, ids, now); r.Success? ==> r.value.files == db.files
  {
    hide Queue.EnqueueWaiting, Queue.CompleteInTransaction;
  }

  lemma PrepareKeeps(c: Config, w: World, l: Queue.Lease, ids: Drawn)
    requires Safe(w) && l in w.issued
    ensures Safe(w.(db := Prepare(c, w.db, l, ids, w.now).0))
  {
    hide Good, TablesOk, AuthsOk, CallsOk, ExecsOk, Prepare, Enlist, Extends, Unused;
    PrepareShape(c, w.db, l, ids, w.now);
    var (db2, r) := Prepare(c, w.db, l, ids, w.now);
    var w1 := w.(db := w.db.(files := db2.files));
    CalmKeeps(w, w1);
    if r.Success? {
      var app := Field(l.payload, "application_id").ulid;
      var path, sha :| Enlist(c, w1.db, l, app, path, sha, ids, w.now) == Success(db2);
      ReviewPrepared(c, w1, l, app, path, sha, ids, db2);
    }
  }

  lemma ReviewPrepared(c: Config, w: World, l: Queue.Lease, app: AppId, path: Json, sha: Json, ids: Drawn, db2: Db)
    requires Safe(w) && l in w.issued && l.taskType == CREATE_REVIEW
    requires app in w.db.apps && w.db.apps[app].current == l.task
    requires Enlist(c, w.db, l, app, path, sha, ids, w.now) == Success(db2)
    ensures Safe(w.(db := db2))
  {
    hide Good, TablesOk, AuthsOk, CallsOk, ExecsOk, Enlist, Unused, KeysOk;
    FromGood(w.db.queue, w.issued);
    EnlistExtends(c, w.db, w.issued, l, app, path, sha, ids, w.now);
    ReviewedFromElsewhere(w, db2.queue, app);
    HandoverKeeps(w, w.(db := db2), app);
  }

  // ---------------------------------------------------------------- decisions and the start of an execution

  lemma DecideKeeps(w: World, a: ApprovalId, user: User, approve: bool)
    requires Safe(w)
    ensures Safe(DecideApproval(w, a, user, approve))
  {
    hide Good, TablesOk, AuthsOk, CallsOk, ExecsOk;
    CalmKeeps(w, DecideApproval(w, a, user, approve));
  }

  lemma ValidatedShape(c: Config, db: Db, l: Queue.Lease, now: int)
    ensures var (db2, r) := Validated(c, db, l, now);
      && Calm(db, db2)
      && db2 == db.(approvals := db2.approvals)
      && (r.Success? ==> db2 == db && CaseOf(l.payload) == r && Correlated(db, l, r.value))
  {
    hide CaseOf;
  }

  /** The fenced checks bind lease, task, approval and payload together, and find the task current. */
  lemma BeginKeeps(c: Config, w: World, l: Queue.Lease)
    requires Safe(w) && l in w.issued && l.worker !in w.execs
    ensures Safe(BeginExec(c, w, l))
  {
    hide Good, TablesOk, AuthsOk, CallsOk, ExecsOk, KeysOk, Validated, Calm, CaseOf;
    FromGood(w.db.queue, w.issued);
    ValidatedShape(c, w.db, l, w.now);
    var (db, r) := Validated(c, w.db, l, w.now);
    var w1 := w.(db := db);
    CalmKeeps(w, w1);
    NewExecKeeps(w1, l, if r.Success? then Fetching(r.value) else Stopped);
  }

  lemma NewExecKeeps(w: World, l: Queue.Lease, pc: Pc)
    requires Safe(w) && l in w.issued && l.worker !in w.execs
    requires pc.Stopped? || (pc.Fetching? && BoundTo(w.db, l, pc.k) && Current(w.db, l, pc.k))
    ensures Safe(w.(execs := w.execs[l.worker := Exec(l, pc, w.now)]))
  {
    var w2 := w.(execs := w.execs[l.worker := Exec(l, pc, w.now)]);
    hide Good, TablesOk, AuthsOk, CallsOk;
    forall tok | tok in w2.execs ensures ExecOk(w2, tok, w2.execs[tok]) {
      if tok != l.worker {
        Carry(w, w2, tok, w.execs[tok]);
      }
    }
  }

  // ---------------------------------------------------------------- the executor's own steps

  /** Moving a program counter alone keeps everything if the new position's facts hold. */
  lemma GotoKeeps(w: World, tok: Queue.Token, pc: Pc)
    requires Safe(w) && tok in w.execs
    requires ExecOk(w, tok, w.execs[tok].(pc := pc))
    ensures Safe(Goto(w, tok, pc))
  {
    hide Good, TablesOk, AuthsOk, CallsOk;
    var w2 := Goto(w, tok, pc);
    forall t | t in w2.execs ensures ExecOk(w2, t, w2.execs[t]) {
      hide ExecOk;
      if t != tok {
        Carry(w, w2, t, w.execs[t]);
      } else {
        CarryMoved(w, w2, tok, w.execs[tok].(pc := pc));
      }
    }
  }

  lemma CarryMoved(w: World, w2: World, tok: Queue.Token, x: Exec)
    requires ExecOk(w, tok, x) && w2 == w.(execs := w2.execs)
    ensures ExecOk(w2, tok, x)
  {
  }

  lemma ReadingKeeps(c: Config, w: World, tok: Queue.Token, ch: Choice)
    requires Safe(w) && tok in w.execs
      && (w.execs[tok].pc.Fetching? || w.execs[tok].pc.Comparing? || w.execs[tok].pc.Reconciling?)
    ensures Safe(StepExec(c, w, tok, ch))
  {
    hide Good, TablesOk, AuthsOk, CallsOk;
    assert ExecOk(w, tok, w.execs[tok]);
    hide ExecsOk;
    var k := w.execs[tok].pc.k;
    match w.execs[tok].pc {
      case Fetching(_) =>
        var r := ReadReview(c, w.db, k.path, k.sha);
        GotoKeeps(w, tok, if r.Some? && CreatedAt(r.value).Some? then Comparing(k, r.value) else Revoking(k));
      case Comparing(_, review) =>
        GotoKeeps(w, tok, if CreatedAt(review).Some? && Payload(w.db, k.app, CreatedAt(review).value) == Some(review)
                          then Planning(k, review) else Revoking(k));
      case Reconciling(_, _) => GotoKeeps(w, tok, Recording(k, ch.outcome));
    }
  }

  lemma StopKeeps(w: World, tok: Queue.Token)
    requires Safe(w) && tok in w.execs
    ensures Safe(Goto(w, tok, Stopped))
  {
    hide Good, TablesOk, AuthsOk, CallsOk;
    assert ExecOk(w, tok, w.execs[tok]);
    hide ExecsOk;
    GotoKeeps(w, tok, Stopped);
  }

  lemma RevokingKeeps(c: Config, w: World, tok: Queue.Token, ch: Choice)
    requires Safe(w) && tok in w.execs && w.execs[tok].pc.Revoking?
    ensures Safe(StepExec(c, w, tok, ch))
  {
    hide Good, TablesOk, AuthsOk, CallsOk, ExecsOk, Fenced;
    var r := Revoke(w.db, w.execs[tok].lease, w.execs[tok].pc.k, w.now);
    var w1 := if r.Success? then w.(db := r.value) else w;
    CalmKeeps(w, w1);
    StopKeeps(w1, tok);
  }

  // ---------------------------------------------------------------- steps of an executor that owns its task

  /** Whoever else still owns a task works on another application. */
  lemma Elsewhere(w: World, tok: Queue.Token, q2: Queue.Store, other: Queue.Token)
    requires Safe(w) && tok in w.execs && Working(w.execs[tok], w.db.queue)
    requires NoNewOwner(w.db.queue, q2, w.issued)
    requires other in w.execs && other != tok && Working(w.execs[other], q2)
    ensures w.execs[other].pc.k.app != w.execs[tok].pc.k.app
  {
    hide Good, TablesOk, AuthsOk, CallsOk, PcOk, BoundTo;
    assert ExecOk(w, tok, w.execs[tok]) && ExecOk(w, other, w.execs[other]);
  }

  /** Only this application and its actions change. */
  ghost predicate ConfinedTo(db: Db, db2: Db, app: AppId) {
    && (forall a :: a in db.apps && a != app ==> a in db2.apps && db2.apps[a] == db.apps[a])
    && (forall key :: key in db.actions && key.app != app ==> key in db2.actions && db2.actions[key] == db.actions[key])
    && (forall key :: key in db2.actions && key.app != app ==> key in db.actions)
  }

  lemma OthersKeep(w: World, w2: World, tok: Queue.Token)
    requires Safe(w) && tok in w.execs && Working(w.execs[tok], w.db.queue)
    requires Grows(w, w2) && ConfinedTo(w.db, w2.db, w.execs[tok].pc.k.app) && w2.calls == w.calls
    requires tok in w2.execs && w2.execs == w.execs[tok := w2.execs[tok]] && ExecOk(w2, tok, w2.execs[tok])
    ensures ExecsOk(w2)
  {
    hide Good, TablesOk, AuthsOk, CallsOk, ExecOk;
    assert NoNewOwner(w.db.queue, w2.db.queue, w.issued) by {
      assert forall l :: l in w.issued ==> (Queue.Owns(w2.db.queue, l) ==> Queue.Owns(w.db.queue, l));
    }
    forall t | t in w2.execs ensures ExecOk(w2, t, w2.execs[t]) {
      if t != tok {
        if Working(w.execs[t], w2.db.queue) {
          Elsewhere(w, tok, w2.db.queue, t);
        }
        Carry(w, w2, t, w.execs[t]);
      }
    }
  }

  /** What an executor that passes the fence knows about its application. */
  lemma AtWork(w: World, tok: Queue.Token)
    requires Safe(w) && tok in w.execs && !w.execs[tok].pc.Stopped?
    requires Fenced(w.db.queue, w.execs[tok].lease, w.now).Success?
    ensures Working(w.execs[tok], w.db.queue) && ExecOk(w, tok, w.execs[tok])
    ensures var x := w.execs[tok]; var k := x.pc.k;
      && BoundTo(w.db, x.lease, k) && w.db.apps[k.app].current == x.lease.task
      && x.lease.task in w.db.queue.rows && TypeOf(w.db.queue, x.lease.task) == SUBMIT
  {
    hide Good, TablesOk, AuthsOk, CallsOk, PcOk;
    assert ExecOk(w, tok, w.execs[tok]);
  }

  lemma PlanShape(db: Db, l: Queue.Lease, k: Case, now: int)
    ensures var r := Plan(db, l, k, now);
      r.Success? ==>
        && Fenced(db.queue, l, now).Success?
        && k.Key() in r.value.0.actions && r.value.1 == r.value.0.actions[k.Key()].status
        && r.value.0.actions[k.Key()] == Action(k.app, l.task, k.approval, k.sha, r.value.1)
        && (r.value.0 == db
            || (k.Key() !in db.actions && r.value.1 == Planned
                && r.value.0 == db.(actions := db.actions[k.Key() := Action(k.app, l.task, k.approval, k.sha, Planned)])
                && forall o :: o in db.actions && o.app == k.app && db.actions[o].app == k.app ==>
                  !Open(db.actions[o].status)))
  {
    hide Fenced;
  }

  lemma OtherApp(db: Db, db2: Db, app: AppId, other: AppId)
    requires SameTasks(db.queue, db2.queue) && ConfinedTo(db, db2, app)
    requires other != app && other in db.apps && PastOver(db, other) && SuccessLast(db, other)
    ensures PastOver(db2, other) && SuccessLast(db2, other)
  {
  }

  /** For a change confined to one application only that application needs a proof. */
  lemma ConfinedTables(db: Db, db2: Db, app: AppId)
    requires TablesOk(db) && SameTasks(db.queue, db2.queue) && ConfinedTo(db, db2, app)
    requires db2.apps.Keys == db.apps.Keys && app in db.apps
    requires forall a :: a in db.approvals ==> a in db2.approvals
    requires forall key :: key in db2.actions && key.app == app ==> ActionOk(db2, key)
    requires PastOver(db2, app) && SuccessLast(db2, app)
    ensures TablesOk(db2)
  {
    forall key | key in db2.actions ensures ActionOk(db2, key) {
      hide PastOver, SuccessLast, Names;
      if key.app != app {
        assert ActionOk(db, key);
        KeepAction(db, db2, key);
      }
    }
    forall a | a in db2.apps ensures PastOver(db2, a) && SuccessLast(db2, a) {
      hide ActionOk, PastOver, SuccessLast, ConfinedTo, SameTasks;
      if a != app {
        OtherApp(db, db2, app, a);
      }
    }
  }

  /** A planned action joins only while no action of the application is open. */
  lemma PlannedTables(db: Db, db2: Db, k: Case, task: Queue.TaskId)
    requires TablesOk(db) && k.app in db.apps && k.approval in db.approvals && k.Key() !in db.actions
    requires CaseTask(db.queue, task, k) && db.apps[k.app].current == task
    requires db2 == db.(actions := db.actions[k.Key() := Action(k.app, task, k.approval, k.sha, Planned)])
    requires forall o :: o in db.actions && o.app == k.app && db.actions[o].app == k.app ==> !Open(db.actions[o].status)
    ensures TablesOk(db2)
  {
    hide PastOver, SuccessLast, Names, CaseTask;
    forall key | key in db2.actions && key.app == k.app ensures ActionOk(db2, key) {
      if key != k.Key() {
        assert ActionOk(db, key);
        KeepAction(db, db2, key);
      } else {
        IsNamed(db2.queue, db2.actions[key], key, k);
      }
    }
    hide ActionOk;
    PlannedApp(db, db2, k, task);
    ConfinedTables(db, db2, k.app);
  }

  lemma PlannedApp(db: Db, db2: Db, k: Case, task: Queue.TaskId)
    requires TablesOk(db) && k.app in db.apps && k.Key() !in db.actions
    requires db.apps[k.app].current == task
    requires db2 == db.(actions := db.actions[k.Key() := Action(k.app, task, k.approval, k.sha, Planned)])
    requires forall o :: o in db.actions && o.app == k.app && db.actions[o].app == k.app ==> !Open(db.actions[o].status)
    ensures PastOver(db2, k.app) && SuccessLast(db2, k.app)
  {
    hide Names;
    assert PastOver(db, k.app) && SuccessLast(db, k.app);
    forall key | key in db.actions && key.app == k.app ensures !Open(db.actions[key].status) {
      assert ActionOk(db, key);
    }
  }

  lemma IsNamed(q: Queue.Store, a: Action, key: ActionKey, k: Case)
    requires CaseTask(q, a.task, k) && k.Key() == key && k.approval == a.approval
    ensures Names(q, a, key)
  {
  }

  lemma PlannedAuths(db: Db, db2: Db, key: ActionKey, auths: seq<Auth>)
    requires AuthsOk(db, auths) && key !in db.actions
    requires key in db2.actions && db2.actions[key].status == Planned
    requires db2 == db.(actions := db.actions[key := db2.actions[key]])
    ensures AuthsOk(db2, auths)
  {
    forall i | 0 <= i < |auths| ensures AuthOk(db2, auths[i]) {
      assert AuthOk(db, auths[i]);
    }
  }

  lemma PlannedKeeps(w: World, w2: World, tok: Queue.Token)
    requires Safe(w) && tok in w.execs && w.execs[tok].pc.Planning?
    requires Fenced(w.db.queue, w.execs[tok].lease, w.now).Success?
    requires var x := w.execs[tok]; var k := x.pc.k;
      && k.Key() !in w.db.actions
      && w2 == w.(db := w.db.(actions := w.db.actions[k.Key() := Action(k.app, x.lease.task, k.approval, k.sha,
        Planned)]))
      && forall o :: o in w.db.actions && o.app == k.app && w.db.actions[o].app == k.app ==>
        !Open(w.db.actions[o].status)
    ensures Safe(w2)
  {
    hide Good, TablesOk, CallsOk, ExecsOk, AuthsOk, Fenced;
    AtWork(w, tok);
    var x := w.execs[tok];
    PlannedTables(w.db, w2.db, x.pc.k, x.lease.task);
    PlannedAuths(w.db, w2.db, x.pc.k.Key(), w.auths);
    OthersKeep(w, w2, tok);
  }

  lemma PlanningKeeps(c: Config, w: World, tok: Queue.Token, ch: Choice)
    requires Safe(w) && tok in w.execs && w.execs[tok].pc.Planning?
    ensures Safe(StepExec(c, w, tok, ch))
  {
    hide Good, TablesOk, CallsOk, ExecsOk, AuthsOk, Fenced, Plan;
    var l, k := w.execs[tok].lease, w.execs[tok].pc.k;
    PlanShape(w.db, l, k, w.now);
    var r := Plan(w.db, l, k, w.now);
    if r.Failure? {
      StopKeeps(w, tok);
    } else {
      var w2 := w.(db := r.value.0);
      if r.value.0 != w.db {
        PlannedKeeps(w, w2, tok);
      }
      AfterPlanning(w2, tok, r.value.1);
    }
  }

  /** The ledger's status decides: done, reconcile only, or try to start. */
  lemma AfterPlanning(w: World, tok: Queue.Token, status: ActionStatus)
    requires Safe(w) && tok in w.execs && w.execs[tok].pc.Planning?
    requires HasAction(w.db, w.execs[tok].lease, w.execs[tok].pc.k)
    requires status == w.db.actions[w.execs[tok].pc.k.Key()].status
    ensures var k, review := w.execs[tok].pc.k, w.execs[tok].pc.review;
      Safe(Goto(w, tok, match status
                        case Succeeded => Stopped
                        case Executing => Reconciling(k, review)
                        case UnknownResult => Reconciling(k, review)
                        case Planned => Starting(k, review)
                        case Failed => Starting(k, review)))
  {
    hide Good, TablesOk, CallsOk;
    assert ExecOk(w, tok, w.execs[tok]);
    hide ExecsOk;
    var k, review := w.execs[tok].pc.k, w.execs[tok].pc.review;
    GotoKeeps(w, tok, match status
                      case Succeeded => Stopped
                      case Executing => Reconciling(k, review)
                      case UnknownResult => Reconciling(k, review)
                      case Planned => Starting(k, review)
                      case Failed => Starting(k, review));
  }

  /** The action of the current submission task changes status, short of success. */
  ghost predicate OwnChange(db: Db, db2: Db, k: Case) {
    && k.app in db.apps && k.Key() in db.actions && db.actions[k.Key()].task == db.apps[k.app].current
    && db.apps[k.app].current in db.queue.rows && TypeOf(db.queue, db.apps[k.app].current) == SUBMIT
    && k.Key() in db2.actions
    && db2.actions == db.actions[k.Key() := db.actions[k.Key()].(status := db2.actions[k.Key()].status)]
    && k.app in db2.apps && db2.apps == db.apps[k.app := db2.apps[k.app]]
    && SameTasks(db.queue, db2.queue)
    && (forall a :: a in db.approvals ==> a in db2.approvals)
  }

  lemma OwnActions(db: Db, db2: Db, k: Case)
    requires TablesOk(db) && OwnChange(db, db2, k)
    ensures forall key :: key in db2.actions ==> ActionOk(db2, key)
    ensures ConfinedTo(db, db2, k.app)
  {
    hide Names, CaseTask, PastOver, SuccessLast, SameTasks;
    forall key | key in db2.actions ensures ActionOk(db2, key) {
      assert ActionOk(db, key);
      KeepAction(db, db2, key);
    }
  }

  lemma UndecidedApp(db: Db, db2: Db, k: Case)
    requires TablesOk(db) && OwnChange(db, db2, k) && db2.apps[k.app].current == db.apps[k.app].current
    requires db2.actions[k.Key()].status != Succeeded
    ensures PastOver(db2, k.app) && SuccessLast(db2, k.app)
  {
    hide ActionOk;
    assert PastOver(db, k.app) && SuccessLast(db, k.app);
  }

  lemma OwnTables(db: Db, db2: Db, k: Case)
    requires TablesOk(db) && OwnChange(db, db2, k) && db2.apps[k.app].current == db.apps[k.app].current
    requires db2.actions[k.Key()].status != Succeeded
    ensures TablesOk(db2)
  {
    hide ActionOk, PastOver, SuccessLast, Names, CaseTask, SameTasks, ConfinedTo;
    OwnActions(db, db2, k);
    UndecidedApp(db, db2, k);
    ConfinedTables(db, db2, k.app);
  }

  /** A confirmed submission hands the application to the connector; every other action had failed. */
  lemma ConfirmedApp(db: Db, db2: Db, k: Case)
    requires TablesOk(db) && OwnChange(db, db2, k)
    requires db2.actions[k.Key()].status == Succeeded
    requires db2.apps[k.app].current in db2.queue.rows && TypeOf(db2.queue, db2.apps[k.app].current) == CONNECT
    ensures PastOver(db2, k.app) && SuccessLast(db2, k.app)
  {
    hide Names;
    assert PastOver(db, k.app) && SuccessLast(db, k.app);
    forall key | key in db.actions && key.app == k.app && key != k.Key() ensures db.actions[key].status == Failed {
      assert ActionOk(db, key) && ActionOk(db, k.Key());
      if db.actions[key].task == db.actions[k.Key()].task {
        OneActionPerTask(db, key, k.Key());
      }
      OthersFailed(db, k.app, key);
    }
  }

  lemma ConfirmedTables(db: Db, db2: Db, k: Case)
    requires TablesOk(db) && OwnChange(db, db2, k)
    requires db2.actions[k.Key()].status == Succeeded
    requires db2.apps[k.app].current in db2.queue.rows && TypeOf(db2.queue, db2.apps[k.app].current) == CONNECT
    ensures TablesOk(db2)
  {
    hide ActionOk, PastOver, SuccessLast, Names, CaseTask, SameTasks, ConfinedTo;
    OwnActions(db, db2, k);
    ConfirmedApp(db, db2, k);
    ConfinedTables(db, db2, k.app);
  }

  // ---------------------------------------------------------------- authorising, clicking, recording, restarting

  /** The authorising commit consumes a fresh approval for a fresh action. */
  lemma AuthorisedAuths(db: Db, k: Case, auths: seq<Auth>, tok: Queue.Token, review: Json)
    requires AuthsOk(db, auths) && Startable(db, k) && BoundReview(k, review)
    requires db.actions[k.Key()].approval == k.approval
    ensures AuthsOk(Authorised(db, k), auths + [Auth(k.Key(), k.approval, tok, review)])
  {
    hide AuthorisedBy, ConsumedBy;
    var db2, a := Authorised(db, k), Auth(k.Key(), k.approval, tok, review);
    assert AuthOk(db2, a);
    forall i | 0 <= i < |auths|
      ensures AuthOk(db2, auths[i]) && auths[i].key != a.key && auths[i].approval != a.approval
    {
      assert AuthOk(db, auths[i]);
    }
    hide AuthOk;
    AuthsExtend(auths, a);
  }

  /** The logs of authorised keys and consumed approvals each gain one member. */
  lemma AuthsExtend(auths: seq<Auth>, a: Auth)
    ensures forall key :: AuthorisedBy(auths + [a], key) <==> AuthorisedBy(auths, key) || key == a.key
    ensures forall ap :: ConsumedBy(auths + [a], ap) <==> ConsumedBy(auths, ap) || ap == a.approval
  {
    var more := auths + [a];
    assert more[|auths|] == a;
    forall key | AuthorisedBy(auths, key) ensures AuthorisedBy(more, key) {
      var i :| 0 <= i < |auths| && auths[i].key == key;
      assert more[i].key == key;
    }
    forall ap | ConsumedBy(auths, ap) ensures ConsumedBy(more, ap) {
      var i :| 0 <= i < |auths| && auths[i].approval == ap;
      assert more[i].approval == ap;
    }
  }

  lemma CallsExtend(auths: seq<Auth>, a: Auth, calls: seq<Call>)
    requires CallsOk(auths, calls)
    ensures CallsOk(auths + [a], calls)
  {
    forall i | 0 <= i < |calls| ensures CallAuthorised(auths + [a], calls[i]) {
      assert CallAuthorised(auths, calls[i]);
      var n :| 0 <= n < |auths| && auths[n].key == calls[i].key && auths[n].token == calls[i].token
               && auths[n].review == calls[i].review;
      assert (auths + [a])[n] == auths[n];
    }
  }

  /** An action that is still planned has not been called. */
  lemma PlannedNotCalled(w: World, key: ActionKey)
    requires Safe(w) && key in w.db.actions && w.db.actions[key].status == Planned
    ensures forall i :: 0 <= i < |w.calls| ==> w.calls[i].key != key
  {
    hide Good, TablesOk, ExecsOk;
    forall i | 0 <= i < |w.calls| ensures w.calls[i].key != key {
      assert CallAuthorised(w.auths, w.calls[i]);
      var n :| 0 <= n < |w.auths| && w.auths[n].key == w.calls[i].key && w.auths[n].token == w.calls[i].token
               && w.auths[n].review == w.calls[i].review;
      assert AuthOk(w.db, w.auths[n]);
    }
  }

  lemma StartKeeps(c: Config, w: World, tok: Queue.Token)
    requires Safe(w) && tok in w.execs && w.execs[tok].pc.Starting?
    requires Fenced(w.db.queue, w.execs[tok].lease, w.now).Success? && Startable(w.db, w.execs[tok].pc.k)
    ensures var k, review := w.execs[tok].pc.k, w.execs[tok].pc.review;
      Safe(Goto(w.(db := Authorised(w.db, k), auths := w.auths + [Auth(k.Key(), k.approval, tok, review)]), tok,
                Clicking(k, review)))
  {
    hide Good, TablesOk, CallsOk, ExecsOk, AuthsOk, Fenced;
    AtWork(w, tok);
    var k, review := w.execs[tok].pc.k, w.execs[tok].pc.review;
    var db2, a := Authorised(w.db, k), Auth(k.Key(), k.approval, tok, review);
    var w2 := Goto(w.(db := db2, auths := w.auths + [a]), tok, Clicking(k, review));
    PlannedNotCalled(w, k.Key());
    AuthorisedAuths(w.db, k, w.auths, tok, review);
    CallsExtend(w.auths, a, w.calls);
    OwnTables(w.db, db2, k);
    StartedExecs(w, w2, tok);
  }

  lemma StartedExecs(w: World, w2: World, tok: Queue.Token)
    requires Safe(w) && tok in w.execs && w.execs[tok].pc.Starting? && ExecOk(w, tok, w.execs[tok])
    requires Working(w.execs[tok], w.db.queue) && Startable(w.db, w.execs[tok].pc.k)
    requires forall i :: 0 <= i < |w.calls| ==> w.calls[i].key != w.execs[tok].pc.k.Key()
    requires var k, review := w.execs[tok].pc.k, w.execs[tok].pc.review;
      w2 == Goto(w.(db := Authorised(w.db, k), auths := w.auths + [Auth(k.Key(), k.approval, tok, review)]), tok,
                 Clicking(k, review))
    ensures ExecsOk(w2)
  {
    hide Good, TablesOk, CallsOk, ExecsOk, AuthsOk, RecsOk, Grows, ConfinedTo;
    assert w2.auths[|w.auths|] in w2.auths;
    assert Grows(w, w2) && ConfinedTo(w.db, w2.db, w.execs[tok].pc.k.app) by {
      hide ExecOk, BoundTo, Queue.Owns;
      StartedGrows(w, tok, w.execs[tok].pc.k, w2);
    }
    OthersKeep(w, w2, tok);
  }

  lemma StartedGrows(w: World, tok: Queue.Token, k: Case, w2: World)
    requires Startable(w.db, k) && w2.db == Authorised(w.db, k) && w.issued == w2.issued && w.auths <= w2.auths
    ensures Grows(w, w2) && ConfinedTo(w.db, w2.db, k.app)
  {
  }

  lemma StartingKeeps(c: Config, w: World, tok: Queue.Token, ch: Choice)
    requires Safe(w) && tok in w.execs && w.execs[tok].pc.Starting?
    ensures Safe(StepExec(c, w, tok, ch))
  {
    hide Good, TablesOk, CallsOk, ExecsOk, AuthsOk, Fenced, Unchanged, Authorised;
    var l, k, review := w.execs[tok].lease, w.execs[tok].pc.k, w.execs[tok].pc.review;
    var r := Start(c, w.db, l, k, review, w.now);
    if r.Failure? {
      StopKeeps(w, tok);
    } else if !r.value.1 {
      CalmKeeps(w, w.(db := r.value.0));
      StopKeeps(w.(db := r.value.0), tok);
    } else {
      StartKeeps(c, w, tok);
    }
  }

  lemma CalledOnce(w: World, k: Case, tok: Queue.Token, review: Json)
    requires CallsOk(w.auths, w.calls) && Auth(k.Key(), k.approval, tok, review) in w.auths
    requires forall i :: 0 <= i < |w.calls| ==> w.calls[i].key != k.Key()
    ensures CallsOk(w.auths, w.calls + [Call(k.Key(), tok, review)])
  {
    var more := w.calls + [Call(k.Key(), tok, review)];
    forall i | 0 <= i < |more| ensures CallAuthorised(w.auths, more[i]) {
      if i == |w.calls| {
        var n :| 0 <= n < |w.auths| && w.auths[n] == Auth(k.Key(), k.approval, tok, review);
      } else {
        assert CallAuthorised(w.auths, w.calls[i]);
      }
    }
  }

  /** Each authorisation names one executor, so nobody else is about to click the same action. */
  lemma OnlyClicker(w: World, tok: Queue.Token, other: Queue.Token)
    requires Safe(w) && tok in w.execs && other in w.execs && tok != other
    requires w.execs[tok].pc.Clicking? && w.execs[other].pc.Clicking?
    ensures w.execs[tok].pc.k.Key() != w.execs[other].pc.k.Key()
  {
    hide Good, TablesOk, CallsOk, BoundTo;
    assert ExecOk(w, tok, w.execs[tok]) && ExecOk(w, other, w.execs[other]);
    var p, q := w.execs[tok].pc, w.execs[other].pc;
    var i :| 0 <= i < |w.auths| && w.auths[i] == Auth(p.k.Key(), p.k.approval, tok, p.review);
    var j :| 0 <= j < |w.auths| && w.auths[j] == Auth(q.k.Key(), q.k.approval, other, q.review);
    assert i != j;
    assert w.auths[if i < j then i else j].key != w.auths[if i < j then j else i].key;
  }

  lemma ClickingKeeps(c: Config, w: World, tok: Queue.Token, ch: Choice)
    requires Safe(w) && tok in w.execs && w.execs[tok].pc.Clicking?
    ensures Safe(StepExec(c, w, tok, ch))
  {
    hide Good, TablesOk, AuthsOk, CallsOk;
    assert ExecOk(w, tok, w.execs[tok]);
    var k, review := w.execs[tok].pc.k, w.execs[tok].pc.review;
    CalledOnce(w, k, tok, review);
    var w2 := StepExec(c, w, tok, ch);
    IsAuthorised(w.auths, Auth(k.Key(), k.approval, tok, review));
    assert ExecOk(w2, tok, w2.execs[tok]);
    hide ExecOk, StepExec;
    forall t | t in w2.execs && t != tok ensures ExecOk(w2, t, w2.execs[t]) {
      assert ExecOk(w, t, w.execs[t]);
      if w.execs[t].pc.Clicking? {
        OnlyClicker(w, tok, t);
      }
      CarryPast(w, w2, t, k.Key());
    }
  }

  /** A click of another action leaves an executor alone. */
  lemma CarryPast(w: World, w2: World, t: Queue.Token, key: ActionKey)
    requires t in w.execs && ExecOk(w, t, w.execs[t])
    requires w2 == w.(calls := w2.calls, execs := w2.execs)
    requires |w2.calls| == |w.calls| + 1 && w.calls <= w2.calls && w2.calls[|w.calls|].key == key
    requires w.execs[t].pc.Clicking? ==> w.execs[t].pc.k.Key() != key
    ensures ExecOk(w2, t, w.execs[t])
  {
    hide ExecOk;
    Carry(w, w2, t, w.execs[t]);
  }

  lemma IsAuthorised(auths: seq<Auth>, a: Auth)
    requires a in auths
    ensures AuthorisedBy(auths, a.key)
  {
  }

  /** What recording an outcome does to the tables. */
  lemma RecordShape(db: Db, issued: seq<Queue.Lease>, l: Queue.Lease, key: ActionKey, outcome: Outcome,
                    connect: Queue.TaskId, monitor: Queue.TaskId, now: int)
    requires Good(db.queue, issued)
    ensures var r := Record(db, l, key, outcome, connect, monitor, now);
      r.Success? ==>
        && Fenced(db.queue, l, now).Success? && key in db.actions && key.app in db.apps
        && key.app in r.value.apps
        && r.value == db.(queue := r.value.queue, actions := r.value.actions, apps := r.value.apps)
        && r.value.actions == db.actions[key := db.actions[key].(status :=
             match outcome case Confirmed => Succeeded case Unknown => UnknownResult case NotSubmitted => Failed)]
        && r.value.apps == db.apps[key.app := r.value.apps[key.app]]
        && Extends(db.queue, r.value.queue, issued)
        && (outcome != Confirmed ==>
          r.value.queue == db.queue && r.value.apps[key.app].current == db.apps[key.app].current)
        && (outcome == Confirmed ==>
              var t := r.value.apps[key.app].current;
              t in r.value.queue.rows && TypeOf(r.value.queue, t) == CONNECT)
  {
    hide Good, Fenced, Spawn;
    if Fenced(db.queue, l, now).Success? && key in db.actions && key.app in db.apps && outcome == Confirmed {
      var app := db.apps[key.app];
      SpawnExtends(db.queue, issued, ConnectorTask(key.app, app, l.task), connect, now);
      var first := Spawn(db.queue, ConnectorTask(key.app, app, l.task), connect, now);
      if first.Success? {
        SpawnExtends(first.value.0, issued, MonitorTask(key.app, app, l.task), monitor, now);
      }
    }
  }

  lemma RecordedAuths(db: Db, db2: Db, key: ActionKey, auths: seq<Auth>)
    requires AuthsOk(db, auths) && AuthorisedBy(auths, key) && key in db.actions && key in db2.actions
    requires db2.approvals == db.approvals && db2.actions[key].status != Planned
    requires db2.actions == db.actions[key := db.actions[key].(status := db2.actions[key].status)]
    ensures AuthsOk(db2, auths)
  {
    forall i | 0 <= i < |auths| ensures AuthOk(db2, auths[i]) {
      assert AuthOk(db, auths[i]);
    }
  }

  lemma RecordedRecs(db: Db, db2: Db, recs: seq<Rec>, key: ActionKey, outcome: Outcome)
    requires RecsOk(db, recs) && key in db.actions
    requires db2.actions == db.actions[key := db.actions[key].(status :=
      match outcome case Confirmed => Succeeded case Unknown => UnknownResult case NotSubmitted => Failed)]
    ensures RecsOk(db2, recs + [Rec(key, outcome)])
  {
    var more := recs + [Rec(key, outcome)];
    assert more[|recs|] == Rec(key, outcome);
    forall o | o in db2.actions
      ensures db2.actions[o].status == Failed ==> Rec(o, NotSubmitted) in more
      ensures db2.actions[o].status == Succeeded ==> Rec(o, Confirmed) in more
    {
      if o != key {
        assert o in db.actions && forall r :: r in recs ==> r in more;
      }
    }
  }

  lemma RecordingKeeps(c: Config, w: World, tok: Queue.Token, ch: Choice)
    requires Safe(w) && tok in w.execs && w.execs[tok].pc.Recording?
    ensures Safe(StepExec(c, w, tok, ch))
  {
    hide Good, TablesOk, AuthsOk, CallsOk, ExecsOk, Fenced, Record, RecsOk;
    var l, k, outcome := w.execs[tok].lease, w.execs[tok].pc.k, w.execs[tok].pc.outcome;
    RecordShape(w.db, w.issued, l, k.Key(), outcome, ch.first, ch.second, w.now);
    var r := Record(w.db, l, k.Key(), outcome, ch.first, ch.second, w.now);
    if r.Failure? {
      StopKeeps(w, tok);
    } else {
      AtWork(w, tok);
      var w2 := StepExec(c, w, tok, ch);
      if outcome == Confirmed {
        ConfirmedTables(w.db, w2.db, k);
      } else {
        OwnTables(w.db, w2.db, k);
      }
      RecordedAuths(w.db, w2.db, k.Key(), w.auths);
      RecordedRecs(w.db, w2.db, w.recs, k.Key(), outcome);
      RecordedExecs(w, w2, tok);
    }
  }

  lemma RecordedExecs(w: World, w2: World, tok: Queue.Token)
    requires Safe(w) && tok in w.execs && w.execs[tok].pc.Recording? && ExecOk(w, tok, w.execs[tok])
    requires Working(w.execs[tok], w.db.queue)
    requires var k := w.execs[tok].pc.k;
      && k.Key() in w.db.actions && k.app in w.db.apps && k.Key() in w2.db.actions && k.app in w2.db.apps
      && w2.db == w.db.(queue := w2.db.queue, actions := w2.db.actions, apps := w2.db.apps)
      && w2.db.actions == w.db.actions[k.Key() := w.db.actions[k.Key()].(status := w2.db.actions[k.Key()].status)]
      && w2.db.apps == w.db.apps[k.app := w2.db.apps[k.app]]
      && Extends(w.db.queue, w2.db.queue, w.issued)
      && w2 == w.(db := w2.db, recs := w2.recs, execs := w2.execs)
      && tok in w2.execs && w2.execs == w.execs[tok := w2.execs[tok]]
      && w2.execs[tok].lease == w.execs[tok].lease
      && (w2.execs[tok].pc.Stopped?
          || (w2.execs[tok].pc == Scheduling(k) && w2.db.actions[k.Key()].status == Failed
              && w2.db.apps[k.app].current == w.db.apps[k.app].current))
    ensures ExecsOk(w2)
  {
    hide Good, TablesOk, CallsOk, ExecsOk, AuthsOk, RecsOk, Grows, ConfinedTo;
    assert Grows(w, w2) && ConfinedTo(w.db, w2.db, w.execs[tok].pc.k.app) by {
      hide ExecOk, BoundTo, Queue.Owns, SameTasks;
      RecordedGrows(w, w2, tok, w.execs[tok].pc.k);
    }
    OthersKeep(w, w2, tok);
  }

  lemma RecordedGrows(w: World, w2: World, tok: Queue.Token, k: Case)
    requires k.Key() in w.db.actions && k.app in w.db.apps && k.Key() in w2.db.actions && k.app in w2.db.apps
    requires w.db.actions[k.Key()].status != Failed || w2.db.actions[k.Key()].status == Failed
    requires w2.db == w.db.(queue := w2.db.queue, actions := w2.db.actions, apps := w2.db.apps)
    requires w2.db.actions == w.db.actions[k.Key() := w.db.actions[k.Key()].(status := w2.db.actions[k.Key()].status)]
    requires w2.db.apps == w.db.apps[k.app := w2.db.apps[k.app]]
    requires SameTasks(w.db.queue, w2.db.queue) && NoNewOwner(w.db.queue, w2.db.queue, w.issued)
    requires w2.issued == w.issued && w2.auths == w.auths
    ensures Grows(w, w2) && ConfinedTo(w.db, w2.db, k.app)
  {
  }

  lemma SchedulingKeeps(c: Config, w: World, tok: Queue.Token, ch: Choice)
    requires Safe(w) && tok in w.execs && w.execs[tok].pc.Scheduling?
    ensures Safe(StepExec(c, w, tok, ch))
  {
    hide Good, TablesOk, AuthsOk, CallsOk, ExecsOk, Fenced, Spawn;
    var l, k := w.execs[tok].lease, w.execs[tok].pc.k;
    StopKeeps(w, tok);
    var r := ScheduleNewReview(w.db, l, k.app, ch.token, ch.first, w.now);
    if r.Success? {
      AtWork(w, tok);
      SpawnExtends(w.db.queue, w.issued,
                   FollowUp(CREATE_REVIEW, [Str("create_review"), Id(k.app), Id(ch.token)], k.app, w.db.apps[k.app],
                     l.task,
                            map["application_id" := Id(k.app)]), ch.first, w.now);
      OwnFailed(w, tok);
      NobodyElse(w, tok, r.value.queue);
      HandoverKeeps(Goto(w, tok, Stopped), StepExec(c, w, tok, ch), k.app);
    }
  }

  /** After a NOT_SUBMITTED record every action of the application has failed. */
  lemma OwnFailed(w: World, tok: Queue.Token)
    requires Safe(w) && tok in w.execs && w.execs[tok].pc.Scheduling?
    requires Fenced(w.db.queue, w.execs[tok].lease, w.now).Success?
    ensures forall key :: key in w.db.actions && key.app == w.execs[tok].pc.k.app ==> w.db.actions[key].status == Failed
  {
    hide Good, AuthsOk, CallsOk, Fenced, Names;
    AtWork(w, tok);
    var k := w.execs[tok].pc.k;
    forall key | key in w.db.actions && key.app == k.app ensures w.db.actions[key].status == Failed {
      OthersFailed(w.db, k.app, key);
      assert ActionOk(w.db, key) && ActionOk(w.db, k.Key());
      if w.db.actions[key].task == w.execs[tok].lease.task {
        OneActionPerTask(w.db, key, k.Key());
      }
    }
  }

  lemma NobodyElse(w: World, tok: Queue.Token, q2: Queue.Store)
    requires Safe(w) && tok in w.execs && Working(w.execs[tok], w.db.queue)
    requires NoNewOwner(w.db.queue, q2, w.issued)
    ensures Unused(Goto(w, tok, Stopped), q2, w.execs[tok].pc.k.app)
  {
    hide Safe;
    var w1 := Goto(w, tok, Stopped);
    forall t | t in w1.execs && Working(w1.execs[t], q2) ensures w1.execs[t].pc.k.app != w.execs[tok].pc.k.app {
      Elsewhere(w, tok, q2, t);
    }
  }

  // ---------------------------------------------------------------- all events

  lemma StepExecKeeps(c: Config, w: World, tok: Queue.Token, ch: Choice)
    requires Safe(w) && tok in w.execs
    ensures Safe(StepExec(c, w, tok, ch))
  {
    hide Safe, StepExec;
    match w.execs[tok].pc {
      case Fetching(_) => ReadingKeeps(c, w, tok, ch);
      case Comparing(_, _) => ReadingKeeps(c, w, tok, ch);
      case Reconciling(_, _) => ReadingKeeps(c, w, tok, ch);
      case Revoking(_) => RevokingKeeps(c, w, tok, ch);
      case Planning(_, _) => PlanningKeeps(c, w, tok, ch);
      case Starting(_, _) => StartingKeeps(c, w, tok, ch);
      case Clicking(_, _) => ClickingKeeps(c, w, tok, ch);
      case Recording(_, _) => RecordingKeeps(c, w, tok, ch);
      case Scheduling(_) => SchedulingKeeps(c, w, tok, ch);
      case Stopped => StoppedStays(c, w, tok, ch);
    }
  }

  lemma StoppedStays(c: Config, w: World, tok: Queue.Token, ch: Choice)
    requires tok in w.execs && w.execs[tok].pc.Stopped?
    ensures StepExec(c, w, tok, ch) == w
  {
  }

  lemma ClockKeeps(w: World, now: int)
    requires Safe(w)
    ensures Safe(w.(now := now))
  {
    hide Good, TablesOk, AuthsOk, CallsOk, ExecsOk;
    CalmKeeps(w, w.(now := now));
  }

  lemma HappenKeeps(c: Config, w0: World, at: At)
    requires Safe(w0) && FormsOk(w0) && May(w0, at)
    ensures Safe(Happen(c, w0, at))
  {
    hide Safe, StepExec, Calm;
    ClockKeeps(w0, at.now);
    var w := w0.(now := at.now);
    match at.event {
      case QueueStep(op) => QueueStepKeeps(c, w0, op, at.now);
      case NewApplication(app, job, url, drawn) => NewApplicationKeeps(c, w, app, job, url, drawn);
      case FormStart(l) => FormStartKeeps(w, l);
      case FormDone(tok, m, drawn) =>
        if tok in w.forms {
          FormDoneKeeps(c, w, tok, m, drawn);
        }
      case PrepareReview(l, ids) => PrepareKeeps(c, w, l, ids);
      case Decide(a, user, approve) => DecideKeeps(w, a, user, approve);
      case EditInputs(app, inputs) => EditKeeps(w, Happen(c, w0, at));
      case WriteFile(path, bytes) => EditKeeps(w, Happen(c, w0, at));
      case SetStatus(app, status, stage) => EditKeeps(w, Happen(c, w0, at));
      case Begin(l) => BeginKeeps(c, w, l);
      case Proceed(tok, ch) => if tok in w.execs { StepExecKeeps(c, w, tok, ch); }
      case RecoverActions => RecoverActionsKeeps(w);
    }
  }

  /** Noting a form worker changes no table. */
  lemma FormStartKeeps(w: World, l: Queue.Lease)
    requires Safe(w)
    ensures Safe(StartForm(w, l))
  {
    hide Good, TablesOk, AuthsOk, CallsOk;
    var w2 := StartForm(w, l);
    forall tok | tok in w2.execs ensures ExecOk(w2, tok, w2.execs[tok]) {
      assert ExecOk(w, tok, w.execs[tok]);
    }
  }

  /** Inputs, files and statuses may change in any way. */
  lemma EditKeeps(w: World, w2: World)
    requires Safe(w)
    requires w2 == w.(db := w.db.(inputs := w2.db.inputs, files := w2.db.files, apps := w2.db.apps))
    requires w2.db.apps.Keys == w.db.apps.Keys
    requires forall a :: a in w.db.apps ==> w2.db.apps[a].current == w.db.apps[a].current
    ensures Safe(w2)
  {
    hide Good, TablesOk, AuthsOk, CallsOk, ExecsOk;
    CalmKeeps(w, w2);
  }
}
