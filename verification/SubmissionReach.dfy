/**
 One whole run of the pipeline, from the empty database to a click, made just after the approval
 expired.  It shows that the invariants are about runs in which clicks do happen.
 */
module SubmissionReach {
  import opened Wrappers
  import opened Json
  import opened Submission
  import opened SubmissionRuns
  import opened SubmissionLaws
  import opened SubmissionDeadlines
  import opened QueueRuns
  import QueueLaws
  import Queue

  ghost predicate Ends(c: Config, r: SubmissionRuns.Run, w: World) {
    IsRun(c, r) && r.worlds[|r.events|] == w
  }

  ghost predicate Reached(c: Config, w: World) {
    exists r :: Ends(c, r, w)
  }

  lemma DawnReached(c: Config)
    ensures Reached(c, DAWN)
  {
    assert Ends(c, SubmissionRuns.Run([DAWN], []), DAWN);
  }

  /** One more event of a run. */
  lemma Longer(c: Config, r: SubmissionRuns.Run, w: World, at: At) returns (r2: SubmissionRuns.Run)
    requires Ends(c, r, w) && May(w, at)
    ensures r2 == SubmissionRuns.Run(r.worlds + [Happen(c, w, at)], r.events + [at]) && Ends(c, r2, Happen(c, w, at))
  {
    hide May, Happen;
    r2 := SubmissionRuns.Run(r.worlds + [Happen(c, w, at)], r.events + [at]);
    forall i | 0 <= i < |r2.events| ensures EventAt(c, r2, i) {
      if i < |r.events| {
        assert EventAt(c, r, i);
      }
    }
  }

  lemma Reach(c: Config, w: World, at: At)
    requires Reached(c, w) && May(w, at)
    ensures Reached(c, Happen(c, w, at))
  {
    hide May, Happen, Ends;
    var r :| Ends(c, r, w);
    var r2 := Longer(c, r, w, at);
  }

  // ---------------------------------------------------------------- the queue in this run

  /** A claim as an event of the run. */
  lemma ClaimEvent(c: Config, w: World, types: set<string>, token: Queue.Token, now: int, id: Queue.TaskId)
    requires id in w.db.queue.rows && Queue.Eligible(w.db.queue.rows[id], types, Queue.Stamp(now))
    requires !Queue.Exhausted(w.db.queue.rows[id]) && Queue.Claimed(c.queue, w.db.queue.rows[id], token, now).Success?
    requires forall o :: o in w.db.queue.rows && Queue.Eligible(w.db.queue.rows[o], types, Queue.Stamp(now)) ==> o == id
    requires types != {} && now >= w.now && forall l :: l in w.issued ==> l.worker != token
    ensures var row := Queue.Claimed(c.queue, w.db.queue.rows[id], token, now).value;
      var w2 := Happen(c, w, At(now, QueueStep(OpClaim(types, token))));
      && w2 == w.(now := now, db := w.db.(queue := w2.db.queue),
                  issued := w.issued
                    + [Queue.Lease(id, token, row.attempts, row.identity.taskType, row.identity.payload)])
      && w2.db.queue.rows == w.db.queue.rows[id := row.(version := row.version + 1)]
      && w2.db.queue.keys == w.db.queue.keys
    ensures May(w, At(now, QueueStep(OpClaim(types, token))))
  {
    QueueLaws.ClaimsOnly(c.queue, w.db.queue, types, token, now, id);
    hide Queue.Claim, Queue.Claimed, Queue.Eligible, Queue.Exhausted;
  }

  /** A task that waits for a worker of its type. */
  predicate Waits(row: Queue.Task, identity: Queue.Identity) {
    && row.identity == identity && row.status == Queue.Ready && row.attempts == 0 && row.maxAttempts == 3
    && row.nextRunAt.None? && row.leaseExpiresAt.None? && row.memory.None?
  }

  /** A task held by `l` until `until`. */
  predicate HeldBy(row: Queue.Task, l: Queue.Lease, until: int) {
    && row.status == Queue.Active && row.worker == Some(l.worker) && row.attempts == l.attempt
    && row.leaseExpiresAt == Some(until) && row.identity.taskType == l.taskType && row.identity.payload == l.payload
  }

  // ---------------------------------------------------------------- what the run is made of

  const FORM_TASK: Queue.Identity := Queue.Identity(FORM, None, Some(0), Some(0), None, map[])
  const REVIEW_TASK: Queue.Identity :=
    Queue.Identity(CREATE_REVIEW, Some([Str("create_review"), Id(0)]), Some(0), Some(0), Some(0),
      map["application_id" := Id(0)])
  const REVIEW: Json := Obj(map["application_id" := Id(0), "created_at" := Time(0)])
  const PATH: Json := Path([0, 0])
  const SHA: Json := Hash(Canonical(REVIEW))
  const CASE: Case := Case(0, 0, PATH, SHA)
  const DRAWN: Drawn := Drawn(0, 2, 0, "i")
  const SUBMIT_TASK: Queue.Identity :=
    Queue.Identity(SUBMIT, Some([Str("submit_task"), Id(0), SHA]), Some(0), Some(0), Some(1),
                   map["application_id" := Id(0), "approval_id" := Id(0), "review_path" := PATH,
                     "review_sha256" := SHA])
  const ASKED: Memory := ApprovalInterrupt(0, SHA, DRAWN)
  const ANSWERED: Memory := ASKED[RESUME := Reply("i", Null)]

  /** A live configuration that can store what the run stores; its times are those of any real one. */
  ghost predicate Usual(c: Config, user: User) {
    && c.live && user in c.authorized && c.ttlMicros >= 2_000 && c.queue.leaseMicros >= 4_000
    && c.readable(Canonical(REVIEW))
    && c.queue.fits(map[]) && c.queue.fits(ASKED) && c.queue.fits(map["review_path" := PATH, "review_sha256" := SHA])
    && c.queue.fits(ANSWERED[CONTINUATION := Bool(true)]) && c.queue.fits(ANSWERED)
  }

  /** A minute to decide, ten minutes of lease, any memory and file small enough: such a configuration is usual. */
  lemma UsualConfiguration(user: User)
    ensures exists c: Config :: Usual(c, user)
  {
    var c := Config(Queue.Config(600_000_000, m => true), true, {user}, b => true, 60_000_000);
    assert Usual(c, user);
  }

  /** Nothing of the ledger exists yet. */
  ghost predicate Fresh(w: World) {
    w.db.actions == map[] && w.execs == map[] && w.auths == [] && w.calls == []
  }

  // ---------------------------------------------------------------- the form stage

  lemma FormWaiting(c: Config) returns (w: World)
    ensures Reached(c, w) && Fresh(w) && w.now == 0 && w.issued == [] && w.forms == map[]
    ensures w.db.queue.rows.Keys == {0} && w.db.queue.keys == map[] && Waits(w.db.queue.rows[0], FORM_TASK)
    ensures w.db.apps == map[0 := App(OtherStatus("FORM_READY"), OtherStage("FORM"), 0, 0, "", None)]
    ensures w.db.approvals == map[] && w.db.files == map[]
  {
    DawnReached(c);
    var at := At(0, NewApplication(0, 0, "", 0));
    Reach(c, DAWN, at);
    w := Happen(c, DAWN, at);
  }

  lemma FormClaimed(c: Config) returns (w: World, l: Queue.Lease)
    requires c.queue.leaseMicros >= 4_000
    ensures Reached(c, w) && Fresh(w) && w.now == 0 && w.issued == [l] && w.forms == map[]
    ensures l == Queue.Lease(0, 100, 1, FORM, map[])
    ensures w.db.queue.rows.Keys == {0} && w.db.queue.keys == map[]
    ensures HeldBy(w.db.queue.rows[0], l, Queue.Stamp(c.queue.leaseMicros)) && w.db.queue.rows[0].identity == FORM_TASK
    ensures w.db.apps == map[0 := App(OtherStatus("FORM_READY"), OtherStage("FORM"), 0, 0, "", None)]
    ensures w.db.approvals == map[] && w.db.files == map[]
  {
    var w0 := FormWaiting(c);
    var at := At(0, QueueStep(OpClaim({FORM}, 100)));
    hide Reached;
    QueueLaws.ClaimsOnly(c.queue, w0.db.queue, {FORM}, 100, 0, 0);
    Reach(c, w0, at);
    w := Happen(c, w0, at);
    l := Queue.Lease(0, 100, 1, FORM, map[]);
  }

  lemma FormChecked(c: Config) returns (w: World, l: Queue.Lease)
    requires c.queue.leaseMicros >= 4_000
    ensures Reached(c, w) && Fresh(w) && w.now == 0 && w.issued == [l] && w.forms == map[100 := Form(l, 0)]
    ensures l == Queue.Lease(0, 100, 1, FORM, map[])
    ensures w.db.queue.rows.Keys == {0} && w.db.queue.keys == map[]
    ensures HeldBy(w.db.queue.rows[0], l, Queue.Stamp(c.queue.leaseMicros)) && w.db.queue.rows[0].identity == FORM_TASK
    ensures w.db.apps == map[0 := App(OtherStatus("FORM_READY"), OtherStage("FORM"), 0, 0, "", None)]
    ensures w.db.approvals == map[] && w.db.files == map[]
  {
    var w0;
    w0, l := FormClaimed(c);
    hide Reached;
    Reach(c, w0, At(0, FormStart(l)));
    w := Happen(c, w0, At(0, FormStart(l)));
  }

  lemma FormFinished(c: Config, user: User) returns (w: World, l: Queue.Lease)
    requires Usual(c, user)
    ensures Reached(c, w) && Fresh(w) && w.now == 0 && w.issued == [l] && l == Queue.Lease(0, 100, 1, FORM, map[])
    ensures w.db.queue.rows.Keys == {0, 1} && w.db.queue.keys == map[[Str("create_review"), Id(0)] := 1]
    ensures w.db.queue.rows[0].status == Queue.Succeeded && Waits(w.db.queue.rows[1], REVIEW_TASK)
    ensures w.db.apps == map[0 := App(ReadyToReview, StageReview, 1, 0, "", None)]
    ensures w.db.approvals == map[] && w.db.files == map[]
  {
    var w0;
    w0, l := FormChecked(c);
    var at := At(0, FormDone(100, map[], 1));
    hide Reached;
    Reach(c, w0, at);
    w := Happen(c, w0, at);
    FormResult(c, w0.db, l);
  }

  lemma FormResult(c: Config, db: Db, l: Queue.Lease)
    requires l == Queue.Lease(0, 100, 1, FORM, map[]) && c.queue.leaseMicros >= 4_000 && c.queue.fits(map[])
    requires db.queue.rows.Keys == {0} && db.queue.keys == map[]
    requires HeldBy(db.queue.rows[0], l, Queue.Stamp(c.queue.leaseMicros)) && db.queue.rows[0].identity == FORM_TASK
    requires db.apps == map[0 := App(OtherStatus("FORM_READY"), OtherStage("FORM"), 0, 0, "", None)]
    ensures var r := FinishForm(c, db, l, 0, map[], 1, 0);
      && r.Success? && r.value == db.(queue := r.value.queue, apps := r.value.apps)
      && r.value.queue.rows.Keys == {0, 1} && r.value.queue.keys == map[[Str("create_review"), Id(0)] := 1]
      && r.value.queue.rows[0].status == Queue.Succeeded && Waits(r.value.queue.rows[1], REVIEW_TASK)
      && r.value.apps == map[0 := App(ReadyToReview, StageReview, 1, 0, "", None)]
  {
    var data := ReviewTask(0, db.apps[0], 0);
    assert data.identity == REVIEW_TASK;
    var q := Spawn(db.queue, data, 1, 0).value.0;
    assert q.rows[1] == Queue.FreshRow(data, Queue.Ready, 0);
  }

  // ---------------------------------------------------------------- the review stage

  lemma ReviewClaimed(c: Config, user: User) returns (w: World, l: Queue.Lease)
    requires Usual(c, user)
    ensures Reached(c, w) && Fresh(w) && w.now == 0 && |w.issued| == 2 && w.issued[1] == l
    ensures w.issued[0].worker == 100 && l == Queue.Lease(1, 101, 1, CREATE_REVIEW, map["application_id" := Id(0)])
    ensures w.db.queue.rows.Keys == {0, 1} && w.db.queue.keys.Keys == {[Str("create_review"), Id(0)]}
    ensures w.db.queue.rows[0].status == Queue.Succeeded
    ensures HeldBy(w.db.queue.rows[1], l, Queue.Stamp(c.queue.leaseMicros))
      && w.db.queue.rows[1].identity == REVIEW_TASK
    ensures w.db.apps == map[0 := App(ReadyToReview, StageReview, 1, 0, "", None)]
    ensures w.db.approvals == map[] && w.db.files == map[]
  {
    var w0, l0 := FormFinished(c, user);
    var at := At(0, QueueStep(OpClaim({CREATE_REVIEW}, 101)));
    hide Reached;
    QueueLaws.ClaimsOnly(c.queue, w0.db.queue, {CREATE_REVIEW}, 101, 0, 1);
    Reach(c, w0, at);
    w := Happen(c, w0, at);
    l := Queue.Lease(1, 101, 1, CREATE_REVIEW, map["application_id" := Id(0)]);
  }

  /** The answers are there; the review can be computed. */
  lemma InputsGiven(c: Config, user: User) returns (w: World, l: Queue.Lease)
    requires Usual(c, user)
    ensures Reached(c, w) && Fresh(w) && w.now == 0 && |w.issued| == 2 && w.issued[1] == l
    ensures w.issued[0].worker == 100 && l == Queue.Lease(1, 101, 1, CREATE_REVIEW, map["application_id" := Id(0)])
    ensures w.db.queue.rows.Keys == {0, 1} && w.db.queue.keys.Keys == {[Str("create_review"), Id(0)]}
    ensures w.db.queue.rows[0].status == Queue.Succeeded
    ensures HeldBy(w.db.queue.rows[1], l, Queue.Stamp(c.queue.leaseMicros))
      && w.db.queue.rows[1].identity == REVIEW_TASK
    ensures w.db.apps == map[0 := App(ReadyToReview, StageReview, 1, 0, "", None)]
    ensures w.db.approvals == map[] && w.db.files == map[] && Payload(w.db, 0, Time(0)) == Some(REVIEW)
  {
    var w0;
    w0, l := ReviewClaimed(c, user);
    var empty: Memory := map[];
    var at := At(0, EditInputs(0, Some(empty)));
    hide Reached;
    Reach(c, w0, at);
    w := Happen(c, w0, at);
    assert empty["application_id" := Id(0)]["created_at" := Time(0)] == REVIEW.fields;
    assert w.db.inputs[0] == Some(empty);
  }

  /** The approval that the run waits for. */
  function Ask(c: Config, status: ApprovalStatus, decider: Option<User>): Approval {
    Approval(0, 2, PATH, SHA, status, Some(Queue.Stamp(c.ttlMicros)), decider)
  }

  lemma ReviewPrepared(c: Config, user: User) returns (w: World)
    requires Usual(c, user)
    ensures Reached(c, w) && Fresh(w) && w.now == 0 && |w.issued| == 2
    ensures w.issued[0].worker == 100 && w.issued[1].worker == 101
    ensures w.db.queue.rows.Keys == {0, 1, 2}
    ensures w.db.queue.rows[0].status == Queue.Succeeded && w.db.queue.rows[1].status == Queue.Succeeded
    ensures w.db.queue.rows[2].identity == SUBMIT_TASK && w.db.queue.rows[2].status == Queue.WaitingHuman
    ensures w.db.queue.rows[2].memory == Some(ASKED) && w.db.queue.rows[2].attempts == 0
      && w.db.queue.rows[2].maxAttempts == 3
    ensures w.db.queue.rows[2].nextRunAt.None? && w.db.queue.rows[2].leaseExpiresAt.None?
    ensures w.db.apps == map[0 := App(ReadyToReview, StageReview, 2, 0, "", None)]
    ensures w.db.approvals == map[0 := Ask(c, Pending, None)]
    ensures w.db.files == map[PATH := Canonical(REVIEW)] && Payload(w.db, 0, Time(0)) == Some(REVIEW)
  {
    var w0, l := InputsGiven(c, user);
    var at := At(0, PrepareReview(l, DRAWN));
    hide Reached, Enlist, Prepare;
    Enlisted(c, w0.db.(files := w0.db.files[PATH := Canonical(REVIEW)]), l);
    PrepareIs(c, w0.db, l);
    hide Payload, Queue.EnqueueWaiting, Queue.CompleteInTransaction;
    Reach(c, w0, at);
    w := Happen(c, w0, at);
    assert w == w0.(db := Prepare(c, w0.db, l, DRAWN, 0).0) by { PrepareEvent(c, w0, l); }
    hide Happen, May;
    SamePayload(w0.db, w.db);
  }

  lemma PrepareEvent(c: Config, w: World, l: Queue.Lease)
    requires w.now == 0
    ensures Happen(c, w, At(0, PrepareReview(l, DRAWN))) == w.(db := Prepare(c, w.db, l, DRAWN, 0).0)
  {
    hide Prepare;
  }

  lemma PrepareIs(c: Config, db: Db, l: Queue.Lease)
    requires l == Queue.Lease(1, 101, 1, CREATE_REVIEW, map["application_id" := Id(0)]) && c.queue.leaseMicros >= 4_000
    requires 1 in db.queue.rows && HeldBy(db.queue.rows[1], l, Queue.Stamp(c.queue.leaseMicros))
    requires db.queue.rows[1].identity == REVIEW_TASK && PATH !in db.files && Payload(db, 0, Time(0)) == Some(REVIEW)
    requires db.apps == map[0 := App(ReadyToReview, StageReview, 1, 0, "", None)]
    ensures var r := Enlist(c, db.(files := db.files[PATH := Canonical(REVIEW)]), l, 0, PATH, SHA, DRAWN, 0);
      r.Success? ==> Prepare(c, db, l, DRAWN, 0) == (r.value, Success(()))
  {
    hide Enlist, Payload;
  }

  lemma Enlisted(c: Config, db: Db, l: Queue.Lease)
    requires l == Queue.Lease(1, 101, 1, CREATE_REVIEW, map["application_id" := Id(0)])
    requires c.queue.fits(ASKED) && c.queue.fits(map["review_path" := PATH, "review_sha256" := SHA])
    requires db.queue.rows.Keys == {0, 1} && db.queue.keys.Keys == {[Str("create_review"), Id(0)]}
    requires HeldBy(db.queue.rows[1], l, Queue.Stamp(c.queue.leaseMicros))
    requires db.apps == map[0 := App(ReadyToReview, StageReview, 1, 0, "", None)] && db.approvals == map[]
    ensures var r := Enlist(c, db, l, 0, PATH, SHA, DRAWN, 0);
      && r.Success? && r.value == db.(queue := r.value.queue, approvals := r.value.approvals, apps := r.value.apps)
      && r.value.queue.rows.Keys == {0, 1, 2} && r.value.queue.rows[0] == db.queue.rows[0]
      && r.value.queue.rows[1].status == Queue.Succeeded && r.value.queue.rows[2].identity == SUBMIT_TASK
      && r.value.queue.rows[2].status == Queue.WaitingHuman && r.value.queue.rows[2].memory == Some(ASKED)
      && r.value.queue.rows[2].attempts == 0 && r.value.queue.rows[2].maxAttempts == 3
      && r.value.queue.rows[2].nextRunAt.None? && r.value.queue.rows[2].leaseExpiresAt.None?
      && r.value.apps == map[0 := App(ReadyToReview, StageReview, 2, 0, "", None)]
      && r.value.approvals == map[0 := Ask(c, Pending, None)]
  {
    hide Queue.EnqueueWaiting, Queue.CompleteInTransaction, SubmissionTask, ApprovalInterrupt, Enlist;
    var data := SubmissionTask(0, db.apps[0], 1, PATH, SHA, DRAWN);
    TaskAsked(db.apps[0]);
    OtherKey();
    SubmissionQueued(c, db.queue, data);
    var q := Queue.EnqueueWaiting(c.queue, db.queue, data, ASKED, 2, 0).value.0;
    ReviewDone(c, q, l);
    EnlistIs(c, db, l, PATH, SHA, q);
  }

  lemma TaskAsked(row: App)
    requires row == App(ReadyToReview, StageReview, 1, 0, "", None)
    ensures SubmissionTask(0, row, 1, PATH, SHA, DRAWN) == Queue.TaskCreate(SUBMIT_TASK, 100, 3, Some(2))
    ensures ApprovalInterrupt(0, SHA, DRAWN) == ASKED
  {
    assert SubmissionTask(0, row, 1, PATH, SHA, DRAWN).identity == SUBMIT_TASK;
  }

  lemma EnlistIs(c: Config, db: Db, l: Queue.Lease, path: Json, sha: Json, q: Queue.Store)
    requires 0 in db.apps && 0 !in db.approvals
    requires Queue.EnqueueWaiting(c.queue, db.queue, SubmissionTask(0, db.apps[0], l.task, path, sha, DRAWN),
                                  ApprovalInterrupt(0, sha, DRAWN), 2, 0) == Success((q, 2))
    ensures var d := Queue.CompleteInTransaction(c.queue, q, l, map["review_path" := path, "review_sha256" := sha],
                                                 false, 0);
      d.Success? ==> Enlist(c, db, l, 0, path, sha, DRAWN, 0) == Success(
        db.(queue := d.value, apps := db.apps[0 := db.apps[0].(current := 2)],
            approvals := db.approvals[0 := Approval(0, 2, path, sha, Pending, Some(Queue.Stamp(c.ttlMicros)), None)]))
  {
    hide Queue.EnqueueWaiting, Queue.CompleteInTransaction, SubmissionTask, ApprovalInterrupt;
  }

  /** The review task ends in the same transaction. */
  lemma ReviewDone(c: Config, q: Queue.Store, l: Queue.Lease)
    requires 1 in q.rows && HeldBy(q.rows[1], l, Queue.Stamp(c.queue.leaseMicros)) && l.task == 1
    requires c.queue.fits(map["review_path" := PATH, "review_sha256" := SHA])
    ensures var r := Queue.CompleteInTransaction(c.queue, q, l, map["review_path" := PATH, "review_sha256" := SHA],
                                                 false, 0);
      && r.Success? && r.value.rows.Keys == q.rows.Keys && r.value.rows[1].status == Queue.Succeeded
      && forall o :: o in q.rows && o != 1 ==> r.value.rows[o] == q.rows[o]
  {
  }

  lemma OtherKey()
    ensures [Str("submit_task"), Id(0), SHA] != [Str("create_review"), Id(0)]
  {
    assert |[Str("submit_task"), Id(0), SHA]| != |[Str("create_review"), Id(0)]|;
  }

  lemma SubmissionQueued(c: Config, q: Queue.Store, data: Queue.TaskCreate)
    requires q.rows.Keys == {0, 1} && c.queue.fits(ASKED) && [Str("submit_task"), Id(0), SHA] !in q.keys
    requires data == Queue.TaskCreate(SUBMIT_TASK, 100, 3, Some(2))
    ensures var r := Queue.EnqueueWaiting(c.queue, q, data, ASKED, 2, 0);
      && r.Success? && r.value.1 == 2 && r.value.0.rows.Keys == {0, 1, 2}
      && r.value.0.rows[0] == q.rows[0] && r.value.0.rows[1] == q.rows[1]
      && r.value.0.rows[2].identity == SUBMIT_TASK && r.value.0.rows[2].status == Queue.WaitingHuman
      && r.value.0.rows[2].memory == Some(ASKED) && r.value.0.rows[2].attempts == 0
      && r.value.0.rows[2].maxAttempts == 3 && r.value.0.rows[2].nextRunAt.None?
      && r.value.0.rows[2].leaseExpiresAt.None?
  {
  }

  // ---------------------------------------------------------------- the decision

  lemma ReviewApproved(c: Config, user: User) returns (w: World)
    requires Usual(c, user)
    ensures Reached(c, w) && Fresh(w) && w.now == 0 && |w.issued| == 2
    ensures w.issued[0].worker == 100 && w.issued[1].worker == 101
    ensures w.db.queue.rows.Keys == {0, 1, 2}
    ensures w.db.queue.rows[0].status == Queue.Succeeded && w.db.queue.rows[1].status == Queue.Succeeded
    ensures w.db.queue.rows[2].identity == SUBMIT_TASK && w.db.queue.rows[2].status == Queue.WaitingHuman
    ensures w.db.queue.rows[2].memory == Some(ASKED) && w.db.queue.rows[2].attempts == 0
      && w.db.queue.rows[2].maxAttempts == 3
    ensures w.db.queue.rows[2].nextRunAt.None? && w.db.queue.rows[2].leaseExpiresAt.None?
    ensures w.db.apps == map[0 := App(ReadyToReview, StageReview, 2, 0, "", None)]
    ensures w.db.approvals == map[0 := Ask(c, Approved, Some(user))]
    ensures w.db.files == map[PATH := Canonical(REVIEW)] && Payload(w.db, 0, Time(0)) == Some(REVIEW)
  {
    var w0 := ReviewPrepared(c, user);
    var at := At(0, Decide(0, user, true));
    hide Reached;
    Reach(c, w0, at);
    w := Happen(c, w0, at);
  }

  lemma TaskResumed(c: Config, user: User) returns (w: World)
    requires Usual(c, user)
    ensures Reached(c, w) && Fresh(w) && w.now == 0 && |w.issued| == 2
    ensures w.issued[0].worker == 100 && w.issued[1].worker == 101
    ensures w.db.queue.rows.Keys == {0, 1, 2}
    ensures w.db.queue.rows[0].status == Queue.Succeeded && w.db.queue.rows[1].status == Queue.Succeeded
    ensures w.db.queue.rows[2].identity == SUBMIT_TASK && w.db.queue.rows[2].status == Queue.Ready
    ensures w.db.queue.rows[2].memory == Some(ANSWERED[CONTINUATION := Bool(true)]) && w.db.queue.rows[2].attempts == 0
    ensures w.db.queue.rows[2].nextRunAt.None? && w.db.queue.rows[2].leaseExpiresAt.None?
    ensures w.db.apps == map[0 := App(ReadyToReview, StageReview, 2, 0, "", None)]
    ensures w.db.approvals == map[0 := Ask(c, Approved, Some(user))]
    ensures w.db.files == map[PATH := Canonical(REVIEW)] && Payload(w.db, 0, Time(0)) == Some(REVIEW)
  {
    var w0 := ReviewApproved(c, user);
    var at := At(0, QueueStep(OpResume(2, "i", Null)));
    hide Reached;
    Reach(c, w0, at);
    assert "i" in PendingInterrupts(ASKED) && RESUME !in ASKED;
    w := Happen(c, w0, at);
  }

  /** Two milliseconds before the deadline a submission worker claims the task. */
  lemma SubmissionClaimed(c: Config, user: User) returns (w: World, l: Queue.Lease)
    requires Usual(c, user)
    ensures Reached(c, w) && Fresh(w) && w.now == c.ttlMicros - 2_000 && l in w.issued
    ensures l == Queue.Lease(2, 102, 0, SUBMIT, SUBMIT_TASK.payload)
    ensures 2 in w.db.queue.rows && w.db.queue.rows[2].identity == SUBMIT_TASK
    ensures HeldBy(w.db.queue.rows[2], l, Queue.Stamp(c.ttlMicros - 2_000 + c.queue.leaseMicros))
    ensures w.db.apps == map[0 := App(ReadyToReview, StageReview, 2, 0, "", None)]
    ensures w.db.approvals == map[0 := Ask(c, Approved, Some(user))]
    ensures w.db.files == map[PATH := Canonical(REVIEW)] && Payload(w.db, 0, Time(0)) == Some(REVIEW)
  {
    var w0 := TaskResumed(c, user);
    var now := c.ttlMicros - 2_000;
    var at := At(now, QueueStep(OpClaim({SUBMIT}, 102)));
    hide Reached;
    l := Queue.Lease(2, 102, 0, SUBMIT, SUBMIT_TASK.payload);
    SubmissionEligible(w0.db.queue, Queue.Stamp(now));
    ClaimedHere(c.queue, w0.db.queue.rows[2], l, now);
    hide Queue.Claimed, Queue.Eligible, Queue.Exhausted, Happen, May;
    ClaimEvent(c, w0, {SUBMIT}, 102, now, 2);
    Reach(c, w0, at);
    w := Happen(c, w0, at);
    SamePayload(w0.db, w.db);
    hide Payload;
  }

  lemma SamePayload(db: Db, db2: Db)
    requires db2.inputs == db.inputs && db2.apps.Keys == db.apps.Keys
    ensures Payload(db2, 0, Time(0)) == Payload(db, 0, Time(0))
  {
  }

  /** The resumed submission is what a submission worker can claim, and nothing else is. */
  lemma SubmissionEligible(q: Queue.Store, stamp: int)
    requires q.rows.Keys == {0, 1, 2} && q.rows[0].status == Queue.Succeeded && q.rows[1].status == Queue.Succeeded
    requires q.rows[2].identity == SUBMIT_TASK && q.rows[2].status == Queue.Ready
    requires q.rows[2].nextRunAt.None? && q.rows[2].leaseExpiresAt.None?
    requires q.rows[2].memory == Some(ANSWERED[CONTINUATION := Bool(true)])
    ensures Queue.Eligible(q.rows[2], {SUBMIT}, stamp) && !Queue.Exhausted(q.rows[2])
    ensures forall o :: o in q.rows && Queue.Eligible(q.rows[o], {SUBMIT}, stamp) ==> o == 2
  {
  }

  lemma ClaimedHere(c: Queue.Config, row: Queue.Task, l: Queue.Lease, now: int)
    requires row.identity == SUBMIT_TASK && row.attempts == 0
    requires row.memory == Some(ANSWERED[CONTINUATION := Bool(true)])
    requires c.fits(ANSWERED)
    requires l == Queue.Lease(2, 102, 0, SUBMIT, SUBMIT_TASK.payload)
    ensures var r := Queue.Claimed(c, row, 102, now);
      r.Success? && HeldBy(r.value, l, Queue.Stamp(now + c.leaseMicros)) && r.value.identity == SUBMIT_TASK
  {
    var m := ANSWERED[CONTINUATION := Bool(true)];
    assert m - {CONTINUATION} == ANSWERED by {
      assert CONTINUATION !in ANSWERED;
    }
  }

  // ---------------------------------------------------------------- the click

  /** The claimed submission is ready to click, and its lease outlives the approval. */
  lemma ReadyReached(c: Config, user: User) returns (w: World, l: Queue.Lease)
    requires Usual(c, user)
    ensures Reached(c, w) && ReadyToClick(c, w, l, CASE, REVIEW) && LeaseOutlivesApproval(w.db, w.db.queue, l, CASE)
    ensures Fresh(w) && l in w.issued
  {
    w, l := SubmissionClaimed(c, user);
    hide Reached;
    assert CaseOf(l.payload) == Success(CASE);
    assert Unchanged(c, w.db, CASE, REVIEW);
  }

  /** Four events of the executor lead to the delayed authorisation. */
  lemma DelayedRun(c: Config, w: World, l: Queue.Lease, k: Case, review: Json, ch: Choice, later: int)
      returns (r: SubmissionRuns.Run, w3: World)
    requires Reached(c, w) && ReadyToClick(c, w, l, k, review) && l in w.issued && l.worker !in w.execs
      && later >= w.now
    ensures Ends(c, r, w3) && w3.now == w.now && w3.db.approvals == w.db.approvals && w3.auths == w.auths
      && w3.calls == w.calls
    ensures l.worker in w3.execs && w3 == Proceeded(c, BeginExec(c, w, l), l.worker, ch, 3) && w3.db.queue == w.db.queue
  {
    UndisturbedPlans(c, w, l, k, review, ch);
    hide ReadyToClick, Reached, Ends, StepExec, BeginExec, Proceeded, Unchanged;
    var tok := l.worker;
    var w0 := BeginExec(c, w, l);
    Reach(c, w, At(w.now, Begin(l)));
    SameClock(w);
    assert Happen(c, w, At(w.now, Begin(l))) == w0;
    ProceedOne(c, w0, tok, ch, 0);
    hide Happen, May;
    StepReached(c, w0, tok, ch, 0);
    StepReached(c, w0, tok, ch, 1);
    StepReached(c, w0, tok, ch, 2);
    w3 := Proceeded(c, w0, tok, ch, 3);
    assert Reached(c, w3);
    r := SomeRun(c, w3);
  }

  /** One step of an executor that nobody disturbs is one event of the run. */
  lemma StepReached(c: Config, w: World, tok: Queue.Token, ch: Choice, n: nat)
    requires tok in w.execs && Reached(c, Proceeded(c, w, tok, ch, n)) && Proceeded(c, w, tok, ch, n).now == w.now
    ensures Reached(c, Proceeded(c, w, tok, ch, n + 1)) && Proceeded(c, w, tok, ch, n + 1).now == w.now
  {
    hide Reached, StepExec, Proceeded;
    var wn := Proceeded(c, w, tok, ch, n);
    SameClock(wn);
    Reach(c, wn, At(w.now, Proceed(tok, ch)));
    ProceedOne(c, w, tok, ch, n);
    ClockStays(c, wn, tok, ch);
  }

  lemma SomeRun(c: Config, w: World) returns (r: SubmissionRuns.Run)
    requires Reached(c, w)
    ensures Ends(c, r, w)
  {
    r :| Ends(c, r, w);
  }

  lemma SameClock(w: World)
    ensures w.(now := w.now) == w
  {
  }

  lemma ClockStays(c: Config, w: World, tok: Queue.Token, ch: Choice)
    requires tok in w.execs
    ensures StepExec(c, w, tok, ch).now == w.now
  {
    hide Fenced, Spawn, Plan, Start, Record, Revoke, ReadReview, Payload;
  }

  lemma DelayedClock(c: Config, w: World, l: Queue.Lease, ch: Choice, later: int)
    ensures Delayed(c, w, l, ch, w.db.queue, later).now == later
  {
    hide StepExec, Waiting;
    ClockStays(c, Waiting(c, w, l, ch, w.db.queue).(now := later), l.worker, ch);
  }

  lemma DelayedEvent(c: Config, w: World, w3: World, l: Queue.Lease, ch: Choice, later: int)
    requires l.worker in w3.execs && w3 == Proceeded(c, BeginExec(c, w, l), l.worker, ch, 3) && later >= w3.now
    requires w3.db.queue == w.db.queue
    ensures Happen(c, w3, At(later, Proceed(l.worker, ch))) == Delayed(c, w, l, ch, w.db.queue, later)
    ensures May(w3, At(later, Proceed(l.worker, ch)))
  {
    hide StepExec, Proceeded, BeginExec;
    assert Waiting(c, w, l, ch, w.db.queue) == w3;
  }

  lemma ClickStep(c: Config, w: World, tok: Queue.Token, k: Case, review: Json, ch: Choice, at: At)
    requires tok in w.execs && w.execs[tok].pc == Clicking(k, review) && at == At(w.now, Proceed(tok, ch))
    ensures May(w, at) && Happen(c, w, at).calls == w.calls + [Call(k.Key(), tok, review)]
  {
  }

  /** The last two events of the run authorise a click of an approval that has expired, and make it. */
  ghost predicate ExpiredClick(c: Config, r: SubmissionRuns.Run, n: nat, a: Auth) {
    && IsRun(c, r) && n + 2 == |r.events|
    && r.worlds[n + 1].auths == r.worlds[n].auths + [a]
    && a.approval in r.worlds[n].db.approvals
    && PastDeadline(r.worlds[n].db.approvals[a.approval], r.events[n].now)
    && r.worlds[n + 2].calls == [Call(a.key, a.token, a.review)]
  }

  /**
   The click after the deadline happens: a run from the empty database authorises a click of an approval
   that has expired, and then makes it.
   */
  lemma ExpiredClickExample(c: Config, user: User)
    requires Usual(c, user)
    ensures exists r: SubmissionRuns.Run, n: nat, a: Auth :: ExpiredClick(c, r, n, a)
  {
    var w, l := ReadyReached(c, user);
    var ch := Choice(Confirmed, 0, 3, 4);
    ReadyInTime(c, w, l, CASE, REVIEW);
    AuthorisesLateIff(c, w, l, CASE, REVIEW, ch, w.db.queue, w.now);
    hide ReadyToClick, LeaseOutlivesApproval, Delayed, Reached;
    var later :| AuthorisesLate(c, w, l, CASE, REVIEW, ch, w.db.queue, w.now, later);
    var r, w3 := DelayedRun(c, w, l, CASE, REVIEW, ch, later);
    LateAuthorisationIff(c, w, l, CASE, REVIEW, ch, w.db.queue, later);
    var at := At(later, Proceed(l.worker, ch));
    var w4 := Delayed(c, w, l, ch, w.db.queue, later);
    DelayedEvent(c, w, w3, l, ch, later);
    assert w4.now == later by {
      DelayedClock(c, w, l, ch, later);
    }
    ClickStep(c, w4, l.worker, CASE, REVIEW, ch, at);
    TwoMore(c, r, w3, w4, at, Auth(CASE.Key(), CASE.approval, l.worker, REVIEW));
  }

  lemma TwoMore(c: Config, r: SubmissionRuns.Run, w: World, w2: World, at: At, a: Auth)
    requires Ends(c, r, w) && May(w, at) && Happen(c, w, at) == w2 && May(w2, at)
    requires w2.auths == w.auths + [a] && a.approval in w.db.approvals
    requires PastDeadline(w.db.approvals[a.approval], at.now)
    requires Happen(c, w2, at).calls == [Call(a.key, a.token, a.review)]
    ensures exists r: SubmissionRuns.Run, n: nat, a: Auth :: ExpiredClick(c, r, n, a)
  {
    hide Happen, May;
    var r4 := Longer(c, r, w, at);
    var r5 := Longer(c, r4, w2, at);
    var n := |r.events|;
    assert r5.worlds[n] == w && r5.worlds[n + 1] == w2 && r5.events[n] == at;
    assert ExpiredClick(c, r5, n, a);
  }

  /** And there is a usual configuration in which it does. */
  lemma SomeExpiredClick(user: User)
    ensures exists c: Config, r: SubmissionRuns.Run, n: nat, a: Auth :: Usual(c, user) && ExpiredClick(c, r, n, a)
  {
    hide Usual, ExpiredClick;
    UsualConfiguration(user);
    var c: Config :| Usual(c, user);
    ExpiredClickExample(c, user);
  }
}
