/**
 The submission and review services as they run: the tables are fields, each method is one fenced
 transaction that updates rows in place, and its contract ties the committed tables to the function of
 module Submission, or to no change where the Python method raises and rolls back.
 */
module SubmissionService {
  import opened Wrappers
  import opened Json
  import opened Submission
  import opened SubmissionRuns
  import SubmissionSteps
  import SubmissionForms
  import SubmissionLaws
  import Queue

  /** What the environment picks does not matter for most steps. */
  const ANY := Choice(Unknown, 0, 0, 0)

  /** The executor of this lease is at this point of `execute`. */
  predicate Standing(w: World, l: Queue.Lease, pc: Pc) {
    l.worker in w.execs && w.execs[l.worker].lease == l && w.execs[l.worker].pc == pc
  }

  lemma BeginDb(c: Config, w: World, l: Queue.Lease, now: int)
    ensures Happen(c, w, At(now, Begin(l))).db == Validated(c, w.db, l, now).0
  {
    hide Validated;
  }

  lemma RevokingDb(c: Config, w: World, l: Queue.Lease, k: Case, now: int)
    ensures Standing(w, l, Revoking(k)) ==>
      var r := Revoke(w.db, l, k, now);
      Happen(c, w, At(now, Proceed(l.worker, ANY))).db == if r.Success? then r.value else w.db
  {
    hide Revoke;
  }

  lemma PlanningDb(c: Config, w: World, l: Queue.Lease, k: Case, review: Json, now: int)
    ensures Standing(w, l, Planning(k, review)) ==>
      var r := Plan(w.db, l, k, now);
      Happen(c, w, At(now, Proceed(l.worker, ANY))).db == if r.Success? then r.value.0 else w.db
  {
    hide Plan;
  }

  lemma StartingDb(c: Config, w: World, l: Queue.Lease, k: Case, review: Json, now: int)
    ensures Standing(w, l, Starting(k, review)) ==>
      var r := Start(c, w.db, l, k, review, now);
      Happen(c, w, At(now, Proceed(l.worker, ANY))).db == if r.Success? then r.value.0 else w.db
  {
    hide Start;
  }

  lemma RecordingDb(c: Config, w: World, l: Queue.Lease, k: Case, outcome: Outcome, connect: Queue.TaskId,
                    monitor: Queue.TaskId, now: int)
    ensures Standing(w, l, Recording(k, outcome)) ==>
      var r := Record(w.db, l, k.Key(), outcome, connect, monitor, now);
      Happen(c, w, At(now, Proceed(l.worker, Choice(Unknown, 0, connect, monitor)))).db
        == if r.Success? then r.value else w.db
  {
    hide Record;
  }

  lemma SchedulingDb(c: Config, w: World, l: Queue.Lease, k: Case, token: nat, drawn: Queue.TaskId, now: int)
    ensures Standing(w, l, Scheduling(k)) ==>
      var r := ScheduleNewReview(w.db, l, k.app, token, drawn, now);
      Happen(c, w, At(now, Proceed(l.worker, Choice(Unknown, token, drawn, 0)))).db
        == if r.Success? then r.value else w.db
  {
    hide ScheduleNewReview;
  }

  lemma RecoverDb(c: Config, w: World)
    ensures Happen(c, w, At(w.now, Event.RecoverActions)).db == Recover(w.db) && May(w, At(w.now, Event.RecoverActions))
  {
    hide Recover;
  }

  lemma PrepareDb(c: Config, w: World, l: Queue.Lease, ids: Drawn, now: int)
    ensures Happen(c, w, At(now, SubmissionRuns.PrepareReview(l, ids))).db == Prepare(c, w.db, l, ids, now).0
  {
    hide Prepare;
  }

  class SubmissionService {
    const config: Config
    var queue: Queue.Store
    var apps: map<AppId, App>
    var approvals: map<ApprovalId, Approval>
    var actions: map<ActionKey, Action>
    var inputs: map<AppId, Option<Memory>>
    var files: map<Json, Bytes>
    ghost var world: World    // the run that this object is part of, with its executors and logs

    ghost function State(): Db
      reads this
    {
      Db(queue, apps, approvals, actions, inputs, files)
    }

    /** The tables are those of a run, and the run keeps the invariant of the pipeline. */
    ghost predicate Valid()
      reads this
    {
      Safe(world) && FormsOk(world) && world.db == State()
    }

    /** What the environment promises about an event of this object's run. */
    ghost predicate Legal(e: Event, now: int)
      reads this
    {
      May(world, At(now, e))
    }

    /** The executor of this lease is where it may take its next step. */
    ghost predicate MayProceed(l: Queue.Lease, ch: Choice, pc: Pc, now: int)
      reads this
    {
      Valid() && Legal(Proceed(l.worker, ch), now) && Standing(world, l, pc)
    }

    constructor (config: Config, db: Db, ghost start: World)
      ensures this.config == config && State() == db && world == start
      ensures start.db == db && Safe(start) && FormsOk(start) ==> Valid()
    {
      this.config := config;
      queue, apps, approvals := db.queue, db.apps, db.approvals;
      actions, inputs, files := db.actions, db.inputs, db.files;
      world := start;
    }

    /** A legal event keeps the invariant; the methods below say which event each of them is. */
    ghost method Follow(e: Event, now: int)
      modifies this`world
      ensures world == Happen(config, old(world), At(now, e))
      ensures old(Safe(world) && FormsOk(world) && May(world, At(now, e))) ==> Safe(world) && FormsOk(world)
    {
      hide Safe, FormsOk, Happen, May;
      if Safe(world) && FormsOk(world) && May(world, At(now, e)) {
        SubmissionSteps.HappenKeeps(config, world, At(now, e));
        SubmissionForms.FormsKeep(config, world, At(now, e));
      }
      world := Happen(config, world, At(now, e));
    }

    /** Of this object too: no application has two open actions. */
    lemma OneOpen(a: ActionKey, b: ActionKey)
      requires Valid() && a in actions && b in actions && a.app == b.app
      requires Submission.Open(actions[a].status) && Submission.Open(actions[b].status)
      ensures a == b
    {
      hide FormsOk, AuthsOk, CallsOk, ExecsOk, RecsOk, TablesOk;
      SubmissionLaws.OpenIsUnique(world.db, a, b);
    }

    /** Of this object too: authorisations, actions that left PLANNED and consumed approvals are one to one. */
    lemma OneToOne()
      requires Valid()
      ensures forall i, j :: 0 <= i < j < |world.auths| ==>
        world.auths[i].key != world.auths[j].key && world.auths[i].approval != world.auths[j].approval
      ensures forall key :: key in actions ==> (actions[key].status != Planned <==> AuthorisedBy(world.auths, key))
      ensures forall p :: p in approvals ==> (approvals[p].status == Consumed <==> ConsumedBy(world.auths, p))
    {
      hide TablesOk, CallsOk, ExecsOk, RecsOk, FormsOk;
      assert forall i :: 0 <= i < |world.auths| ==> AuthOk(world.db, world.auths[i]);
    }

    /** The fenced half of `_validated`: only an expiry is written, and it is committed before the raise. */
    method Validate(l: Queue.Lease, now: int) returns (r: Result<Case, Error>)
      modifies this`approvals, this`world
      ensures (State(), r) == Validated(config, old(State()), l, now)
      ensures r.Success? ==> State() == old(State()) && Correlated(State(), l, r.value)
      ensures old(Valid() && Legal(Begin(l), now)) ==> Valid()
      ensures world == Happen(config, old(world), At(now, Begin(l)))
    {
      hide Safe, FormsOk, May, Happen;
      BeginDb(config, world, l, now);
      Follow(Begin(l), now);
      if !config.live {
        return Failure(Blocked("submission_requires_live_mode"));
      }
      var correlation := CaseOf(l.payload);
      if correlation.Failure? {
        return Failure(correlation.error);
      }
      var k := correlation.value;
      var task := Fenced(queue, l, now);
      if task.Failure? {
        return Failure(task.error);
      }
      if !(l.task in queue.rows && task.value.identity.taskType == SUBMIT
        && task.value.identity.application == Some(k.app)
           && k.app in apps && apps[k.app].current == l.task && k.approval in approvals
           && approvals[k.approval].app == k.app && approvals[k.approval].task == l.task
           && approvals[k.approval].path == k.path && approvals[k.approval].sha == k.sha) {
        return Failure(Blocked("submission_correlation_invalid"));
      }
      var approval := approvals[k.approval];
      var expired := false;
      if approval.status == Approved {
        if approval.decidedBy.None? || approval.decidedBy.value !in config.authorized {
          return Failure(Blocked("submission_approver_not_authorized"));
        }
        expired := PastDeadline(approval, now);
      } else if approval.status != Consumed {
        return Failure(Blocked("submission_approval_" + Name(approval.status)));
      }
      if apps[k.app].status.OtherStatus? {
        return Failure(Blocked("submission_application_state_invalid"));
      }
      if expired {
        approvals := approvals[k.approval := approval.(status := Expired)];
        return Failure(Blocked("submission_approval_expired"));
      }
      return Success(k);
    }

    method RevokeApproval(l: Queue.Lease, k: Case, now: int) returns (ok: bool)
      modifies this`approvals, this`apps, this`world
      ensures var spec := Revoke(old(State()), l, k, now);
        if ok then spec == Success(State()) else spec.Failure? && State() == old(State())
      ensures old(MayProceed(l, ANY, Revoking(k), now)) ==> Valid()
      ensures world == Happen(config, old(world), At(now, Proceed(l.worker, ANY)))
    {
      hide Safe, FormsOk, May, Happen, Fenced;
      RevokingDb(config, world, l, k, now);
      Follow(Proceed(l.worker, ANY), now);
      if Fenced(queue, l, now).Failure? {
        return false;
      }
      if k.approval in approvals && approvals[k.approval].status in {Pending, Approved} {
        approvals := approvals[k.approval := approvals[k.approval].(status := Revoked)];
      }
      if k.app in apps && apps[k.app].status != Submitted {
        apps := apps[k.app := apps[k.app].(stage := StageReview, status := ReadyToReview)];
      }
      return true;
    }

    /** `_action`. */
    method FindOrPlan(l: Queue.Lease, k: Case, now: int, ghost review: Json) returns (r: Result<ActionStatus, Error>)
      modifies this`actions, this`world
      ensures var spec := Plan(old(State()), l, k, now);
        if r.Success? then spec == Success((State(), r.value)) else spec == Failure(r.error) && State() == old(State())
      ensures old(MayProceed(l, ANY, Planning(k, review), now)) ==> Valid()
      ensures world == Happen(config, old(world), At(now, Proceed(l.worker, ANY)))
    {
      hide Safe, FormsOk, May, Happen, Fenced;
      PlanningDb(config, world, l, k, review, now);
      Follow(Proceed(l.worker, ANY), now);
      var fence := Fenced(queue, l, now);
      if fence.Failure? {
        return Failure(fence.error);
      }
      if k.Key() in actions {
        var a := actions[k.Key()];
        if a.app != k.app || a.task != l.task || a.approval != k.approval || a.sha != k.sha {
          return Failure(Blocked("submission_idempotency_conflict"));
        }
        return Success(a.status);
      }
      if exists o :: o in actions && actions[o].app == k.app && Open(actions[o].status) {
        return Failure(Blocked("submission_action_already_exists"));
      }
      actions := actions[k.Key() := Action(k.app, l.task, k.approval, k.sha, Planned)];
      return Success(Planned);
    }

    /** `_start`: success carries whether the click is authorised; a changed review revokes instead. */
    method Authorise(l: Queue.Lease, k: Case, review: Json, now: int) returns (r: Result<bool, Error>)
      modifies this`approvals, this`apps, this`actions, this`world
      ensures var spec := Start(config, old(State()), l, k, review, now);
        if r.Success? then spec == Success((State(), r.value)) else spec == Failure(r.error) && State() == old(State())
      ensures r == Success(true) ==> Unchanged(config, old(State()), k, review)
      ensures old(MayProceed(l, ANY, Starting(k, review), now)) ==> Valid()
      ensures world == Happen(config, old(world), At(now, Proceed(l.worker, ANY)))
    {
      hide Safe, FormsOk, May, Happen, Start, Standing;
      StartingDb(config, world, l, k, review, now);
      Follow(Proceed(l.worker, ANY), now);
      r := AuthoriseRows(l, k, review, now);
    }

    /** The rows of the authorising transaction. */
    method AuthoriseRows(l: Queue.Lease, k: Case, review: Json, now: int) returns (r: Result<bool, Error>)
      modifies this`approvals, this`apps, this`actions
      ensures var spec := Start(config, old(State()), l, k, review, now);
        if r.Success? then spec == Success((State(), r.value)) else spec == Failure(r.error) && State() == old(State())
      ensures r == Success(true) ==> Unchanged(config, old(State()), k, review)
    {
      hide Fenced, ReadReview, Payload;
      var fence := Fenced(queue, l, now);
      if fence.Failure? {
        return Failure(fence.error);
      }
      if k.Key() !in actions || actions[k.Key()].status != Planned
         || k.approval !in approvals || approvals[k.approval].status != Approved
         || k.app !in apps || apps[k.app].status != ReadyToReview {
        return Failure(Blocked("submission_start_state_invalid"));
      }
      var approval := approvals[k.approval];
      var changed := true;
      if CreatedAt(review).Some? {
        var db := Db(queue, apps, approvals, actions, inputs, files);
        var file := ReadReview(config, db, k.path, k.sha);
        var data := Payload(db, k.app, CreatedAt(review).value);
        changed := file.None? || data.None? || file.value != review || data.value != review;
      }
      ghost var before := State();
      assert !changed <==> Unchanged(config, before, k, review);
      if changed {
        approvals := approvals[k.approval := approval.(status := Revoked)];
      } else {
        approvals := approvals[k.approval := approval.(status := Consumed)];
        apps := apps[k.app := apps[k.app].(stage := StageSubmission, status := SubmissionApproved)];
        apps := apps[k.app := apps[k.app].(status := Submitting)];
        actions := actions[k.Key() := actions[k.Key()].(status := Executing)];
        assert apps == before.apps[k.app := before.apps[k.app].(stage := StageSubmission, status := Submitting)];
        assert State() == Authorised(before, k);
      }
      return Success(!changed);
    }

    /** `_record`: the outcome, the application's status, and the follow-up tasks of a success, at once. */
    method RecordOutcome(l: Queue.Lease, key: ActionKey, outcome: Outcome, connect: Queue.TaskId, monitor: Queue.TaskId,
                         now: int, ghost k: Case)
      returns (r: Result<(), Error>)
      modifies this`queue, this`apps, this`actions, this`world
      ensures var spec := Record(old(State()), l, key, outcome, connect, monitor, now);
        if r.Success? then spec == Success(State()) else spec == Failure(r.error) && State() == old(State())
      ensures k.Key() == key && old(MayProceed(l, Choice(Unknown, 0, connect, monitor), Recording(k, outcome), now)) ==>
        Valid()
      ensures world == Happen(config, old(world), At(now, Proceed(l.worker, Choice(Unknown, 0, connect, monitor))))
    {
      hide Safe, FormsOk, May, Happen, Record, Standing;
      RecordingDb(config, world, l, k, outcome, connect, monitor, now);
      Follow(Proceed(l.worker, Choice(Unknown, 0, connect, monitor)), now);
      r := RecordRows(l, key, outcome, connect, monitor, now);
    }

    /** The rows of `_record`. */
    method RecordRows(l: Queue.Lease, key: ActionKey, outcome: Outcome, connect: Queue.TaskId, monitor: Queue.TaskId,
                         now: int)
      returns (r: Result<(), Error>)
      modifies this`queue, this`apps, this`actions
      ensures var spec := Record(old(State()), l, key, outcome, connect, monitor, now);
        if r.Success? then spec == Success(State()) else spec == Failure(r.error) && State() == old(State())
    {
      var fence := Fenced(queue, l, now);
      if fence.Failure? {
        return Failure(fence.error);
      }
      if key !in actions || key.app !in apps {
        return Failure(Blocked("assertion"));
      }
      var action, app := actions[key], apps[key.app];
      match outcome {
        case Confirmed =>
          var first := Spawn(queue, ConnectorTask(key.app, app, l.task), connect, now);
          if first.Failure? {
            return Failure(first.error);
          }
          var second := Spawn(first.value.0, MonitorTask(key.app, app, l.task), monitor, now);
          if second.Failure? {
            return Failure(second.error);
          }
          queue := second.value.0;
          action := action.(status := Succeeded);
          app := app.(stage := StagePostSubmission, status := Submitted, current := first.value.1);
          if app.submittedAt.None? {
            app := app.(submittedAt := Some(Queue.Stamp(now)));
          }
        case Unknown =>
          action := action.(status := UnknownResult);
          app := app.(stage := StageSubmission, status := SubmissionUnknown);
        case NotSubmitted =>
          action := action.(status := Failed);
          app := app.(stage := StageReview, status := ReadyToReview);
      }
      actions, apps := actions[key := action], apps[key.app := app];
      return Success(());
    }

    method ScheduleReview(l: Queue.Lease, app: AppId, token: nat, drawn: Queue.TaskId, now: int, ghost k: Case)
        returns (r: Result<(), Error>)
      modifies this`queue, this`apps, this`world
      ensures var spec := ScheduleNewReview(old(State()), l, app, token, drawn, now);
        if r.Success? then spec == Success(State()) else spec == Failure(r.error) && State() == old(State())
      ensures k.app == app && old(MayProceed(l, Choice(Unknown, token, drawn, 0), Scheduling(k), now)) ==> Valid()
      ensures world == Happen(config, old(world), At(now, Proceed(l.worker, Choice(Unknown, token, drawn, 0))))
    {
      hide Safe, FormsOk, May, Happen, Spawn, Fenced, FollowUp;
      SchedulingDb(config, world, l, k, token, drawn, now);
      Follow(Proceed(l.worker, Choice(Unknown, token, drawn, 0)), now);
      var fence := Fenced(queue, l, now);
      if fence.Failure? {
        return Failure(fence.error);
      }
      if app !in apps || apps[app].status != ReadyToReview {
        return Failure(Blocked("review_restart_state_invalid"));
      }
      var data := FollowUp(CREATE_REVIEW, [Str("create_review"), Id(app), Id(token)], app, apps[app], l.task,
                           map["application_id" := Id(app)]);
      var made := Spawn(queue, data, drawn, now);
      if made.Failure? {
        return Failure(made.error);
      }
      queue, apps := made.value.0, apps[app := apps[app].(current := made.value.1)];
      return Success(());
    }

    /** `prepare`: the file is written first and stays behind if the rest of the transaction rolls back. */
    method PrepareReview(l: Queue.Lease, ids: Drawn, now: int) returns (r: Result<(), Error>)
      modifies this`queue, this`apps, this`approvals, this`files, this`world
      ensures (State(), r) == Prepare(config, old(State()), l, ids, now)
      ensures r.Failure? ==> State() == old(State()).(files := files)
      ensures old(Valid() && Legal(SubmissionRuns.PrepareReview(l, ids), now)) ==> Valid()
      ensures world == Happen(config, old(world), At(now, SubmissionRuns.PrepareReview(l, ids)))
    {
      hide Safe, FormsOk, May, Happen, Prepare;
      PrepareDb(config, world, l, ids, now);
      Follow(SubmissionRuns.PrepareReview(l, ids), now);
      r := PrepareRows(l, ids, now);
    }

    /** The rows and the file of `prepare`. */
    method PrepareRows(l: Queue.Lease, ids: Drawn, now: int) returns (r: Result<(), Error>)
      modifies this`queue, this`apps, this`approvals, this`files
      ensures (State(), r) == Prepare(config, old(State()), l, ids, now)
      ensures r.Failure? ==> State() == old(State()).(files := files)
    {
      hide Queue.EnqueueWaiting, Queue.CompleteInTransaction, SubmissionTask, ApprovalInterrupt, Fenced, Payload;
      if l.taskType != CREATE_REVIEW {
        return Failure(ReviewFailed("review_task_type_invalid"));
      }
      var named := Field(l.payload, "application_id");
      if !named.Id? {
        return Failure(ReviewFailed("review_task_application_missing"));
      }
      var app := named.ulid;
      var task := Fenced(queue, l, now);
      if task.Failure? {
        return Failure(task.error);
      }
      if task.value.identity.application != Some(app) || app !in apps || apps[app].current != l.task
         || apps[app].stage != StageReview || apps[app].status != ReadyToReview {
        return Failure(ReviewFailed("review_application_state_invalid"));
      }
      var payload := Payload(Db(queue, apps, approvals, actions, inputs, files), app, Time(Queue.Stamp(now)));
      if payload.None? {
        return Failure(ReviewFailed("review_payload_failed"));
      }
      var content := Canonical(payload.value);
      var path, sha := Path([app, ids.review]), Hash(content);
      if path in files && files[path] != content {
        return Failure(ReviewFailed("review_path_content_conflict"));
      }
      files := files[path := content];
      var waiting := Queue.EnqueueWaiting(config.queue, queue, SubmissionTask(app, apps[app], l.task, path, sha, ids),
                                          ApprovalInterrupt(app, sha, ids), ids.task, now);
      if waiting.Failure? {
        return Failure(QueueFailed(waiting.error));
      }
      if ids.approval in approvals {
        return Failure(QueueFailed(Queue.ReplayConflict));
      }
      var done := Queue.CompleteInTransaction(config.queue, waiting.value.0, l,
                                              map["review_path" := path, "review_sha256" := sha], false, now);
      if done.Failure? {
        return Failure(QueueFailed(done.error));
      }
      queue := done.value;
      approvals := approvals[ids.approval :=
        Approval(app, ids.task, path, sha, Pending, Some(Queue.Stamp(now + config.ttlMicros)), None)];
      apps := apps[app := apps[app].(current := waiting.value.1)];
      return Success(());
    }

    /** `recover`, at any time and by anyone. */
    method RecoverActions() returns (count: nat)
      modifies this`apps, this`actions, this`world
      ensures State() == Recover(old(State()))
      ensures count == |ExecutingKeys(old(actions))|
      ensures forall k :: k in actions ==> actions[k].status != Executing
      ensures old(Valid()) ==> Valid()
    {
      hide Safe, FormsOk, Recover;
      RecoverDb(config, world);
      Follow(Event.RecoverActions, world.now);
      count := RecoverEach();
    }

    /** The loop: the rows are taken one by one; the result does not depend on their order. */
    method RecoverEach() returns (count: nat)
      modifies this`apps, this`actions
      ensures State() == Recover(old(State()))
      ensures count == |ExecutingKeys(old(actions))|
      ensures forall k :: k in actions ==> actions[k].status != Executing
    {
      hide Partly, Recover;
      ghost var db := State();
      var due := set k | k in actions && actions[k].status == Executing;
      ghost var done: set<ActionKey> := {};
      count := 0;
      NoneDone(db);
      assert due + done == ExecutingKeys(db.actions);
      while due != {}
        invariant due !! done
        invariant due + done == ExecutingKeys(db.actions) && count == |done|
        invariant State() == db.(actions := actions, apps := apps) && Partly(db, done, actions, apps)
        decreases |due|
      {
        var k :| k in due;
        OneMore(db, done, actions, apps, k);
        var app := actions[k].app;
        actions := actions[k := actions[k].(status := UnknownResult)];
        if app in apps {
          apps := apps[app := apps[app].(status := SubmissionUnknown)];
        }
        assert due + done == (due - {k}) + (done + {k});
        due, done, count := due - {k}, done + {k}, count + 1;
      }
      AllDone(db, actions, apps);
    }
  }

  function ExecutingKeys(actions: map<ActionKey, Action>): set<ActionKey> {
    set k | k in actions && actions[k].status == Executing
  }

  /** Recovery after the rows `done`. */
  ghost predicate Partly(db: Db, done: set<ActionKey>, actions: map<ActionKey, Action>, apps: map<AppId, App>) {
    && actions.Keys == db.actions.Keys && apps.Keys == db.apps.Keys
    && (forall k :: k in actions ==>
          actions[k] == if k in done then db.actions[k].(status := UnknownResult) else db.actions[k])
    && (forall a :: a in apps ==>
          apps[a] == if Touched(db.actions, done, a) then db.apps[a].(status := SubmissionUnknown) else db.apps[a])
  }

  lemma NoneDone(db: Db)
    ensures Partly(db, {}, db.actions, db.apps)
  {
  }

  lemma OneMore(db: Db, done: set<ActionKey>, actions: map<ActionKey, Action>, apps: map<AppId, App>, k: ActionKey)
    requires Partly(db, done, actions, apps) && k in db.actions && k !in done
    ensures k in actions && actions[k] == db.actions[k]
    ensures var app := db.actions[k].app;
      Partly(db, done + {k}, actions[k := db.actions[k].(status := UnknownResult)],
             if app in apps then apps[app := apps[app].(status := SubmissionUnknown)] else apps)
  {
    hide Touched;
    TouchedMore(db.actions, done, k);
  }

  lemma AllDone(db: Db, actions: map<ActionKey, Action>, apps: map<AppId, App>)
    requires Partly(db, ExecutingKeys(db.actions), actions, apps)
    ensures Recover(db) == db.(actions := actions, apps := apps)
    ensures forall k :: k in actions ==> actions[k].status != Executing
  {
    var db2 := Recover(db);
    assert db2.actions == actions;
    forall a | a in apps ensures db2.apps[a] == apps[a] {
    }
    assert db2.apps == apps;
  }

  ghost predicate Touched(actions: map<ActionKey, Action>, done: set<ActionKey>, app: AppId) {
    exists k :: k in done && k in actions && actions[k].app == app
  }

  lemma TouchedMore(actions: map<ActionKey, Action>, done: set<ActionKey>, k: ActionKey)
    requires k in actions
    ensures forall a :: Touched(actions, done + {k}, a) <==> Touched(actions, done, a) || actions[k].app == a
  {
    assert k in done + {k};
    forall a | Touched(actions, done, a) ensures Touched(actions, done + {k}, a) {
      var o :| o in done && o in actions && actions[o].app == a;
      assert o in done + {k};
    }
  }
}
