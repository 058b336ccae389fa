/** What holds of every run of the submission pipeline. */
module SubmissionLaws {
  import opened Wrappers
  import opened Json
  import opened Submission
  import opened SubmissionRuns
  import opened SubmissionSteps
  import opened SubmissionForms
  import opened QueueRuns
  import Queue

  lemma DawnSafe()
    ensures Safe(DAWN) && FormsOk(DAWN)
  {
  }

  lemma {:induction false} RunSafe(c: Config, r: Run, n: nat)
    requires IsRun(c, r) && n <= |r.events|
    ensures Safe(r.worlds[n]) && FormsOk(r.worlds[n])
  {
    hide Safe, FormsOk, Happen, May;
    if n == 0 {
      DawnSafe();
    } else {
      RunSafe(c, r, n - 1);
      assert EventAt(c, r, n - 1);
      HappenKeeps(c, r.worlds[n - 1], r.events[n - 1]);
      FormsKeep(c, r.worlds[n - 1], r.events[n - 1]);
    }
  }

  // ---------------------------------------------------------------- one authorisation, one approval, one click

  /**
   Authorisations, consumed approvals and actions that left PLANNED are in bijection: no action is
   authorised twice and no approval is spent twice.
   */
  lemma AuthorisedOnce(c: Config, r: Run, n: nat)
    requires IsRun(c, r) && n <= |r.events|
    ensures var w := r.worlds[n];
      && (forall i, j :: 0 <= i < j < |w.auths| ==>
            w.auths[i].key != w.auths[j].key && w.auths[i].approval != w.auths[j].approval)
      && (forall key :: key in w.db.actions ==> (w.db.actions[key].status != Planned <==> AuthorisedBy(w.auths, key)))
      && (forall a :: a in w.db.approvals ==> (w.db.approvals[a].status == Consumed <==> ConsumedBy(w.auths, a)))
      && (forall i :: 0 <= i < |w.auths| ==>
            w.auths[i].key in w.db.actions && w.db.actions[w.auths[i].key].approval == w.auths[i].approval)
  {
    RunSafe(c, r, n);
    var w := r.worlds[n];
    hide Inv, TablesOk, CallsOk, ExecsOk, RecsOk;
    forall i | 0 <= i < |w.auths| ensures AuthOk(w.db, w.auths[i]) {
    }
  }

  ghost predicate Matches(auths: seq<Auth>, call: Call, n: nat) {
    n < |auths| && auths[n].key == call.key && auths[n].token == call.token && auths[n].review == call.review
  }

  /** Every call of the adapter's `submit` has an authorisation of its own. */
  lemma ClicksMatchAuthorisations(c: Config, r: Run, n: nat) returns (of: seq<nat>)
    requires IsRun(c, r) && n <= |r.events|
    ensures var w := r.worlds[n];
      && |of| == |w.calls|
      && (forall i :: 0 <= i < |of| ==> Matches(w.auths, w.calls[i], of[i]))
      && (forall i, j :: 0 <= i < j < |of| ==> of[i] != of[j])
  {
    RunSafe(c, r, n);
    var w := r.worlds[n];
    hide Inv, TablesOk, AuthsOk, CallsOk, ExecsOk, RecsOk;
    of := Matching(w.auths, w.calls);
  }

  lemma Matching(auths: seq<Auth>, calls: seq<Call>) returns (of: seq<nat>)
    requires CallsOk(auths, calls)
    ensures |of| == |calls| && forall i :: 0 <= i < |of| ==> Matches(auths, calls[i], of[i])
    ensures forall i, j :: 0 <= i < j < |of| ==> of[i] != of[j]
  {
    of := [];
    while |of| < |calls|
      invariant |of| <= |calls| && forall i :: 0 <= i < |of| ==> Matches(auths, calls[i], of[i])
    {
      assert CallAuthorised(auths, calls[|of|]);
      var n :| 0 <= n < |auths| && auths[n].key == calls[|of|].key && auths[n].token == calls[|of|].token
               && auths[n].review == calls[|of|].review;
      assert Matches(auths, calls[|of|], n);
      of := of + [n];
    }
  }

  // ---------------------------------------------------------------- at most one open action

  lemma OpenIsUnique(db: Db, a: ActionKey, b: ActionKey)
    requires TablesOk(db) && a in db.actions && b in db.actions && a.app == b.app
    requires Open(db.actions[a].status) && Open(db.actions[b].status)
    ensures a == b
  {
    assert ActionOk(db, a) && ActionOk(db, b);
    hide ActionOk;
    assert PastOver(db, a.app) && SuccessLast(db, a.app);
    if db.actions[a].task == db.actions[b].task {
      OneActionPerTask(db, a, b);
    }
  }

  /** An application never has two actions that are executing, of unknown result or succeeded. */
  lemma OneOpenAction(c: Config, r: Run, n: nat, a: ActionKey, b: ActionKey)
    requires IsRun(c, r) && n <= |r.events|
    requires var db := r.worlds[n].db;
      && a in db.actions && b in db.actions && a.app == b.app
      && Open(db.actions[a].status) && Open(db.actions[b].status)
    ensures a == b
  {
    RunSafe(c, r, n);
    hide Inv, AuthsOk, CallsOk, ExecsOk, RecsOk, TablesOk;
    OpenIsUnique(r.worlds[n].db, a, b);
  }

  // ---------------------------------------------------------------- one step, seen from approvals and actions

  /** An approval's deadline is fixed, its decision is made once, and it is approved only out of PENDING. */
  predicate Aged(a: Approval, b: Approval) {
    && a.validUntil == b.validUntil && SameBinding(a, b)
    && (a.status == b.status || a.status in {Pending, Approved})
    && (a.status != Pending ==> b.status != Pending && b.decidedBy == a.decidedBy)
    && (a.status == Approved ==> b.status in {Approved, Expired, Revoked, Consumed})
  }

  predicate Decided(s: ActionStatus) {
    s in {Failed, Succeeded}
  }

  ghost predicate ApprovalsAge(w: World, w2: World) {
    forall a :: a in w.db.approvals ==> a in w2.db.approvals && Aged(w.db.approvals[a], w2.db.approvals[a])
  }

  ghost predicate DecisionsStay(w: World, w2: World) {
    forall key :: key in w.db.actions ==>
      key in w2.db.actions && (Decided(w.db.actions[key].status) ==> w2.db.actions[key] == w.db.actions[key])
  }

  ghost predicate ExecsStay(w: World, w2: World, except: Option<Queue.Token>) {
    && (forall tok :: tok in w.execs ==> tok in w2.execs)
    && (forall tok :: tok in w2.execs && Some(tok) != except ==>
          && tok in w.execs && w2.execs[tok].since == w.execs[tok].since
          && (!w2.execs[tok].pc.Stopped? ==> !w.execs[tok].pc.Stopped? && w2.execs[tok].pc.k == w.execs[tok].pc.k))
  }

  function Newcomer(e: Event): Option<Queue.Token> {
    if e.Begin? then Some(e.lease.worker) else None
  }

  lemma RecordingDecides(w: World, tok: Queue.Token)
    requires Safe(w) && tok in w.execs && w.execs[tok].pc.Recording?
    requires Fenced(w.db.queue, w.execs[tok].lease, w.now).Success?
    ensures var k := w.execs[tok].pc.k; k.Key() in w.db.actions && !Decided(w.db.actions[k.Key()].status)
  {
    hide Good, TablesOk, AuthsOk, CallsOk;
    assert ExecOk(w, tok, w.execs[tok]);
  }

  lemma StepShift(c: Config, w: World, tok: Queue.Token, ch: Choice)
    requires Safe(w) && tok in w.execs
    ensures var w2 := StepExec(c, w, tok, ch); ApprovalsAge(w, w2) && DecisionsStay(w, w2) && ExecsStay(w, w2, None)
  {
    hide Safe, StepExec, ApprovalsAge, DecisionsStay, ExecsStay;
    var pc := w.execs[tok].pc;
    if pc.Planning? {
      PlanningShift(c, w, tok, ch);
    } else if pc.Recording? {
      RecordingShift(c, w, tok, ch);
    } else if pc.Starting? {
      StartingShift(c, w, tok, ch);
    } else {
      RestShift(c, w, tok, ch);
    }
  }

  lemma StartingShift(c: Config, w: World, tok: Queue.Token, ch: Choice)
    requires tok in w.execs && w.execs[tok].pc.Starting?
    ensures var w2 := StepExec(c, w, tok, ch); ApprovalsAge(w, w2) && DecisionsStay(w, w2) && ExecsStay(w, w2, None)
  {
    hide Fenced, Unchanged;
  }

  lemma RestShift(c: Config, w: World, tok: Queue.Token, ch: Choice)
    requires tok in w.execs
    requires var pc := w.execs[tok].pc; !pc.Planning? && !pc.Recording? && !pc.Starting?
    ensures var w2 := StepExec(c, w, tok, ch); ApprovalsAge(w, w2) && DecisionsStay(w, w2) && ExecsStay(w, w2, None)
  {
    hide Fenced, Spawn, ReadReview, Payload, Revoke, ScheduleNewReview;
    if w.execs[tok].pc.Revoking? {
      RevokeShift(w.db, w.execs[tok].lease, w.execs[tok].pc.k, w.now);
    } else if w.execs[tok].pc.Scheduling? {
      ScheduleShift(w.db, w.execs[tok].lease, w.execs[tok].pc.k.app, ch.token, ch.first, w.now);
    }
  }

  lemma RevokeShift(db: Db, l: Queue.Lease, k: Case, now: int)
    ensures var r := Revoke(db, l, k, now);
      r.Success? ==>
        && r.value.actions == db.actions && r.value.approvals.Keys == db.approvals.Keys
        && forall a :: a in db.approvals ==> Aged(db.approvals[a], r.value.approvals[a])
  {
    hide Fenced;
  }

  lemma ScheduleShift(db: Db, l: Queue.Lease, app: AppId, token: nat, drawn: Queue.TaskId, now: int)
    ensures var r := ScheduleNewReview(db, l, app, token, drawn, now);
      r.Success? ==> r.value.actions == db.actions && r.value.approvals == db.approvals
  {
    hide Fenced, Spawn;
  }

  lemma PlanningShift(c: Config, w: World, tok: Queue.Token, ch: Choice)
    requires tok in w.execs && w.execs[tok].pc.Planning?
    ensures var w2 := StepExec(c, w, tok, ch); ApprovalsAge(w, w2) && DecisionsStay(w, w2) && ExecsStay(w, w2, None)
  {
    hide Plan;
    PlanShape(w.db, w.execs[tok].lease, w.execs[tok].pc.k, w.now);
  }

  lemma RecordingShift(c: Config, w: World, tok: Queue.Token, ch: Choice)
    requires Safe(w) && tok in w.execs && w.execs[tok].pc.Recording?
    ensures var w2 := StepExec(c, w, tok, ch); ApprovalsAge(w, w2) && DecisionsStay(w, w2) && ExecsStay(w, w2, None)
  {
    hide Safe;
    var x := w.execs[tok];
    if Fenced(w.db.queue, x.lease, w.now).Success? {
      RecordingDecides(w, tok);
    }
    RecordedShift(c, w, tok, ch);
  }

  lemma RecordedShift(c: Config, w: World, tok: Queue.Token, ch: Choice)
    requires tok in w.execs && w.execs[tok].pc.Recording?
    requires Fenced(w.db.queue, w.execs[tok].lease, w.now).Success? ==>
      var k := w.execs[tok].pc.k; k.Key() in w.db.actions && !Decided(w.db.actions[k.Key()].status)
    ensures var w2 := StepExec(c, w, tok, ch); ApprovalsAge(w, w2) && DecisionsStay(w, w2) && ExecsStay(w, w2, None)
  {
    hide Fenced, Spawn;
  }

  lemma PrepareShift(c: Config, w: World, l: Queue.Lease, ids: Drawn)
    ensures var w2 := w.(db := Prepare(c, w.db, l, ids, w.now).0); ApprovalsAge(w, w2) && DecisionsStay(w, w2)
  {
    hide Queue.EnqueueWaiting, Queue.CompleteInTransaction, Fenced, Payload;
  }

  lemma BeginShift(c: Config, w: World, l: Queue.Lease)
    requires l.worker !in w.execs
    ensures var w2 := BeginExec(c, w, l);
      ApprovalsAge(w, w2) && DecisionsStay(w, w2) && ExecsStay(w, w2, Some(l.worker))
  {
    hide Fenced, CaseOf;
  }

  lemma HappenShift(c: Config, w0: World, at: At)
    requires Safe(w0) && May(w0, at)
    ensures var w2 := Happen(c, w0, at);
      ApprovalsAge(w0, w2) && DecisionsStay(w0, w2) && ExecsStay(w0, w2, Newcomer(at.event))
  {
    hide Safe, Apply, Spawn, Fenced, StepExec, Prepare, BeginExec, CaseOf, Inv, LegalOp;
    var w := w0.(now := at.now);
    match at.event {
      case Proceed(tok, ch) =>
        ClockKeeps(w0, at.now);
        if tok in w.execs {
          StepShift(c, w, tok, ch);
        }
      case PrepareReview(l, ids) => PrepareShift(c, w, l, ids);
      case Begin(l) => BeginShift(c, w, l);
      case _ => EnvironmentShift(c, w0, at);
    }
  }

  lemma EnvironmentShift(c: Config, w0: World, at: At)
    requires May(w0, at) && !at.event.Proceed? && !at.event.PrepareReview? && !at.event.Begin?
    ensures var w2 := Happen(c, w0, at); ApprovalsAge(w0, w2) && DecisionsStay(w0, w2) && ExecsStay(w0, w2, None)
  {
    hide Apply, Spawn, Fenced, LegalOp, Queue.Create, ApprovalsAge, DecisionsStay, ExecsStay, Submission.Recover,
      DecideApproval;
    var w2 := Happen(c, w0, at);
    match at.event {
      case Decide(a, user, approve) => DecideShift(w0, at.now, a, user, approve);
      case RecoverActions => RecoverShift(w0, w2);
      case _ => SameShift(w0, w2);
    }
  }

  lemma SameShift(w: World, w2: World)
    requires w2.db.actions == w.db.actions && w2.db.approvals == w.db.approvals && w2.execs == w.execs
    ensures ApprovalsAge(w, w2) && DecisionsStay(w, w2) && ExecsStay(w, w2, None)
  {
  }

  lemma RecoverShift(w: World, w2: World)
    requires w2.db == Submission.Recover(w.db) && w2.execs == w.execs
    ensures ApprovalsAge(w, w2) && DecisionsStay(w, w2) && ExecsStay(w, w2, None)
  {
  }

  lemma DecideShift(w: World, now: int, a: ApprovalId, user: User, approve: bool)
    ensures var w2 := DecideApproval(w.(now := now), a, user, approve);
      ApprovalsAge(w, w2) && DecisionsStay(w, w2) && ExecsStay(w, w2, None)
  {
  }

  // ---------------------------------------------------------------- what one authorisation rests on

  /** The transaction that authorises: all of this holds in it, of the review handed to the adapter. */
  ghost predicate Bound(c: Config, w: World, a: Auth) {
    a.token in w.execs && w.execs[a.token].pc.Starting? &&
    var x := w.execs[a.token];
    var k := x.pc.k;
    && a == Auth(k.Key(), k.approval, a.token, x.pc.review)
    && Fenced(w.db.queue, x.lease, w.now).Success?
    && k.app in w.db.apps && w.db.apps[k.app].current == x.lease.task && k.approval in w.db.approvals
    && SameBinding(w.db.approvals[k.approval], Approval(k.app, x.lease.task, k.path, k.sha, Approved, None, None))
    && w.db.approvals[k.approval].status == Approved
    && k.Key() in w.db.actions && w.db.actions[k.Key()].status == Planned
    && Hash(Canonical(a.review)) == w.db.approvals[k.approval].sha == k.sha
    && k.path in w.db.files && w.db.files[k.path] == Canonical(a.review)
    && CreatedAt(a.review).Some? && Payload(w.db, k.app, CreatedAt(a.review).value) == Some(a.review)
  }

  lemma StartBinds(c: Config, w: World, tok: Queue.Token, ch: Choice)
    requires Safe(w) && tok in w.execs && w.execs[tok].pc.Starting?
    requires Fenced(w.db.queue, w.execs[tok].lease, w.now).Success?
    requires Startable(w.db, w.execs[tok].pc.k) && Unchanged(c, w.db, w.execs[tok].pc.k, w.execs[tok].pc.review)
    ensures var x := w.execs[tok]; var k := x.pc.k; Bound(c, w, Auth(k.Key(), k.approval, tok, x.pc.review))
  {
    hide Safe, Fenced, Payload, Undecided, CaseTask;
    AtWork(w, tok);
  }

  /** A step authorises at most one click, and only as `Bound` says. */
  lemma StepIsBound(c: Config, w0: World, at: At)
    requires Safe(w0) && May(w0, at)
    ensures var w, w2 := w0.(now := at.now), Happen(c, w0, at);
      w2.auths == w0.auths || exists a :: w2.auths == w0.auths + [a] && Bound(c, w, a)
  {
    hide Safe, Apply, Spawn, Fenced, Prepare, Validated, StepExec, Unchanged, Bound, Startable;
    var w := w0.(now := at.now);
    ClockKeeps(w0, at.now);
    if at.event.Proceed? && at.event.exec in w.execs {
      OnlyStartAuthorises(c, w, at.event.exec, at.event.choice);
      var x := w.execs[at.event.exec];
      if StepExec(c, w, at.event.exec, at.event.choice).auths != w.auths {
        StartBinds(c, w, at.event.exec, at.event.choice);
      }
    }
  }

  /**
   Whenever a click is authorised, its review has the approved digest, is what the review file holds
   and is what the database would produce in that very transaction.
   */
  lemma AuthorisationIsBound(c: Config, r: Run, n: nat)
    requires IsRun(c, r) && n < |r.events|
    ensures var w, w2 := r.worlds[n].(now := r.events[n].now), r.worlds[n + 1];
      w2.auths == w.auths || exists a :: w2.auths == w.auths + [a] && Bound(c, w, a)
  {
    hide Safe, Happen, May, Bound;
    RunSafe(c, r, n);
    assert EventAt(c, r, n);
    StepIsBound(c, r.worlds[n], r.events[n]);
  }

  lemma OnlyStartAuthorises(c: Config, w: World, tok: Queue.Token, ch: Choice)
    requires tok in w.execs
    ensures var x, w2 := w.execs[tok], StepExec(c, w, tok, ch);
      w2.auths == w.auths
      || (x.pc.Starting? && Fenced(w.db.queue, x.lease, w.now).Success?
          && Startable(w.db, x.pc.k) && Unchanged(c, w.db, x.pc.k, x.pc.review)
          && w2.auths == w.auths + [Auth(x.pc.k.Key(), x.pc.k.approval, tok, x.pc.review)])
  {
    hide Fenced, Spawn, Record, Plan, Revoke, ScheduleNewReview, Unchanged, Startable, ReadReview, Payload, Authorised;
  }

  // ---------------------------------------------------------------- who approved, and when that was checked

  /** An authorised user approved, and the deadline was still ahead when the execution began. */
  predicate InTime(c: Config, a: Approval, since: int) {
    && c.live && a.decidedBy.Some? && a.decidedBy.value in c.authorized
    && a.validUntil.Some? && since < a.validUntil.value * 1000
  }

  ghost predicate ExecVetted(c: Config, db: Db, x: Exec) {
    !x.pc.Stopped? ==>
      && x.pc.k.approval in db.approvals && db.approvals[x.pc.k.approval].status != Pending
      && (db.approvals[x.pc.k.approval].status == Approved ==> InTime(c, db.approvals[x.pc.k.approval], x.since))
  }

  ghost predicate AuthVetted(c: Config, w: World, a: Auth) {
    && a.approval in w.db.approvals && w.db.approvals[a.approval].status != Pending && a.token in w.execs
    && InTime(c, w.db.approvals[a.approval], w.execs[a.token].since)
  }

  ghost predicate FailedThere(db: Db, key: ActionKey) {
    key in db.actions && db.actions[key].status == Failed
  }

  /** All authorised actions of an application but the last have failed. */
  ghost predicate Chain(db: Db, auths: seq<Auth>) {
    forall i, j :: 0 <= i < j < |auths| && auths[i].key.app == auths[j].key.app ==> FailedThere(db, auths[i].key)
  }

  ghost predicate Vetted(c: Config, w: World) {
    && (forall tok :: tok in w.execs ==> ExecVetted(c, w.db, w.execs[tok]))
    && (forall i :: 0 <= i < |w.auths| ==> AuthVetted(c, w, w.auths[i]))
    && Chain(w.db, w.auths)
  }

  lemma NewcomerVetted(c: Config, w: World, l: Queue.Lease)
    ensures var w2 := BeginExec(c, w, l); ExecVetted(c, w2.db, w2.execs[l.worker])
  {
    hide Fenced, CaseOf;
  }

  lemma ExecsStayVetted(c: Config, w0: World, at: At)
    requires Safe(w0) && May(w0, at) && Vetted(c, w0)
    ensures var w2 := Happen(c, w0, at); forall tok :: tok in w2.execs ==> ExecVetted(c, w2.db, w2.execs[tok])
  {
    hide Safe, May, ExecVetted, ApprovalsAge, DecisionsStay, BeginExec, StepExec, Prepare;
    var w2 := Happen(c, w0, at);
    HappenShift(c, w0, at);
    if at.event.Begin? {
      NewcomerVetted(c, w0.(now := at.now), at.event.lease);
    }
    forall tok | tok in w2.execs && Some(tok) != Newcomer(at.event) ensures ExecVetted(c, w2.db, w2.execs[tok]) {
      assert ExecVetted(c, w0.db, w0.execs[tok]);
      ExecAges(c, w0, w2, tok);
    }
  }

  lemma ExecAges(c: Config, w: World, w2: World, tok: Queue.Token)
    requires ApprovalsAge(w, w2) && tok in w.execs && tok in w2.execs && w2.execs[tok].since == w.execs[tok].since
    requires !w2.execs[tok].pc.Stopped? ==> !w.execs[tok].pc.Stopped? && w2.execs[tok].pc.k == w.execs[tok].pc.k
    requires ExecVetted(c, w.db, w.execs[tok])
    ensures ExecVetted(c, w2.db, w2.execs[tok])
  {
    if !w2.execs[tok].pc.Stopped? {
      assert Aged(w.db.approvals[w2.execs[tok].pc.k.approval], w2.db.approvals[w2.execs[tok].pc.k.approval]);
    }
  }

  /** A vetted approval stays vetted: decisions and deadlines do not change. */
  lemma AuthStaysVetted(c: Config, w0: World, at: At, a: Auth)
    requires Safe(w0) && May(w0, at)
    requires a.token in w0.execs && a.approval in w0.db.approvals && w0.db.approvals[a.approval].status != Pending
    requires InTime(c, w0.db.approvals[a.approval], w0.execs[a.token].since)
    ensures AuthVetted(c, Happen(c, w0, at), a)
  {
    hide Safe, Happen, InTime, ApprovalsAge, ExecsStay, DecisionsStay;
    HappenShift(c, w0, at);
    assert Some(a.token) != Newcomer(at.event);
    AuthAges(c, w0, Happen(c, w0, at), a, Newcomer(at.event));
  }

  lemma AuthAges(c: Config, w: World, w2: World, a: Auth, except: Option<Queue.Token>)
    requires ApprovalsAge(w, w2) && ExecsStay(w, w2, except) && except != Some(a.token)
    requires AuthVetted(c, w, a)
    ensures AuthVetted(c, w2, a)
  {
    assert Aged(w.db.approvals[a.approval], w2.db.approvals[a.approval]);
  }

  /** When a second action of an application is authorised, the earlier ones have already failed. */
  lemma EarlierFailed(w: World, a: Auth, n: nat, c: Config)
    requires Safe(w) && Bound(c, w, a) && n < |w.auths| && w.auths[n].key.app == a.key.app
    ensures FailedThere(w.db, w.auths[n].key)
  {
    hide Good, CallsOk, Payload, Names, PastOver, SuccessLast, Undecided;
    AtWork(w, a.token);
    assert ExecOk(w, a.token, w.execs[a.token]);
    hide ExecsOk, CaseTask, Fenced;
    assert AuthOk(w.db, w.auths[n]);
    var key := w.auths[n].key;
    OthersFailed(w.db, key.app, key);
    assert ActionOk(w.db, key) && ActionOk(w.db, a.key);
    if w.db.actions[key].task == w.db.actions[a.key].task {
      OneActionPerTask(w.db, key, a.key);
    }
  }

  lemma FailedStays(w: World, w2: World, key: ActionKey)
    requires DecisionsStay(w, w2) && FailedThere(w.db, key)
    ensures FailedThere(w2.db, key)
  {
  }

  lemma VettedStep(c: Config, w0: World, at: At)
    requires Safe(w0) && May(w0, at) && Vetted(c, w0)
    ensures Vetted(c, Happen(c, w0, at))
  {
    hide Safe, Happen, May, Bound, InTime, FailedThere;
    var w, w2 := w0.(now := at.now), Happen(c, w0, at);
    ExecsStayVetted(c, w0, at);
    HappenShift(c, w0, at);
    forall i | 0 <= i < |w0.auths| ensures AuthVetted(c, w2, w0.auths[i]) {
      assert AuthVetted(c, w0, w0.auths[i]);
      AuthStaysVetted(c, w0, at, w0.auths[i]);
    }
    forall i, j | 0 <= i < j < |w0.auths| && w0.auths[i].key.app == w0.auths[j].key.app
      ensures FailedThere(w2.db, w0.auths[i].key)
    {
      FailedStays(w0, w2, w0.auths[i].key);
    }
    StepIsBound(c, w0, at);
    if w2.auths != w0.auths {
      var a :| w2.auths == w0.auths + [a] && Bound(c, w, a);
      BoundVetted(c, w, a);
      AuthStaysVetted(c, w0, at, a);
      ClockKeeps(w0, at.now);
      forall i | 0 <= i < |w0.auths| && w0.auths[i].key.app == a.key.app ensures FailedThere(w2.db, w0.auths[i].key) {
        EarlierFailed(w, a, i, c);
        FailedStays(w0, w2, w0.auths[i].key);
      }
    }
  }

  lemma BoundVetted(c: Config, w: World, a: Auth)
    requires Bound(c, w, a) && Vetted(c, w)
    ensures a.token in w.execs && a.approval in w.db.approvals && w.db.approvals[a.approval].status != Pending
    ensures InTime(c, w.db.approvals[a.approval], w.execs[a.token].since)
  {
    assert ExecVetted(c, w.db, w.execs[a.token]);
  }

  lemma DawnVetted(c: Config)
    ensures Vetted(c, DAWN)
  {
  }

  lemma {:induction false} RunVetted(c: Config, r: Run, n: nat)
    requires IsRun(c, r) && n <= |r.events|
    ensures Safe(r.worlds[n]) && Vetted(c, r.worlds[n])
  {
    hide Safe, Happen, May, Vetted;
    RunSafe(c, r, n);
    if n == 0 {
      DawnVetted(c);
    } else {
      RunVetted(c, r, n - 1);
      assert EventAt(c, r, n - 1);
      VettedStep(c, r.worlds[n - 1], r.events[n - 1]);
    }
  }

  /**
   Of two authorised actions of one application the earlier had been recorded FAILED by a
   NOT_SUBMITTED outcome.
   */
  lemma SecondAfterNotSubmitted(c: Config, r: Run, n: nat, i: nat, j: nat)
    requires IsRun(c, r) && n <= |r.events|
    requires var w := r.worlds[n]; i < j < |w.auths| && w.auths[i].key.app == w.auths[j].key.app
    ensures var w := r.worlds[n];
      FailedThere(w.db, w.auths[i].key) && Rec(w.auths[i].key, NotSubmitted) in w.recs
  {
    hide Inv, TablesOk, AuthsOk, CallsOk, ExecsOk;
    RunVetted(c, r, n);
  }

  /**
   Every click happened in live mode for an approval that an authorised user gave and that was unexpired when
   its execution began.
   */
  lemma ClicksAreVetted(c: Config, r: Run, n: nat, i: nat)
    requires IsRun(c, r) && n <= |r.events| && i < |r.worlds[n].calls|
    ensures var w := r.worlds[n];
      exists k: nat :: Matches(w.auths, w.calls[i], k) && AuthVetted(c, w, w.auths[k])
  {
    RunVetted(c, r, n);
    var w := r.worlds[n];
    var of := ClicksMatchAuthorisations(c, r, n);
    hide Safe;
    assert Matches(w.auths, w.calls[i], of[i]);
    assert AuthVetted(c, w, w.auths[of[i]]);
  }

  /** FAILED and SUCCEEDED are never left, whatever happens afterwards. */
  lemma {:induction false} DecisionsAreFinal(c: Config, r: Run, m: nat, n: nat, key: ActionKey)
    requires IsRun(c, r) && m <= n <= |r.events|
    requires key in r.worlds[m].db.actions && Decided(r.worlds[m].db.actions[key].status)
    ensures key in r.worlds[n].db.actions && r.worlds[n].db.actions[key] == r.worlds[m].db.actions[key]
  {
    hide Safe, Happen, May;
    if m < n {
      DecisionsAreFinal(c, r, m, n - 1, key);
      RunSafe(c, r, n - 1);
      assert EventAt(c, r, n - 1);
      HappenShift(c, r.worlds[n - 1], r.events[n - 1]);
    }
  }

  // ---------------------------------------------------------------- what review and submission agree on

  /**
   What `prepare` leaves is what `_validated` and `_start` look for: the review reads back from its file,
   the approval and the task's payload name it, and as long as nothing changes it counts as unchanged.
   */
  lemma PreparedReviewIsReadable(c: Config, db: Db, l: Queue.Lease, ids: Drawn, now: int)
    requires Prepare(c, db, l, ids, now).1.Success? && KeysOk(db.queue)
    requires forall b :: c.readable(b)
    ensures var db2 := Prepare(c, db, l, ids, now).0;
      exists k: Case, review: Json ::
        && Unchanged(c, db2, k, review) && k.approval == ids.approval
        && k.approval in db2.approvals
        && SameBinding(db2.approvals[k.approval], Approval(k.app, ids.task, k.path, k.sha, Pending, None, None))
        && k.app in db2.apps && CaseTask(db2.queue, db2.apps[k.app].current, k)
        && !Queue.Owns(db2.queue, l)
  {
    hide Queue.CompleteInTransaction, Queue.EnqueueWaiting, Fenced;
    var app := Field(l.payload, "application_id").ulid;
    var payload := Payload(db, app, Time(Queue.Stamp(now)));
    var content := Canonical(payload.value);
    var path, sha := Path([app, ids.review]), Hash(content);
    var db1 := db.(files := db.files[path := content]);
    var db2 := Prepare(c, db, l, ids, now).0;
    assert Enlist(c, db1, l, app, path, sha, ids, now) == Success(db2);
    var k := Case(app, ids.approval, path, sha);
    PreparedTask(c, db1.queue, l, app, db.apps[app], path, sha, ids, now);
    assert payload.value.fields["created_at"] == Time(Queue.Stamp(now));
    assert db2.files[path] == content && db2.inputs == db.inputs && db2.apps.Keys == db.apps.Keys;
    assert Payload(db2, app, Time(Queue.Stamp(now))) == payload;
    assert Unchanged(c, db2, k, payload.value);
  }

  /** The submission task carries the case, and the review task is over. */
  lemma PreparedTask(c: Config, q: Queue.Store, l: Queue.Lease, app: AppId, row: App, path: Json, sha: Json, ids: Drawn,
      now: int)
    requires KeysOk(q) && IsText(path) && IsText(sha)
    ensures var w := Queue.EnqueueWaiting(c.queue, q, SubmissionTask(app, row, l.task, path, sha, ids),
                                          ApprovalInterrupt(app, sha, ids), ids.task, now);
      w.Success? ==>
        var d := Queue.CompleteInTransaction(c.queue, w.value.0, l, map["review_path" := path, "review_sha256" := sha],
          false, now);
        d.Success? ==> CaseTask(d.value, w.value.1, Case(app, ids.approval, path, sha)) && !Queue.Owns(d.value, l)
  {
    var data := SubmissionTask(app, row, l.task, path, sha, ids);
    assert CaseOf(data.identity.payload) == Success(Case(app, ids.approval, path, sha));
  }

  /** The action is planned already, as after a crash, or may be: no other action of the application is open. */
  ghost predicate MayPlan(db: Db, l: Queue.Lease, k: Case) {
    if k.Key() in db.actions then db.actions[k.Key()] == Action(k.app, l.task, k.approval, k.sha, Planned)
    else forall o :: o in db.actions && db.actions[o].app == k.app ==> !Open(db.actions[o].status)
  }

  /** What an execution needs in order to click: valid, approved, unchanged, and its action planned or plannable. */
  ghost predicate ReadyToClick(c: Config, w: World, l: Queue.Lease, k: Case, review: Json) {
    && Validated(c, w.db, l, w.now) == (w.db, Success(k)) && Unchanged(c, w.db, k, review)
    && w.db.approvals[k.approval].status == Approved && w.db.apps[k.app].status == ReadyToReview
    && MayPlan(w.db, l, k)
  }

  /** `n` steps of one executor while nobody else does anything. */
  function Proceeded(c: Config, w: World, tok: Queue.Token, ch: Choice, n: nat): (w2: World)
    requires tok in w.execs
    ensures tok in w2.execs
  {
    if n == 0 then w else StepExec(c, Proceeded(c, w, tok, ch, n - 1), tok, ch)
  }

  lemma ReadyFacts(c: Config, w: World, l: Queue.Lease, k: Case, review: Json)
    requires ReadyToClick(c, w, l, k, review)
    ensures Fenced(w.db.queue, l, w.now).Success? && k.approval in w.db.approvals && k.app in w.db.apps
    ensures ReadReview(c, w.db, k.path, k.sha) == Some(review) && CreatedAt(review).Some?
    ensures Payload(w.db, k.app, CreatedAt(review).value) == Some(review)
  {
    hide CaseOf;
  }

  function WithPlanned(db: Db, l: Queue.Lease, k: Case): Db {
    db.(actions := db.actions[k.Key() := Action(k.app, l.task, k.approval, k.sha, Planned)])
  }

  /** The fourth transaction ends with the row planned, by this execution or by an earlier one, exactly then. */
  lemma ReadyPlans(db: Db, l: Queue.Lease, k: Case, now: int)
    requires Fenced(db.queue, l, now).Success?
    ensures MayPlan(db, l, k) ==> Plan(db, l, k, now) == Success((WithPlanned(db, l, k), Planned))
    ensures Plan(db, l, k, now).Success? && Plan(db, l, k, now).value.1 == Planned ==> MayPlan(db, l, k)
  {
    hide Fenced;
    if k.Key() in db.actions && MayPlan(db, l, k) {
      assert db.actions[k.Key() := db.actions[k.Key()]] == db.actions;
    }
  }

  /** The checks and the comparison. */
  lemma UndisturbedCompares(c: Config, w: World, l: Queue.Lease, k: Case, review: Json, ch: Choice)
    requires ReadyToClick(c, w, l, k, review)
    ensures var w0 := BeginExec(c, w, l);
      && w0 == w.(execs := w.execs[l.worker := Exec(l, Fetching(k), w.now)])
      && Proceeded(c, w0, l.worker, ch, 2) == Goto(w0, l.worker, Planning(k, review))
  {
    ReadyFacts(c, w, l, k, review);
    hide Validated, Plan, Fenced, Payload, ReadReview, CreatedAt, Start, Spawn, Record, Proceeded, MayPlan;
    var w0, tok := BeginExec(c, w, l), l.worker;
    ProceedOne(c, w0, tok, ch, 0);
    assert Proceeded(c, w0, tok, ch, 1) == Goto(w0, tok, Comparing(k, review));
    ProceedOne(c, w0, tok, ch, 1);
  }

  /** The checks and the plan. */
  lemma UndisturbedPlans(c: Config, w: World, l: Queue.Lease, k: Case, review: Json, ch: Choice)
    requires ReadyToClick(c, w, l, k, review)
    ensures var w0 := BeginExec(c, w, l);
      && w0 == w.(execs := w.execs[l.worker := Exec(l, Fetching(k), w.now)])
      && Proceeded(c, w0, l.worker, ch, 3)
         == Goto(w0.(db := WithPlanned(w.db, l, k)), l.worker, Starting(k, review))
  {
    ReadyFacts(c, w, l, k, review);
    ReadyPlans(w.db, l, k, w.now);
    UndisturbedCompares(c, w, l, k, review, ch);
    var w0 := BeginExec(c, w, l);
    ProceedOne(c, w0, l.worker, ch, 2);
    hide BeginExec, Validated, Plan, Fenced, Payload, ReadReview, CreatedAt, Start, Spawn, Record, Proceeded, MayPlan,
      Unchanged;
  }

  /**
   An undisturbed execution does click: after the checks, the plan and the authorisation the adapter is
   called once with the approved review, and the outcome is about to be recorded.
   */
  lemma UndisturbedExecutionClicks(c: Config, w: World, l: Queue.Lease, k: Case, review: Json, ch: Choice)
    requires ReadyToClick(c, w, l, k, review)
    ensures var w5 := Proceeded(c, BeginExec(c, w, l), l.worker, ch, 5);
      && w5.calls == w.calls + [Call(k.Key(), l.worker, review)]
      && w5.auths == w.auths + [Auth(k.Key(), k.approval, l.worker, review)]
      && w5.execs[l.worker].pc == Recording(k, ch.outcome)
      && k.approval in w5.db.approvals && w5.db.approvals[k.approval].status == Consumed
      && StatusOf(w5.db, k) == Executing
  {
    UndisturbedPlans(c, w, l, k, review, ch);
    ReadyFacts(c, w, l, k, review);
    var w0, tok := BeginExec(c, w, l), l.worker;
    var db3 := WithPlanned(w.db, l, k);
    ReadyStarts(c, w.db, db3, l, k, review, w.now);
    hide ReadyToClick, BeginExec, Fenced, Payload, ReadReview, CreatedAt, Start, Proceeded, Unchanged;
    ProceedOne(c, w0, tok, ch, 3);
    var a := Auth(k.Key(), k.approval, tok, review);
    assert Proceeded(c, w0, tok, ch, 4)
        == Goto(w0.(db := Authorised(db3, k), auths := w.auths + [a]), tok, Clicking(k, review));
    ProceedOne(c, w0, tok, ch, 4);
  }

  lemma ProceedOne(c: Config, w: World, tok: Queue.Token, ch: Choice, n: nat)
    requires tok in w.execs
    ensures Proceeded(c, w, tok, ch, 0) == w
    ensures Proceeded(c, w, tok, ch, n + 1) == StepExec(c, Proceeded(c, w, tok, ch, n), tok, ch)
  {
    hide StepExec;
  }

  /** Where no click can follow any more. */
  predicate Diverted(pc: Pc) {
    !(pc.Fetching? || pc.Comparing? || pc.Planning? || pc.Starting? || pc.Clicking?)
  }

  lemma DivertedStep(c: Config, w: World, tok: Queue.Token, ch: Choice)
    requires tok in w.execs && Diverted(w.execs[tok].pc)
    ensures var w2 := StepExec(c, w, tok, ch); tok in w2.execs && Diverted(w2.execs[tok].pc) && w2.calls == w.calls
  {
    hide Revoke, Record, ScheduleNewReview;
  }

  lemma {:induction false} DivertedStays(c: Config, w: World, tok: Queue.Token, ch: Choice, n: nat, m: nat)
    requires tok in w.execs && n <= m && Diverted(Proceeded(c, w, tok, ch, n).execs[tok].pc)
    ensures Diverted(Proceeded(c, w, tok, ch, m).execs[tok].pc)
    ensures Proceeded(c, w, tok, ch, m).calls == Proceeded(c, w, tok, ch, n).calls
  {
    hide StepExec, Diverted, Proceeded;
    if n < m {
      DivertedStays(c, w, tok, ch, n, m - 1);
      ProceedOne(c, w, tok, ch, m - 1);
      DivertedStep(c, Proceeded(c, w, tok, ch, m - 1), tok, ch);
    }
  }

  /** What the executor has found out when it is about to plan. */
  ghost predicate Compared(c: Config, w: World, l: Queue.Lease, k: Case, review: Json) {
    && Validated(c, w.db, l, w.now) == (w.db, Success(k)) && CreatedAt(review).Some?
    && ReadReview(c, w.db, k.path, k.sha) == Some(review)
    && Payload(w.db, k.app, CreatedAt(review).value) == Some(review)
  }

  /** Two steps after its checks an execution is diverted, or has found the review unchanged. */
  lemma ComparedOrDiverted(c: Config, w: World, l: Queue.Lease, ch: Choice)
    ensures var w0 := BeginExec(c, w, l);
      var w2 := Proceeded(c, w0, l.worker, ch, 2);
      && w2.calls == w.calls
      && (Diverted(w2.execs[l.worker].pc)
          || exists k, review :: Compared(c, w, l, k, review) && w2 == Goto(w0, l.worker, Planning(k, review))
                                 && w0.db == w.db && w2.execs[l.worker].lease == l)
  {
    var w0, tok := BeginExec(c, w, l), l.worker;
    var (db, r) := Validated(c, w.db, l, w.now);
    ValidatedKeepsOnSuccess(c, w.db, l, w.now);
    hide Validated, ReadReview, Payload, CreatedAt, Plan, Start, Record, Revoke, Proceeded;
    ProceedOne(c, w0, tok, ch, 0);
    ProceedOne(c, w0, tok, ch, 1);
    if r.Success? {
      var w1 := Proceeded(c, w0, tok, ch, 1);
      if w1.execs[tok].pc.Comparing? {
        var k, review := r.value, w1.execs[tok].pc.review;
        assert w1 == Goto(w0, tok, Comparing(k, review));
        if Payload(w.db, k.app, CreatedAt(review).value) == Some(review) {
          assert Compared(c, w, l, k, review);
          assert Proceeded(c, w0, tok, ch, 2) == Goto(w0, tok, Planning(k, review));
        }
      }
    }
  }

  lemma ValidatedKeepsOnSuccess(c: Config, db: Db, l: Queue.Lease, now: int)
    ensures var (db2, r) := Validated(c, db, l, now);
      r.Success? ==> db2 == db && Fenced(db.queue, l, now).Success? && r.value.approval in db.approvals
                     && r.value.app in db.apps
  {
    hide CaseOf, Fenced;
  }

  /** After the plan: the row is there, and it is planned only if it was or could be. */
  ghost predicate PlanFound(w: World, w3: World, l: Queue.Lease, k: Case, review: Json) {
    && l.worker in w3.execs && w3.execs[l.worker].lease == l && w3.execs[l.worker].pc == Starting(k, review)
    && w3.now == w.now && w3.db == w.db.(actions := w3.db.actions) && k.Key() in w3.db.actions
    && (w3.db.actions[k.Key()].status == Planned ==> MayPlan(w.db, l, k))
  }

  lemma PlanStep(c: Config, w: World, l: Queue.Lease, k: Case, review: Json, ch: Choice)
    requires Compared(c, w, l, k, review) && l.worker in w.execs
    requires w.execs[l.worker].lease == l && w.execs[l.worker].pc == Planning(k, review)
    ensures var w3 := StepExec(c, w, l.worker, ch);
      && w3.calls == w.calls && l.worker in w3.execs
      && (PlanFound(w, w3, l, k, review) || Diverted(w3.execs[l.worker].pc))
  {
    ValidatedKeepsOnSuccess(c, w.db, l, w.now);
    ReadyPlans(w.db, l, k, w.now);
    PlanFrame(w.db, l, k, w.now);
    hide Validated, Payload, ReadReview, CreatedAt, Plan, MayPlan, Fenced, Compared, Start, Record, Revoke;
  }

  /** Only a planned row, an open approval and an application ready for review lead on to a click. */
  lemma StartStep(c: Config, w: World, w3: World, l: Queue.Lease, k: Case, review: Json, ch: Choice)
    requires Compared(c, w, l, k, review) && PlanFound(w, w3, l, k, review)
    ensures var w4 := StepExec(c, w3, l.worker, ch);
      && w4.calls == w3.calls && l.worker in w4.execs
      && (Diverted(w4.execs[l.worker].pc)
          || (w4.execs[l.worker].pc.Clicking? && ReadyToClick(c, w, l, k, review)))
  {
    ValidatedKeepsOnSuccess(c, w.db, l, w.now);
    hide Validated, Payload, ReadReview, CreatedAt, Plan, MayPlan, Fenced, Record, Revoke;
  }

  lemma PlanFrame(db: Db, l: Queue.Lease, k: Case, now: int)
    ensures var r := Plan(db, l, k, now);
      r.Success? ==>
        && r.value.0 == db.(actions := r.value.0.actions)
        && k.Key() in r.value.0.actions && r.value.0.actions[k.Key()].status == r.value.1
  {
    hide Fenced;
  }

  lemma ReadyStarts(c: Config, db: Db, db2: Db, l: Queue.Lease, k: Case, review: Json, now: int)
    requires Fenced(db.queue, l, now).Success? && Unchanged(c, db, k, review)
    requires db2 == WithPlanned(db, l, k)
    requires k.approval in db.approvals && db.approvals[k.approval].status == Approved
    requires k.app in db.apps && db.apps[k.app].status == ReadyToReview
    ensures Startable(db2, k) && Start(c, db2, l, k, review, now) == Success((Authorised(db2, k), true))
  {
    hide Fenced;
  }

  /** And only then: an undisturbed execution makes a click if and only if it was ready. */
  lemma ClicksIffReady(c: Config, w: World, l: Queue.Lease, ch: Choice)
    ensures Proceeded(c, BeginExec(c, w, l), l.worker, ch, 5).calls != w.calls
            <==> exists k, review :: ReadyToClick(c, w, l, k, review)
  {
    var w0, tok := BeginExec(c, w, l), l.worker;
    assert tok in w0.execs && w0.now == w.now;
    hide ReadyToClick, BeginExec, StepExec, Compared, PlanFound, Diverted, Proceeded;
    if k, review :| ReadyToClick(c, w, l, k, review) {
      UndisturbedExecutionClicks(c, w, l, k, review, ch);
    }
    ComparedOrDiverted(c, w, l, ch);
    var w2 := Proceeded(c, w0, tok, ch, 2);
    if Diverted(w2.execs[tok].pc) {
      DivertedStays(c, w0, tok, ch, 2, 5);
    } else {
      var k, review :| Compared(c, w, l, k, review) && w2 == Goto(w0, tok, Planning(k, review))
                       && w0.db == w.db && w2.execs[tok].lease == l;
      NothingElse(c, w, w2, l, k, review);
      PlanStep(c, w2, l, k, review, ch);
      ProceedOne(c, w0, tok, ch, 2);
      var w3 := Proceeded(c, w0, tok, ch, 3);
      if Diverted(w3.execs[tok].pc) {
        DivertedStays(c, w0, tok, ch, 3, 5);
      } else {
        StartStep(c, w2, w3, l, k, review, ch);
        ProceedOne(c, w0, tok, ch, 3);
        if Diverted(Proceeded(c, w0, tok, ch, 4).execs[tok].pc) {
          DivertedStays(c, w0, tok, ch, 4, 5);
        }
      }
    }
  }

  lemma NothingElse(c: Config, w: World, w2: World, l: Queue.Lease, k: Case, review: Json)
    requires w2.db == w.db && w2.now == w.now
    ensures Compared(c, w, l, k, review) == Compared(c, w2, l, k, review)
    ensures ReadyToClick(c, w, l, k, review) == ReadyToClick(c, w2, l, k, review)
  {
  }

  // ---------------------------------------------------------------- where the code differs from a first reading

  /**
   Re-running a confirmed submission never reaches the branch that would return CONFIRMED: recording
   a success moved `current_task_id` on, so an executor that still owns its task finds no success.
   */
  lemma NeverReconfirmed(c: Config, r: Run, n: nat, tok: Queue.Token)
    requires IsRun(c, r) && n <= |r.events|
    requires var w := r.worlds[n];
      && tok in w.execs && w.execs[tok].pc.Planning? && Fenced(w.db.queue, w.execs[tok].lease, w.now).Success?
    ensures var w := r.worlds[n]; StatusOf(w.db, w.execs[tok].pc.k) != Succeeded
  {
    hide Safe;
    RunSafe(c, r, n);
    var w := r.worlds[n];
    AtWork(w, tok);
    hide Fenced, BoundTo, CaseTask;
    var k := w.execs[tok].pc.k;
    if k.Key() in w.db.actions {
      assert TablesOk(w.db) by { SafeTables(w); }
      OthersFailed(w.db, k.app, k.Key());
    }
  }

  lemma SafeTables(w: World)
    requires Safe(w)
    ensures TablesOk(w.db)
  {
  }
}
