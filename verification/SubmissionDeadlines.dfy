/**
 Approval deadlines.  The checks that open an execution look at the deadline; the transaction that
 authorises the click, which may come later, does not, and the click itself, which comes later still and
 outside any transaction, looks at nothing.  Here is exactly when each of the two can be late.
 */
module SubmissionDeadlines {
  import opened Wrappers
  import opened Json
  import opened Submission
  import opened SubmissionRuns
  import opened SubmissionLaws
  import opened QueueRuns
  import Queue

  /**
   An execution whose checks, reads and plan happen now and whose authorisation is tried at `later`.  In
   between the queue may have become `q`, for example by heartbeats; nothing else changes.
   */
  function Delayed(c: Config, w: World, l: Queue.Lease, ch: Choice, q: Queue.Store, later: int): (w2: World)
    ensures l.worker in w2.execs
  {
    var w3 := Waiting(c, w, l, ch, q).(now := later);
    KeepsToken(c, w3, l.worker, ch);
    StepExec(c, w3, l.worker, ch)
  }

  lemma KeepsToken(c: Config, w: World, tok: Queue.Token, ch: Choice)
    requires tok in w.execs
    ensures tok in StepExec(c, w, tok, ch).execs
  {
    hide Fenced, Plan, Start, Record, Revoke, ReadReview, Payload, ScheduleNewReview, CreatedAt;
  }

  function Waiting(c: Config, w: World, l: Queue.Lease, ch: Choice, q: Queue.Store): (w2: World)
    ensures l.worker in w2.execs
  {
    var w3 := Proceeded(c, BeginExec(c, w, l), l.worker, ch, 3);
    w3.(db := w3.db.(queue := q))
  }

  ghost predicate Authorises(w: World, w2: World, l: Queue.Lease, k: Case, review: Json) {
    w2.auths == w.auths + [Auth(k.Key(), k.approval, l.worker, review)]
  }

  /** The delayed authorisation succeeds exactly while the lease passes; the deadline plays no part. */
  lemma LateAuthorisationIff(c: Config, w: World, l: Queue.Lease, k: Case, review: Json, ch: Choice, q: Queue.Store,
      later: int)
    requires ReadyToClick(c, w, l, k, review)
    ensures Authorises(w, Delayed(c, w, l, ch, q, later), l, k, review) <==> Fenced(q, l, later).Success?
    ensures var w2 := Delayed(c, w, l, ch, q, later);
      Authorises(w, w2, l, k, review) ==>
        l.worker in w2.execs && w2.execs[l.worker].pc == Clicking(k, review) && w2.calls == w.calls
  {
    WaitingStarts(c, w, l, k, review, ch, q);
    ReadyFacts(c, w, l, k, review);
    var db := w.db.(queue := q);
    if Fenced(q, l, later).Success? {
      SameUnchanged(c, w.db, q, k, review);
      ReadyStarts(c, db, WithPlanned(db, l, k), l, k, review, later);
    }
    hide ReadyToClick, Waiting, Fenced, Payload, ReadReview, CreatedAt, Unchanged;
  }

  /** The execution stands before its authorisation, and the row is planned. */
  lemma WaitingStarts(c: Config, w: World, l: Queue.Lease, k: Case, review: Json, ch: Choice, q: Queue.Store)
    requires ReadyToClick(c, w, l, k, review)
    ensures Waiting(c, w, l, ch, q)
         == w.(db := WithPlanned(w.db.(queue := q), l, k),
               execs := w.execs[l.worker := Exec(l, Starting(k, review), w.now)])
  {
    UndisturbedPlans(c, w, l, k, review, ch);
    hide ReadyToClick, BeginExec, Proceeded;
  }

  lemma SameUnchanged(c: Config, db: Db, q: Queue.Store, k: Case, review: Json)
    ensures Unchanged(c, db.(queue := q), k, review) == Unchanged(c, db, k, review)
  {
  }

  // ---------------------------------------------------------------- the authorisation

  /** A moment from `since` on at which the delayed authorisation succeeds although the approval has expired. */
  ghost predicate AuthorisesLate(c: Config, w: World, l: Queue.Lease, k: Case, review: Json, ch: Choice,
                                 q: Queue.Store, since: int, later: int)
  {
    && later >= since && k.approval in w.db.approvals
    && Authorises(w, Delayed(c, w, l, ch, q, later), l, k, review) && PastDeadline(w.db.approvals[k.approval], later)
  }

  /** The lease, as the queue has it, runs past the approval's deadline. */
  predicate LeaseOutlivesApproval(db: Db, q: Queue.Store, l: Queue.Lease, k: Case) {
    && k.approval in db.approvals && db.approvals[k.approval].validUntil.Some?
    && l.task in q.rows && q.rows[l.task].leaseExpiresAt.Some?
    && db.approvals[k.approval].validUntil.value < q.rows[l.task].leaseExpiresAt.value
  }

  /**
   An execution that is ready to click, and whose lease passes at `since` with the queue as it is then, can be
   authorised after the deadline if and only if its lease, as last renewed, outlives the approval.
   */
  lemma AuthorisesLateIff(c: Config, w: World, l: Queue.Lease, k: Case, review: Json, ch: Choice, q: Queue.Store,
      since: int)
    requires ReadyToClick(c, w, l, k, review) && Queue.Passes(q, l, since)
    ensures (exists later :: AuthorisesLate(c, w, l, k, review, ch, q, since, later)) <==>
      LeaseOutlivesApproval(w.db, q, l, k)
  {
    ReadyInTime(c, w, l, k, review);
    hide ReadyToClick, Delayed;
    if LeaseOutlivesApproval(w.db, q, l, k) {
      var deadline := w.db.approvals[k.approval].validUntil.value * 1000;
      var later := if deadline <= since then since else deadline;
      LateAuthorisationIff(c, w, l, k, review, ch, q, later);
      assert AuthorisesLate(c, w, l, k, review, ch, q, since, later);
    }
    if later :| AuthorisesLate(c, w, l, k, review, ch, q, since, later) {
      LateAuthorisationIff(c, w, l, k, review, ch, q, later);
    }
  }

  /** Without any queue work in between: the lease and the approval as they are when the execution is ready. */
  lemma AuthorisesLateUnrenewedIff(c: Config, w: World, l: Queue.Lease, k: Case, review: Json, ch: Choice)
    requires ReadyToClick(c, w, l, k, review)
    ensures (exists later :: AuthorisesLate(c, w, l, k, review, ch, w.db.queue, w.now, later))
            <==> w.db.approvals[k.approval].validUntil.value < w.db.queue.rows[l.task].leaseExpiresAt.value
  {
    ReadyInTime(c, w, l, k, review);
    AuthorisesLateIff(c, w, l, k, review, ch, w.db.queue, w.now);
  }

  /** The deadline is still ahead and the lease passes when the execution is ready. */
  lemma ReadyInTime(c: Config, w: World, l: Queue.Lease, k: Case, review: Json)
    requires ReadyToClick(c, w, l, k, review)
    ensures k.approval in w.db.approvals && w.db.approvals[k.approval].validUntil.Some?
    ensures !PastDeadline(w.db.approvals[k.approval], w.now) && Queue.Passes(w.db.queue, l, w.now)
  {
    hide CaseOf, Unchanged;
  }

  // ---------------------------------------------------------------- the click

  /** The execution whose authorisation is tried at `authorised` takes its next step at `clicked`. */
  function Clicked(c: Config, w: World, l: Queue.Lease, ch: Choice, q: Queue.Store, authorised: int, clicked: int)
    : World
  {
    StepExec(c, Delayed(c, w, l, ch, q, authorised).(now := clicked), l.worker, ch)
  }

  ghost predicate Clicks(w: World, w2: World, l: Queue.Lease, k: Case, review: Json) {
    w2.calls == w.calls + [Call(k.Key(), l.worker, review)]
  }

  /** The click is made if and only if the lease passed at the authorisation; the moment of the click is free. */
  lemma ClickIff(c: Config, w: World, l: Queue.Lease, k: Case, review: Json, ch: Choice, q: Queue.Store,
      authorised: int, clicked: int)
    requires ReadyToClick(c, w, l, k, review)
    ensures Clicks(w, Clicked(c, w, l, ch, q, authorised, clicked), l, k, review)
            <==> Fenced(q, l, authorised).Success?
  {
    LateAuthorisationIff(c, w, l, k, review, ch, q, authorised);
    NotAuthorised(c, w, l, k, review, ch, q, authorised);
    hide ReadyToClick, Delayed, Fenced, Record, Revoke, Plan, Start;
    var w2 := Delayed(c, w, l, ch, q, authorised).(now := clicked);
    if Fenced(q, l, authorised).Success? {
      assert w2.execs[l.worker].pc == Clicking(k, review);
    } else {
      DivertedStep(c, w2, l.worker, ch);
    }
  }

  lemma NotAuthorised(c: Config, w: World, l: Queue.Lease, k: Case, review: Json, ch: Choice, q: Queue.Store,
      authorised: int)
    requires ReadyToClick(c, w, l, k, review)
    ensures var w2 := Delayed(c, w, l, ch, q, authorised);
      && l.worker in w2.execs
      && (Fenced(q, l, authorised).Failure? ==> w2.execs[l.worker].pc == Stopped && w2.calls == w.calls)
  {
    WaitingStarts(c, w, l, k, review, ch, q);
    hide ReadyToClick, Waiting, Fenced, Payload, ReadReview, CreatedAt, Unchanged;
  }

  /** A ready execution that is authorised at once can click at every later moment, whatever its lease. */
  lemma ReadyMayClickAnyTime(c: Config, w: World, l: Queue.Lease, k: Case, review: Json, ch: Choice, clicked: int)
    requires ReadyToClick(c, w, l, k, review)
    ensures Clicks(w, Clicked(c, w, l, ch, w.db.queue, w.now, clicked), l, k, review)
  {
    ReadyFacts(c, w, l, k, review);
    ClickIff(c, w, l, k, review, ch, w.db.queue, w.now, clicked);
  }

  /** Authorised from `since` on, clicked within `delay` of that, and the approval had expired by then. */
  ghost predicate ClicksLate(c: Config, w: World, l: Queue.Lease, k: Case, review: Json, ch: Choice, q: Queue.Store,
                             since: int, delay: nat, authorised: int, clicked: int)
  {
    && since <= authorised <= clicked <= authorised + delay && k.approval in w.db.approvals
    && Clicks(w, Clicked(c, w, l, ch, q, authorised, clicked), l, k, review)
    && PastDeadline(w.db.approvals[k.approval], clicked)
  }

  /** The last moment of the lease, plus the delay, is not before the deadline. */
  predicate DelayOutlivesApproval(db: Db, q: Queue.Store, l: Queue.Lease, k: Case, delay: nat) {
    && k.approval in db.approvals && db.approvals[k.approval].validUntil.Some?
    && l.task in q.rows && q.rows[l.task].leaseExpiresAt.Some?
    && db.approvals[k.approval].validUntil.value * 1000 <= q.rows[l.task].leaseExpiresAt.value * 1000 - 1 + delay
  }

  /**
   If the click follows its authorisation within `delay`, it can come after the deadline if and only if the
   lease and the delay together reach the deadline.  Nothing in the code bounds the delay.
   */
  lemma ClicksLateIff(c: Config, w: World, l: Queue.Lease, k: Case, review: Json, ch: Choice, q: Queue.Store,
      since: int, delay: nat)
    requires ReadyToClick(c, w, l, k, review) && Queue.Passes(q, l, since)
    ensures (exists authorised, clicked :: ClicksLate(c, w, l, k, review, ch, q, since, delay, authorised, clicked))
            <==> DelayOutlivesApproval(w.db, q, l, k, delay)
  {
    ReadyInTime(c, w, l, k, review);
    hide ReadyToClick, ClicksLate, LateMoments, DelayOutlivesApproval;
    LateMomentsIff(w.db, q, l, k, since, delay);
    forall authorised, clicked
      ensures ClicksLate(c, w, l, k, review, ch, q, since, delay, authorised, clicked)
              <==> LateMoments(w.db, q, l, k, since, delay, authorised, clicked)
    {
      LateClickIff(c, w, l, k, review, ch, q, since, delay, authorised, clicked);
    }
  }

  /** Without a bound a late click is always possible, even with an authorisation at once. */
  lemma LateClickIsPossible(c: Config, w: World, l: Queue.Lease, k: Case, review: Json, ch: Choice)
    requires ReadyToClick(c, w, l, k, review)
    ensures exists delay: nat, clicked :: ClicksLate(c, w, l, k, review, ch, w.db.queue, w.now, delay, w.now, clicked)
  {
    ReadyInTime(c, w, l, k, review);
    hide ReadyToClick, ClicksLate;
    var deadline := w.db.approvals[k.approval].validUntil.value * 1000;
    LateClickIff(c, w, l, k, review, ch, w.db.queue, w.now, deadline - w.now, w.now, deadline);
    assert ClicksLate(c, w, l, k, review, ch, w.db.queue, w.now, deadline - w.now, w.now, deadline);
  }

  ghost predicate LateMoments(db: Db, q: Queue.Store, l: Queue.Lease, k: Case, since: int, delay: nat, authorised: int,
                              clicked: int)
  {
    && since <= authorised <= clicked <= authorised + delay && k.approval in db.approvals
    && Queue.Passes(q, l, authorised) && PastDeadline(db.approvals[k.approval], clicked)
  }

  lemma LateMomentsIff(db: Db, q: Queue.Store, l: Queue.Lease, k: Case, since: int, delay: nat)
    requires Queue.Passes(q, l, since) && k.approval in db.approvals && db.approvals[k.approval].validUntil.Some?
    ensures (exists authorised, clicked :: LateMoments(db, q, l, k, since, delay, authorised, clicked))
            <==> DelayOutlivesApproval(db, q, l, k, delay)
  {
    var authorised := q.rows[l.task].leaseExpiresAt.value * 1000 - 1;
    if DelayOutlivesApproval(db, q, l, k, delay) {
      assert LateMoments(db, q, l, k, since, delay, authorised, authorised + delay);
    }
  }

  lemma LateClickIff(c: Config, w: World, l: Queue.Lease, k: Case, review: Json, ch: Choice, q: Queue.Store,
      since: int, delay: nat, authorised: int, clicked: int)
    requires ReadyToClick(c, w, l, k, review)
    ensures ClicksLate(c, w, l, k, review, ch, q, since, delay, authorised, clicked)
            <==> LateMoments(w.db, q, l, k, since, delay, authorised, clicked)
  {
    ClickIff(c, w, l, k, review, ch, q, authorised, clicked);
    FencedMeansPasses(q, l, authorised);
    hide ReadyToClick, Clicked, Clicks, Fenced, Queue.Passes, PastDeadline;
  }

  lemma FencedMeansPasses(q: Queue.Store, l: Queue.Lease, now: int)
    ensures Fenced(q, l, now).Success? <==> Queue.Passes(q, l, now)
  {
  }

  // ---------------------------------------------------------------- authorised clicks over whole runs

  ghost predicate Made(w: World, a: Auth) {
    exists j :: 0 <= j < |w.calls| && w.calls[j].key == a.key
  }

  /** The executor stands before the click. */
  ghost predicate AboutToClick(w: World, a: Auth) {
    && a.token in w.execs && w.execs[a.token].pc.Clicking? && w.execs[a.token].pc.k.Key() == a.key
    && w.execs[a.token].pc.review == a.review
  }

  ghost predicate Settled(w: World, a: Auth) {
    Made(w, a) || AboutToClick(w, a)
  }

  ghost predicate AllSettled(w: World) {
    forall i :: 0 <= i < |w.auths| ==> Settled(w, w.auths[i])
  }

  /** Clicks are only added, and an executor before its click moves on by making it. */
  lemma StepSettles(c: Config, w: World, tok: Queue.Token, ch: Choice, a: Auth)
    requires tok in w.execs && Settled(w, a)
    ensures Settled(StepExec(c, w, tok, ch), a)
  {
    hide Fenced, Plan, Start, Record, Revoke, ReadReview, Payload, ScheduleNewReview, CreatedAt;
    var w2 := StepExec(c, w, tok, ch);
    if j :| 0 <= j < |w.calls| && w.calls[j].key == a.key {
      assert w2.calls[j] == w.calls[j];
    } else if tok == a.token {
      assert w2.calls[|w.calls|].key == a.key;
    }
  }

  /** An authorisation puts its executor before the click. */
  lemma StepAuthorises(c: Config, w: World, tok: Queue.Token, ch: Choice)
    requires tok in w.execs
    ensures var w2 := StepExec(c, w, tok, ch);
      w2.auths == w.auths || exists a :: w2.auths == w.auths + [a] && AboutToClick(w2, a)
  {
    hide Fenced, Plan, Start, Record, Revoke, ReadReview, Payload, ScheduleNewReview, CreatedAt;
    var w2 := StepExec(c, w, tok, ch);
    if w.execs[tok].pc.Starting? && w2.execs[tok].pc.Clicking? {
      var k, review := w.execs[tok].pc.k, w.execs[tok].pc.review;
      assert AboutToClick(w2, Auth(k.Key(), k.approval, tok, review));
    }
  }

  lemma HappenSettles(c: Config, w0: World, at: At)
    requires May(w0, at) && AllSettled(w0)
    ensures AllSettled(Happen(c, w0, at))
  {
    var w, w2 := w0.(now := at.now), Happen(c, w0, at);
    if at.event.Proceed? && at.event.exec in w.execs {
      hide May, Happen, StepExec, AboutToClick;
      assert w2 == StepExec(c, w, at.event.exec, at.event.choice) by { ProceedIs(c, w0, at); }
      forall i | 0 <= i < |w.auths| ensures Settled(w2, w.auths[i]) {
        SettledAnyTime(w0, at.now, w.auths[i]);
        StepSettles(c, w, at.event.exec, at.event.choice, w.auths[i]);
      }
      StepAuthorises(c, w, at.event.exec, at.event.choice);
    } else {
      EnvironmentSettles(c, w0, at);
    }
  }

  lemma SettledAnyTime(w: World, now: int, a: Auth)
    ensures Settled(w, a) == Settled(w.(now := now), a)
  {
    assert w.calls == w.(now := now).calls;
  }

  lemma ProceedIs(c: Config, w: World, at: At)
    requires at.event.Proceed? && at.event.exec in w.execs
    ensures Happen(c, w, at) == StepExec(c, w.(now := at.now), at.event.exec, at.event.choice)
  {
    hide StepExec;
  }

  /** Nobody else moves an executor, and an execution begins with a token of its own. */
  lemma EnvironmentSettles(c: Config, w0: World, at: At)
    requires May(w0, at) && AllSettled(w0) && !(at.event.Proceed? && at.event.exec in w0.execs)
    ensures AllSettled(Happen(c, w0, at))
  {
    var w2 := Happen(c, w0, at);
    assert w2.auths == w0.auths && w2.calls == w0.calls && forall tok :: tok in w0.execs ==>
      tok in w2.execs && w2.execs[tok] == w0.execs[tok] by { EnvironmentFrame(c, w0, at); }
    hide Happen, May;
    forall i | 0 <= i < |w2.auths| ensures Settled(w2, w2.auths[i]) {
      assert Settled(w0, w0.auths[i]);
    }
  }

  lemma EnvironmentFrame(c: Config, w0: World, at: At)
    requires May(w0, at) && !(at.event.Proceed? && at.event.exec in w0.execs)
    ensures var w2 := Happen(c, w0, at);
      && w2.auths == w0.auths && w2.calls == w0.calls
      && forall tok :: tok in w0.execs ==> tok in w2.execs && w2.execs[tok] == w0.execs[tok]
  {
    hide Apply, Fenced, Spawn, Prepare, Submission.Recover, Validated, FormApplication, FinishForm, Queue.Create,
      LegalOp;
  }

  lemma {:induction false} RunSettles(c: Config, r: Run, n: nat)
    requires IsRun(c, r) && n <= |r.events|
    ensures AllSettled(r.worlds[n])
  {
    hide May, Happen;
    if n > 0 {
      RunSettles(c, r, n - 1);
      assert EventAt(c, r, n - 1);
      HappenSettles(c, r.worlds[n - 1], r.events[n - 1]);
    }
  }

  /**
   In every state of every run, an authorised click that has not been made yet can be made at every later
   moment, with the review that was authorised, whatever has become of the lease, the approval and the tables.
   */
  lemma AuthorisedMayClick(c: Config, r: Run, n: nat, i: nat, later: int, ch: Choice)
    requires IsRun(c, r) && n <= |r.events| && i < |r.worlds[n].auths| && later >= r.worlds[n].now
    requires forall j :: 0 <= j < |r.worlds[n].calls| ==> r.worlds[n].calls[j].key != r.worlds[n].auths[i].key
    ensures var w := r.worlds[n];
      var a := w.auths[i];
      && May(w, At(later, Proceed(a.token, ch)))
      && Happen(c, w, At(later, Proceed(a.token, ch))).calls == w.calls + [Call(a.key, a.token, a.review)]
  {
    RunSettles(c, r, n);
    var w := r.worlds[n];
    assert Settled(w, w.auths[i]);
    assert AboutToClick(w, w.auths[i]);
  }
}
