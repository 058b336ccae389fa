/**
 What an undisturbed execution does after its checks: it reconciles instead of clicking where an action is open,
 revokes where the review has changed, records what the adapter says, and starts a new review where nothing was sent.
 */
module SubmissionExecution {
  import opened Wrappers
  import opened Json
  import opened Submission
  import opened SubmissionRuns
  import opened SubmissionLaws
  import opened SubmissionOutcomes
  import opened QueueRuns
  import Queue

  /** Where the executor of this lease is. */
  predicate At(w: World, l: Queue.Lease, pc: Pc) {
    l.worker in w.execs && w.execs[l.worker].lease == l && w.execs[l.worker].pc == pc
  }

  /** Only the position of this executor has changed. */
  predicate Moved(w: World, w2: World, l: Queue.Lease, pc: Pc) {
    At(w2, l, pc) && w2 == w.(execs := w2.execs)
  }

  /** The review was read and compared: it goes on exactly if it is readable and what the database says now. */
  lemma ReadingLeads(c: Config, w: World, l: Queue.Lease, k: Case, ch: Choice)
    requires At(w, l, Fetching(k))
    ensures var w2, r := StepExec(c, w, l.worker, ch), ReadReview(c, w.db, k.path, k.sha);
      if r.Some? && CreatedAt(r.value).Some? then Moved(w, w2, l, Comparing(k, r.value))
      else Moved(w, w2, l, Revoking(k))
  {
  }

  lemma ComparingLeads(c: Config, w: World, l: Queue.Lease, k: Case, review: Json, ch: Choice)
    requires At(w, l, Comparing(k, review))
    ensures var w2 := StepExec(c, w, l.worker, ch);
      if CreatedAt(review).Some? && Payload(w.db, k.app, CreatedAt(review).value) == Some(review)
      then Moved(w, w2, l, Planning(k, review)) else Moved(w, w2, l, Revoking(k))
  {
  }

  /** A changed review costs the approval, sends the application back to its review, and ends the execution. */
  lemma RevokingEnds(c: Config, w: World, l: Queue.Lease, k: Case, ch: Choice)
    requires At(w, l, Revoking(k)) && Queue.Passes(w.db.queue, l, w.now)
    requires k.app in w.db.apps && w.db.apps[k.app].status != Submitted
    requires k.approval in w.db.approvals && w.db.approvals[k.approval].status == Approved
    ensures var w2 := StepExec(c, w, l.worker, ch);
      && At(w2, l, Stopped) && w2.calls == w.calls && w2.auths == w.auths && w2.recs == w.recs
      && k.approval in w2.db.approvals && w2.db.approvals[k.approval].status == Revoked
      && k.app in w2.db.apps && w2.db.apps[k.app].status == ReadyToReview && w2.db.apps[k.app].stage == StageReview
  {
    RevocationMeans(w.db, l, k, w.now);
    hide Revoke;
  }

  /** An open action of this case is never clicked again: the adapter is asked what became of it. */
  lemma OpenIsReconciled(c: Config, w: World, l: Queue.Lease, k: Case, review: Json, ch: Choice, ch2: Choice)
    requires At(w, l, Planning(k, review)) && Queue.Passes(w.db.queue, l, w.now) && k.Key() in w.db.actions
    requires w.db.actions[k.Key()] == Action(k.app, l.task, k.approval, k.sha, w.db.actions[k.Key()].status)
    requires w.db.actions[k.Key()].status in {Executing, UnknownResult}
    ensures var w2 := StepExec(c, StepExec(c, w, l.worker, ch), l.worker, ch2);
      Moved(w, w2, l, Recording(k, ch2.outcome))
  {
    assert Fenced(w.db.queue, l, w.now).Success?;
    hide Fenced, Queue.Passes, Record, Start, Revoke, ReadReview, Payload, ScheduleNewReview;
    assert Plan(w.db, l, k, w.now) == Success((w.db, w.db.actions[k.Key()].status));
    hide Plan;
    var w1 := StepExec(c, w, l.worker, ch);
    assert Moved(w, w1, l, Reconciling(k, review));
  }

  /** Whatever the adapter answers to the click is what is about to be recorded, and it is called once. */
  lemma ClickingLeads(c: Config, w: World, l: Queue.Lease, k: Case, review: Json, ch: Choice)
    requires At(w, l, Clicking(k, review))
    ensures var w2 := StepExec(c, w, l.worker, ch);
      && At(w2, l, Recording(k, ch.outcome)) && w2.calls == w.calls + [Call(k.Key(), l.worker, review)]
      && w2.db == w.db && w2.auths == w.auths && w2.recs == w.recs && w2.now == w.now
  {
  }

  /** A recorded outcome stands; the execution ends, or schedules a new review where nothing was submitted. */
  lemma RecordingEnds(c: Config, w: World, l: Queue.Lease, k: Case, outcome: Outcome, ch: Choice)
    requires At(w, l, Recording(k, outcome))
    requires Record(w.db, l, k.Key(), outcome, ch.first, ch.second, w.now).Success?
    ensures var w2 := StepExec(c, w, l.worker, ch);
      && At(w2, l, if outcome == NotSubmitted then Scheduling(k) else Stopped)
      && w2.recs == w.recs + [Rec(k.Key(), outcome)] && w2.calls == w.calls && w2.auths == w.auths
      && w2.now == w.now && OnlyOutcome(w.db, w2.db, k.Key())
      && (match outcome
          case Confirmed => Stands(w2.db, k.Key(), Succeeded, Submitted, StagePostSubmission)
          case Unknown => Stands(w2.db, k.Key(), UnknownResult, SubmissionUnknown, StageSubmission)
          case NotSubmitted => Stands(w2.db, k.Key(), Failed, ReadyToReview, StageReview))
      && (outcome == NotSubmitted ==> w2.db.queue == w.db.queue)
  {
    OutcomeStands(w.db, l, k.Key(), outcome, ch.first, ch.second, w.now);
    hide Record;
  }

  /** Nothing was submitted, so the same execution ends with a new review task that is the application's current one. */
  lemma NothingSubmittedStartsOver(c: Config, w: World, l: Queue.Lease, k: Case, ch: Choice, ch2: Choice)
    requires At(w, l, Recording(k, NotSubmitted)) && KeysOk(w.db.queue)
    requires Record(w.db, l, k.Key(), NotSubmitted, ch.first, ch.second, w.now).Success?
    requires ch2.first !in w.db.queue.rows && [Str("create_review"), Id(k.app), Id(ch2.token)] !in w.db.queue.keys
    ensures var w2 := StepExec(c, w, l.worker, ch);
      var w3 := StepExec(c, w2, l.worker, ch2);
      && At(w3, l, Stopped) && k.app in w2.db.apps && k.app in w3.db.apps
      && Startover(w2.db, w3.db, k.app, ch2.token, ch2.first)
      && w3.db.apps[k.app].current == ch2.first && w3.db.apps[k.app].status == ReadyToReview
  {
    RecordingEnds(c, w, l, k, NotSubmitted, ch);
    var w2 := StepExec(c, w, l.worker, ch);
    RestartMeans(w2.db, l, k.app, ch2.token, ch2.first, w2.now);
    assert Fenced(w.db.queue, l, w.now).Success?;
    hide Record, ScheduleNewReview, Fenced;
  }
}
