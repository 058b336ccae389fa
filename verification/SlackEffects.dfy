/**
 What a processed Slack callback does: a decision is the one that the user pressed, and stays so; an answer
 reaches the task that asked; links become one task.
 */
module SlackEffects {
  import opened Wrappers
  import opened Json
  import opened Submission
  import opened SlackInbox
  import opened QueueRuns
  import opened QueueLaws
  import Queue

  /** The approval carries this user's decision, and is what it was in everything else. */
  predicate Carries(was: Approval, row: Approval, user: User, approve: bool) {
    && row.decidedBy == Some(user) && (approve ==> row.status == Approved) && (!approve ==> row.status == Rejected)
    && row.app == was.app && row.task == was.task && row.path == was.path && row.sha == was.sha
    && row.validUntil == was.validUntil
  }

  /** The task got this reply to its interrupt and waits for a worker, unless it had got the same reply before. */
  ghost predicate Replied(q: Queue.Store, q2: Queue.Store, task: Queue.TaskId, interrupt: string, value: Json) {
    && task in q.rows && task in q2.rows && q2.rows == q.rows[task := q2.rows[task]]
    && q2.rows[task].identity == q.rows[task].identity && q2.rows[task].attempts == q.rows[task].attempts
    && RESUME in q2.rows[task].Memory()
    && q2.rows[task].Memory()[RESUME] == Obj(map["interrupt_id" := Str(interrupt), "value" := value])
    && (q2 == q || (q.rows[task].status == Queue.WaitingHuman && q2.rows[task].status == Queue.Ready
                    && interrupt in PendingInterrupts(q.rows[task].Memory())))
  }

  lemma ResumeReplies(c: Queue.Config, q: Queue.Store, task: Queue.TaskId, interrupt: string, value: Json, now: int)
    ensures var r := Queue.Resume(c, q, task, interrupt, value, now);
      r.Success? ==> Replied(q, r.value, task, interrupt, value)
  {
  }

  // ---------------------------------------------------------------- one callback

  /** A committed decision is the user's, on an approval that was open or already decided so by the same user. */
  lemma DecisionIsTheUsers(c: Queue.Config, t: Tables, id: EventId, a: ApprovalId, user: User, approve: bool,
      resume: Option<(Queue.TaskId, string)>, now: int)
    ensures var r := Perform(c, t, id, Decision(a, user, approve, resume), now);
      r.Success? ==>
        && a in t.approvals && a in r.value.approvals && r.value.approvals == t.approvals[a := r.value.approvals[a]]
        && Carries(t.approvals[a], r.value.approvals[a], user, approve)
        && (t.approvals[a].status == Pending || r.value.approvals == t.approvals)
        && (if resume.None? then r.value.queue == t.queue
            else Replied(t.queue, r.value.queue, resume.value.0, resume.value.1,
                         Obj(map["approval_id" := Id(a),
                                 "decision" := Str(if approve then "APPROVED" else "REJECTED"),
                                 "user_id" := Id(user), "event_id" := id])))
  {
    if resume.Some? {
      ResumeReplies(c, t.queue, resume.value.0, resume.value.1, DecisionReply(id, a, user, approve), now);
    }
    hide Queue.Resume, Replied;
  }

  /** An open approval without a waiting task can always be decided; a decided one never otherwise or by another. */
  lemma DecidedIsDecided(c: Queue.Config, t: Tables, id: EventId, a: ApprovalId, user: User, approve: bool,
      resume: Option<(Queue.TaskId, string)>, now: int)
    requires a in t.approvals
    ensures t.approvals[a].status == Pending && resume.None? ==>
      Perform(c, t, id, Decision(a, user, approve, resume), now).Success?
    ensures t.approvals[a].status != Pending && !Carries(t.approvals[a], t.approvals[a], user, approve) ==>
      Perform(c, t, id, Decision(a, user, approve, resume), now) == Failure(InputRefused)
  {
    hide Queue.Resume;
  }

  /** An answer reaches the task that asked, and nothing else changes. */
  lemma AnswerReachesTask(c: Queue.Config, t: Tables, id: EventId, task: Queue.TaskId, interrupt: string, answer: Json,
      user: User, now: int)
    ensures var r := Perform(c, t, id, Answer(task, interrupt, answer, user), now);
      r.Success? ==>
        && r.value.approvals == t.approvals && r.value.events == t.events
        && Replied(t.queue, r.value.queue, task, interrupt,
                   Obj(map["answer" := answer, "user_id" := Id(user), "event_id" := id]))
  {
    ResumeReplies(c, t.queue, task, interrupt, AnswerReply(id, answer, user), now);
    hide Queue.Resume, Replied;
  }

  /** The task that the links of this event become. */
  predicate CarriesLinks(row: Queue.Task, id: EventId, urls: Json) {
    && row.identity.taskType == "RETRIEVE_LINKS" && row.identity.dedupeKey == Some([Str("retrieve_links"), id])
    && row.identity.payload == map["slack_event_id" := id, "urls" := urls]
    && row.priority == 100 && row.maxAttempts == 3
  }

  /** Links become one task, a new one that waits for a worker unless this event made it before; none become none. */
  lemma LinksBecomeOneTask(c: Queue.Config, t: Tables, id: EventId, urls: Json, drawn: Queue.TaskId, now: int)
    requires KeysOk(t.queue)
    ensures var r := Perform(c, t, id, Links(urls, drawn), now);
      r.Success? ==>
        && r.value.approvals == t.approvals && r.value.events == t.events
        && (urls == Arr([]) ==> r.value == t)
        && (urls != Arr([]) ==>
              if [Str("retrieve_links"), id] in t.queue.keys then
                r.value == t
                && t.queue.rows[t.queue.keys[[Str("retrieve_links"), id]]].identity.payload
                   == map["slack_event_id" := id, "urls" := urls]
              else
                && drawn !in t.queue.rows && drawn in r.value.queue.rows
                && r.value.queue.rows == t.queue.rows[drawn := r.value.queue.rows[drawn]]
                && r.value.queue.rows[drawn].status == Queue.Ready && r.value.queue.rows[drawn].attempts == 0
                && CarriesLinks(r.value.queue.rows[drawn], id, urls))
  {
  }

  /** Input is refused where the task no longer asks; a missing task or too large a memory is no such refusal. */
  lemma AnswerIsRefusedIff(c: Queue.Config, t: Tables, id: EventId, task: Queue.TaskId, interrupt: string,
      answer: Json, user: User, now: int)
    ensures var r, m := Perform(c, t, id, Answer(task, interrupt, answer, user), now),
        if task in t.queue.rows then t.queue.rows[task].Memory() else map[];
      && (r == Failure(InputRefused) <==>
            && task in t.queue.rows
            && (t.queue.rows[task].status != Queue.WaitingHuman || interrupt !in PendingInterrupts(m))
            && !(RESUME in m && m[RESUME] == Reply(interrupt, AnswerReply(id, answer, user))))
      && (task !in t.queue.rows ==> r == Failure(Raised(Queue.RecordNotFound)))
  {
    hide PendingInterrupts;
  }

  /** Links are never refused as input: their task is made, or something else is raised. */
  lemma LinksAreNotRefused(c: Queue.Config, t: Tables, id: EventId, urls: Json, drawn: Queue.TaskId, now: int)
    ensures var r := Perform(c, t, id, Links(urls, drawn), now);
      && r != Failure(InputRefused)
      && (drawn !in t.queue.rows && [Str("retrieve_links"), id] !in t.queue.keys ==> r.Success?)
  {
  }

  /** The stored event that the lease is for still waits, and its content is what the lease carries. */
  predicate UpForProcessing(t: Tables, l: Queue.Lease) {
    && "slack_event_id" in l.payload && l.payload["slack_event_id"] in t.events
    && t.events[l.payload["slack_event_id"]].progress == Waiting
    && "event" in l.payload && t.events[l.payload["slack_event_id"]].sha == Hash(Canonical(l.payload["event"]))
  }

  /** An effect is committed exactly for such an event, by a lease that passes, if the effect succeeds. */
  lemma CommitsIff(c: Queue.Config, t: Tables, l: Queue.Lease, e: Option<Effect>, now: int)
    requires "slack_event_id" in l.payload && "event" in l.payload
    ensures var r, id := Process(c, t, l, e, now), l.payload["slack_event_id"];
      && (r.Success? && r.value.1 <==>
            && Queue.Passes(t.queue, l, now) && UpForProcessing(t, l)
            && e.Some? && Perform(c, t, id, e.value, now).Success?)
      && (Queue.Passes(t.queue, l, now) && id in t.events ==>
            && (t.events[id].progress == Waiting && !UpForProcessing(t, l) ==> r == Failure(HashMismatch))
            && (t.events[id].progress != Waiting ==> r == Success((t, false))))
  {
    hide Perform;
  }

  /** A waiting event is marked as its effect went, with nothing else committed where the input was refused. */
  lemma MarkTellsOutcome(c: Queue.Config, t: Tables, l: Queue.Lease, e: Option<Effect>, now: int)
    ensures var r, id := Process(c, t, l, e, now), EventOf(l);
      r.Success? && t.events[id].progress == Waiting ==>
        && id in r.value.0.events && r.value.0.events == t.events[id := r.value.0.events[id]]
        && Queue.Passes(t.queue, l, now)
        && (r.value.1 ==> r.value.0.events[id].progress == Processed && e.Some?
                          && Perform(c, t, id, e.value, now).Success?
                          && r.value.0 == Perform(c, t, id, e.value, now).value.(events := r.value.0.events))
        && (!r.value.1 ==> r.value.0.events[id].progress == Dropped && r.value.0 == t.(events := r.value.0.events)
                           && (e.Some? ==> Perform(c, t, id, e.value, now) == Failure(InputRefused)))
  {
    if e.Some? {
      PerformLeaves(c, t, EventOf(l), e.value, now);
    }
    hide Perform;
  }

  predicate Numbered(cb: Callback) {
    cb.provider.Some? && |cb.provider.value| > 0
  }

  /** Which callbacks are one event: the provider's number decides, and without one the content. */
  lemma SameEventIff(a: Callback, b: Callback)
    ensures IdOf(a) == IdOf(b) <==>
      if Numbered(a) then b.provider == a.provider else !Numbered(b) && a.value == b.value
    ensures KindOf(a) == KindOf(b) <==> a.urls == b.urls && (a.urls || a.value == b.value)
    ensures a.urls ==> KindOf(a) == Str("message")
  {
    if IdOf(a).Arr? && IdOf(a) == IdOf(b) {
      assert IdOf(a).items[1] == IdOf(b).items[1];
    }
    if KindOf(a).Arr? && KindOf(a) == KindOf(b) {
      assert KindOf(a).items[1] == KindOf(b).items[1];
    }
  }

  /** A callback is taken for an earlier one exactly by its id, or by channel, time stamp and kind together. */
  lemma TakenForEarlierIff(t: Tables, cb: Callback)
    ensures Earlier(t.events, cb).None? <==>
      IdOf(cb) !in t.events
      && forall e :: e in t.events ==>
           t.events[e].channel != cb.channel || t.events[e].ts != cb.ts || t.events[e].kind != KindOf(cb)
  {
    if Earlier(t.events, cb).None? {
      forall e | e in t.events
        ensures t.events[e].channel != cb.channel || t.events[e].ts != cb.ts || t.events[e].kind != KindOf(cb)
      {
        assert !SameIdentity(t.events[e], cb);
      }
    }
  }

  /** What `receive` stores is what its processing task is checked against: the claimed lease finds its event. */
  lemma ReceivedCanBeProcessed(c: Queue.Config, t: Tables, cb: Callback, drawn: Queue.TaskId, now: int, token: nat)
    requires Receive(t, cb, drawn, now).Success? && Earlier(t.events, cb).None? && KeysOk(t.queue)
    requires DedupeOf(IdOf(cb)) !in t.queue.keys
    ensures var (t2, id) := Receive(t, cb, drawn, now).value;
      && id in t2.events && t2.events[id].progress == Waiting && t2.approvals == t.approvals
      && drawn in t2.queue.rows && Queue.Eligible(t2.queue.rows[drawn], {PROCESS}, Queue.Stamp(now))
      && var l := Queue.Lease(drawn, token, 1, PROCESS, t2.queue.rows[drawn].identity.payload);
         && EventOf(l) == id && Hash(Canonical(Field(l.payload, "event"))) == t2.events[id].sha
         && t2.events[id].channel == cb.channel && t2.events[id].ts == cb.ts && t2.events[id].kind == KindOf(cb)
         && t2.queue.rows[drawn].priority == 100 && t2.queue.rows[drawn].maxAttempts == 3
  {
  }

  // ---------------------------------------------------------------- over whole runs

  /** The statuses of decided approvals are left alone; approvals may be added, expire, be revoked or consumed. */
  predicate LeavesDecisions(before: map<ApprovalId, Approval>, after: map<ApprovalId, Approval>) {
    && (forall a :: a in before && before[a].status != Pending ==>
          && a in after && after[a].decidedBy == before[a].decidedBy
          && (after[a].status == before[a].status || after[a].status in {Expired, Revoked, Consumed}))
    && (forall a :: a in after && after[a].status in {Approved, Rejected} ==> a in before && after[a] == before[a])
  }

  ghost predicate DecisionsLeft(r: Run, n: nat) {
    forall i :: 0 <= i < n && i < |r.events| && i < |r.worlds| && r.events[i].event.Approvals? ==>
      LeavesDecisions(r.worlds[i].t.approvals, r.events[i].event.approvals)
  }

  /** Event `i` of the run committed this user's decision of the approval. */
  ghost predicate DecidesAt(r: Run, i: nat, a: ApprovalId, user: User, approve: bool) {
    && i < |r.events| && i + 1 < |r.worlds|
    && r.events[i].event.ProcessOne? && r.events[i].event.effect.Some?
    && IsDecision(r.events[i].event.effect.value, a, user, approve)
    && |r.worlds[i + 1].effects| > |r.worlds[i].effects|
  }

  predicate IsDecision(e: Effect, a: ApprovalId, user: User, approve: bool) {
    e.Decision? && e.approval == a && e.user == user && e.approve == approve
  }

  ghost predicate DecidedBefore(r: Run, n: nat, a: ApprovalId, user: User, approve: bool) {
    exists i: nat :: i < n && DecidesAt(r, i, a, user, approve)
  }

  /** A step changes decisions only by a callback of that user. */
  lemma StepDecides(c: Queue.Config, r: Run, i: nat, a: ApprovalId)
    requires IsRun(c, r) && i < |r.events| && DecisionsLeft(r, i + 1)
    requires a in r.worlds[i + 1].t.approvals && r.worlds[i + 1].t.approvals[a].status in {Approved, Rejected}
    ensures var row := r.worlds[i + 1].t.approvals[a];
      || (a in r.worlds[i].t.approvals && r.worlds[i].t.approvals[a] == row)
      || (row.decidedBy.Some? && DecidesAt(r, i, a, row.decidedBy.value, row.status == Approved))
  {
    assert EventAt(c, r, i);
    var w, e, now := r.worlds[i], r.events[i].event, r.events[i].now;
    match e {
      case ProcessOne(l, x) =>
        var t := w.(now := now).t;
        hide Queue.Fence;
        if x.Some? {
          PerformApprovals(c, t, EventOf(l), x.value, now);
        }
        hide Perform;
      case Arrival(cb, drawn) => hide Queue.Create;
      case Approvals(_) =>
      case QueueStep(_) => hide Apply;
    }
  }

  lemma PerformApprovals(c: Queue.Config, t: Tables, id: EventId, e: Effect, now: int)
    ensures var r := Perform(c, t, id, e, now);
      r.Success? ==>
        if e.Decision? then
          && e.approval in t.approvals && e.approval in r.value.approvals
          && r.value.approvals == t.approvals[e.approval := r.value.approvals[e.approval]]
          && Carries(t.approvals[e.approval], r.value.approvals[e.approval], e.user, e.approve)
          && (t.approvals[e.approval].status == Pending || r.value.approvals == t.approvals)
        else r.value.approvals == t.approvals
  {
    hide Queue.Resume, Queue.Create;
    if e.Decision? {
      DecisionIsTheUsers(c, t, id, e.approval, e.user, e.approve, e.resume, now);
    }
  }

  /**
   In every run in which nothing else decides approvals, an approved or rejected approval was decided so by a
   processed callback of the user it names.
   */
  lemma {:induction false} DecisionsComeFromUsers(c: Queue.Config, r: Run, n: nat, a: ApprovalId)
    requires IsRun(c, r) && n <= |r.events| && DecisionsLeft(r, n)
    requires a in r.worlds[n].t.approvals && r.worlds[n].t.approvals[a].status in {Approved, Rejected}
    ensures var row := r.worlds[n].t.approvals[a];
      row.decidedBy.Some? && DecidedBefore(r, n, a, row.decidedBy.value, row.status == Approved)
  {
    hide Happen, May, LeavesDecisions, DecidesAt;
    StepDecides(c, r, n - 1, a);
    var row := r.worlds[n].t.approvals[a];
    if a in r.worlds[n - 1].t.approvals && r.worlds[n - 1].t.approvals[a] == row {
      DecisionsComeFromUsers(c, r, n - 1, a);
    }
  }

  /** Once decided, by whom stays, and how stays or is overtaken. */
  predicate StaysDecided(row: Approval, user: User, approve: bool) {
    && row.status != Pending && row.decidedBy == Some(user)
    && (row.status == Approved ==> approve) && (row.status == Rejected ==> !approve)
  }

  lemma DecisionTakes(c: Queue.Config, r: Run, i: nat, a: ApprovalId, user: User, approve: bool)
    requires IsRun(c, r) && DecidesAt(r, i, a, user, approve)
    ensures var was, t := r.worlds[i].t.approvals, r.worlds[i + 1].t;
      && a in was && a in t.approvals && StaysDecided(t.approvals[a], user, approve)
      && t.approvals[a].status in {Approved, Rejected}
      && (was[a].status != Pending ==> was[a] == t.approvals[a])
  {
    assert EventAt(c, r, i);
    var w, e, now := r.worlds[i], r.events[i].event, r.events[i].now;
    hide Queue.Fence;
    PerformApprovals(c, w.(now := now).t, EventOf(e.lease), e.effect.value, now);
    hide Perform;
  }

  lemma StepStaysDecided(c: Queue.Config, r: Run, i: nat, a: ApprovalId, user: User, approve: bool)
    requires IsRun(c, r) && i < |r.events| && DecisionsLeft(r, i + 1)
    requires a in r.worlds[i].t.approvals && StaysDecided(r.worlds[i].t.approvals[a], user, approve)
    ensures a in r.worlds[i + 1].t.approvals && StaysDecided(r.worlds[i + 1].t.approvals[a], user, approve)
  {
    assert EventAt(c, r, i);
    var w, e, now := r.worlds[i], r.events[i].event, r.events[i].now;
    hide Queue.Fence, Queue.Create, Apply;
    if e.ProcessOne? && e.effect.Some? {
      PerformApprovals(c, w.(now := now).t, EventOf(e.lease), e.effect.value, now);
    }
    hide Perform;
  }

  lemma {:induction false} DecidedFrom(c: Queue.Config, r: Run, i: nat, n: nat, a: ApprovalId, user: User,
      approve: bool)
    requires IsRun(c, r) && i < n <= |r.events| && DecisionsLeft(r, n) && DecidesAt(r, i, a, user, approve)
    ensures a in r.worlds[n].t.approvals && StaysDecided(r.worlds[n].t.approvals[a], user, approve)
  {
    DecisionTakes(c, r, i, a, user, approve);
    hide Happen, May, LeavesDecisions, DecidesAt, StaysDecided;
    if i + 1 < n {
      DecidedFrom(c, r, i, n - 1, a, user, approve);
      StepStaysDecided(c, r, n - 1, a, user, approve);
    }
  }

  /** In such a run no two processed callbacks decide an approval differently: the first decision stands. */
  lemma FirstDecisionStands(c: Queue.Config, r: Run, i: nat, j: nat, a: ApprovalId, user: User, approve: bool,
      user2: User, approve2: bool)
    requires IsRun(c, r) && i < j < |r.events| && DecisionsLeft(r, j + 1)
    requires DecidesAt(r, i, a, user, approve) && DecidesAt(r, j, a, user2, approve2)
    ensures user2 == user && approve2 == approve
  {
    DecidedFrom(c, r, i, j, a, user, approve);
    DecisionTakes(c, r, j, a, user2, approve2);
  }
}
