/**
 The Slack inbox: an event is stored with its processing task before it is acknowledged, and its
 effect commits together with the mark that it was processed, under the lease fence of that task.
 */
module SlackInbox {
  import opened Wrappers
  import opened Json
  import opened Submission
  import opened QueueRuns
  import opened QueueLaws
  import Queue

  type EventId = Json

  datatype Progress = Waiting | Processed | Dropped     // PENDING, PROCESSED, REJECTED

  /** `kind` is `message`, or names an interaction by its digest. */
  datatype Stored = Stored(kind: Json, channel: string, ts: string, sha: Json, progress: Progress)

  /** A normalized callback body. */
  datatype Callback = Callback(provider: Option<string>, urls: bool, channel: string, ts: string, value: Json)

  datatype Tables = Tables(queue: Queue.Store, events: map<EventId, Stored>, approvals: map<ApprovalId, Approval>)

  datatype Error = IdentityConflict | MissingEvent | HashMismatch | QueueRefused(e: Queue.Error)

  const PROCESS := "SLACK_PROCESS_EVENT"

  function Sha(cb: Callback): Json {
    Hash(Canonical(cb.value))
  }

  function IdOf(cb: Callback): EventId {
    if cb.provider.Some? && cb.provider.value != "" then Str(cb.provider.value) else Arr([Str("interaction"), Sha(cb)])
  }

  function KindOf(cb: Callback): Json {
    if cb.urls then Str("message") else Arr([Str("interaction"), Sha(cb)])
  }

  function DedupeOf(id: EventId): Queue.DedupeKey {
    [Str("slack_event"), id]
  }

  predicate SameIdentity(s: Stored, cb: Callback) {
    s.channel == cb.channel && s.ts == cb.ts && s.kind == KindOf(cb)
  }

  /** The earlier row of this callback: by id, or by channel, time stamp and type. */
  ghost function Earlier(events: map<EventId, Stored>, cb: Callback): (id: Option<EventId>)
    ensures id.Some? ==> id.value in events && (id.value == IdOf(cb) || SameIdentity(events[id.value], cb))
    ensures id.None? ==> IdOf(cb) !in events && forall e :: e in events ==> !SameIdentity(events[e], cb)
  {
    if IdOf(cb) in events then Some(IdOf(cb))
    else if e :| e in events && SameIdentity(events[e], cb) then Some(e)
    else None
  }

  function ProcessingTask(id: EventId, cb: Callback): Queue.TaskCreate {
    Queue.TaskCreate(Queue.Identity(PROCESS, Some(DedupeOf(id)), None, None, None,
                                    map["slack_event_id" := id, "event" := cb.value]), 100, 3, None)
  }

  /** `receive`. */
  ghost function Receive(t: Tables, cb: Callback, drawn: Queue.TaskId, now: int): Result<(Tables, EventId), Error> {
    match Earlier(t.events, cb)
    case Some(id) => if t.events[id].sha == Sha(cb) then Success((t, id)) else Failure(IdentityConflict)
    case None =>
      var id := IdOf(cb);
      var made := Queue.Create(t.queue, ProcessingTask(id, cb), drawn, Queue.Ready, now);
      if made.Failure? then Failure(QueueRefused(made.error)) else
      Success((t.(queue := made.value.0,
                  events := t.events[id := Stored(KindOf(cb), cb.channel, cb.ts, Sha(cb), Waiting)]), id))
  }

  /** What `_process` does once its checks of the callback have passed. */
  datatype Effect =
    | Links(urls: Json, drawn: Queue.TaskId)
    | Answer(task: Queue.TaskId, interrupt: string, answer: Json, answeredBy: User)
    | Decision(approval: ApprovalId, user: User, approve: bool, resume: Option<(Queue.TaskId, string)>)

  /** What an answered question tells the waiting task. */
  function AnswerReply(id: EventId, answer: Json, user: User): Json {
    Obj(map["answer" := answer, "user_id" := Id(user), "event_id" := id])
  }

  /** What a decided approval tells it. */
  function DecisionReply(id: EventId, a: ApprovalId, user: User, approve: bool): Json {
    Obj(map["approval_id" := Id(a), "decision" := Str(if approve then "APPROVED" else "REJECTED"),
            "user_id" := Id(user), "event_id" := id])
  }

  function LinksTask(id: EventId, urls: Json): Queue.TaskCreate {
    Queue.TaskCreate(Queue.Identity("RETRIEVE_LINKS", Some([Str("retrieve_links"), id]), None, None, None,
                                    map["slack_event_id" := id, "urls" := urls]), 100, 3, None)
  }

  /**
   Why an effect did not happen: the input was refused, which marks the event REJECTED, or something else
   was raised, which rolls the whole transaction back and leaves the event to a retry.
   */
  datatype Obstacle = InputRefused | Raised(e: Queue.Error)

  function ObstacleOf(e: Queue.Error): Obstacle {
    if e == Queue.ConcurrentUpdate then InputRefused else Raised(e)
  }

  function Decided(t: Tables, a: ApprovalId, user: User, approve: bool): Result<Tables, Obstacle> {
    if a !in t.approvals then Failure(InputRefused) else
    var wanted, row := if approve then Approved else Rejected, t.approvals[a];
    if row.status == wanted && row.decidedBy == Some(user) then Success(t)
    else if row.status != Pending then Failure(InputRefused)
    else Success(t.(approvals := t.approvals[a := row.(status := wanted, decidedBy := Some(user))]))
  }

  function Resumed(c: Queue.Config, t: Tables, task: Queue.TaskId, interrupt: string, value: Json, now: int)
    : Result<Tables, Obstacle>
  {
    var r := Queue.Resume(c, t.queue, task, interrupt, value, now);
    if r.Success? then Success(t.(queue := r.value)) else Failure(ObstacleOf(r.error))
  }

  /** The effect inside its savepoint.  An empty list of links needs no task. */
  function Perform(c: Queue.Config, t: Tables, id: EventId, e: Effect, now: int): Result<Tables, Obstacle> {
    match e
    case Links(urls, drawn) =>
      if urls == Arr([]) then Success(t) else
      var r := Queue.Create(t.queue, LinksTask(id, urls), drawn, Queue.Ready, now);
      if r.Success? then Success(t.(queue := r.value.0)) else Failure(ObstacleOf(r.error))
    case Answer(task, interrupt, answer, user) =>
      Resumed(c, t, task, interrupt, AnswerReply(id, answer, user), now)
    case Decision(a, user, approve, resume) =>
      var t2 :- Decided(t, a, user, approve);
      if resume.None? then Success(t2)
      else Resumed(c, t2, resume.value.0, resume.value.1, DecisionReply(id, a, user, approve), now)
  }

  function EventOf(l: Queue.Lease): EventId {
    Field(l.payload, "slack_event_id")
  }

  /** The effect, or the refusal of a callback that the allowlist or the message checks turn away. */
  function Attempt(c: Queue.Config, t: Tables, id: EventId, e: Option<Effect>, now: int): Result<Tables, Obstacle> {
    if e.Some? then Perform(c, t, id, e.value, now) else Failure(InputRefused)
  }

  /** The event's mark, in the same commit as its effect. */
  function Marked(t: Tables, id: EventId, p: Progress): Tables
    requires id in t.events
  {
    t.(events := t.events[id := t.events[id].(progress := p)])
  }

  /**
   The fenced transaction of `process_one`.  `e` is None where the allowlist or the checks of the
   callback refuse it.  The flag says whether an effect was committed.
   */
  function Process(c: Queue.Config, t: Tables, l: Queue.Lease, e: Option<Effect>, now: int)
    : Result<(Tables, bool), Error>
  {
    var fence := Queue.Fence(t.queue, l, now);
    if fence.Failure? then Failure(QueueRefused(fence.error)) else
    var id := EventOf(l);
    if id !in t.events then Failure(MissingEvent)
    else if t.events[id].progress != Waiting then Success((t, false))
    else if Hash(Canonical(Field(l.payload, "event"))) != t.events[id].sha then Failure(HashMismatch)
    else
      var done := Attempt(c, t, id, e, now);
      if done.Success? then Success((done.value.(events := Marked(t, id, Processed).events), true))
      else if done.error.InputRefused? then Success((Marked(t, id, Dropped), false))
      else Failure(QueueRefused(done.error.e))
  }

  // ---------------------------------------------------------------- runs

  /** `effects` logs the events whose effect was committed. */
  datatype World = World(t: Tables, issued: seq<Queue.Lease>, now: int, effects: seq<EventId>)

  const DAWN := World(Tables(Queue.EMPTY, map[], map[]), [], 0, [])

  datatype Event =
    | QueueStep(op: Op)
    | Arrival(cb: Callback, drawn: Queue.TaskId)
    | ProcessOne(lease: Queue.Lease, effect: Option<Effect>)
    | Approvals(approvals: map<ApprovalId, Approval>)

  datatype At = At(now: int, event: Event)

  function QueueSys(w: World): Sys {
    Sys(w.t.queue, w.issued, w.now)
  }

  ghost function Happen(c: Queue.Config, w0: World, at: At): World {
    var w := w0.(now := at.now);
    match at.event
    case QueueStep(op) =>
      var sys := Apply(c, QueueSys(w0), Step(at.now, op));
      w.(t := w.t.(queue := sys.store), issued := sys.issued)
    case Arrival(cb, drawn) =>
      var r := Receive(w.t, cb, drawn, w.now);
      if r.Success? then w.(t := r.value.0) else w
    case ProcessOne(l, e) =>
      var r := Process(c, w.t, l, e, w.now);
      if r.Failure? then w else
      w.(t := r.value.0, effects := w.effects + if r.value.1 then [EventOf(l)] else [])
    case Approvals(approvals) => w.(t := w.t.(approvals := approvals))
  }

  ghost predicate May(w: World, at: At) {
    at.now >= w.now &&
    match at.event
    case QueueStep(op) => LegalOp(QueueSys(w), op, at.now)
    case ProcessOne(l, _) => l in w.issued
    case _ => true
  }

  /** The states of a run, and the events between them. */
  datatype Run = Run(worlds: seq<World>, events: seq<At>)

  ghost predicate EventAt(c: Queue.Config, r: Run, i: nat) {
    && i < |r.events| && i + 1 < |r.worlds|
    && May(r.worlds[i], r.events[i]) && r.worlds[i + 1] == Happen(c, r.worlds[i], r.events[i])
  }

  ghost predicate IsRun(c: Queue.Config, r: Run) {
    |r.worlds| == |r.events| + 1 && r.worlds[0] == DAWN && forall i :: 0 <= i < |r.events| ==> EventAt(c, r, i)
  }

  /** No two stored events share channel, time stamp and type. */
  ghost predicate Distinct(events: map<EventId, Stored>) {
    forall e, f :: e in events && f in events && e != f ==>
      events[e].channel != events[f].channel || events[e].ts != events[f].ts || events[e].kind != events[f].kind
  }

  ghost predicate HasTask(q: Queue.Store, id: EventId) {
    exists t :: t in q.rows && q.rows[t].identity.dedupeKey == Some(DedupeOf(id))
      && q.rows[t].identity.taskType == PROCESS
  }

  ghost predicate EffectsOk(events: map<EventId, Stored>, effects: seq<EventId>) {
    && (forall e :: e in events ==> (events[e].progress == Processed <==> e in effects))
    && (forall e :: e in effects ==> e in events)
    && (forall i, j :: 0 <= i < j < |effects| ==> effects[i] != effects[j])
  }

  ghost predicate Safe(w: World) {
    && Inv(QueueSys(w)) && EffectsOk(w.t.events, w.effects) && Distinct(w.t.events)
    && forall e :: e in w.t.events ==> HasTask(w.t.queue, e)
  }

  lemma TaskStays(q: Queue.Store, q2: Queue.Store, id: EventId)
    requires HasTask(q, id) && forall t :: t in q.rows ==> t in q2.rows && q2.rows[t].identity == q.rows[t].identity
    ensures HasTask(q2, id)
  {
    var t :| t in q.rows && q.rows[t].identity.dedupeKey == Some(DedupeOf(id))
      && q.rows[t].identity.taskType == PROCESS;
    assert q2.rows[t].identity == q.rows[t].identity;
  }

  /** A committed queue operation keeps the queue's invariant and its task identities. */
  lemma QueueMoves(c: Queue.Config, w: World, op: Op)
    requires Inv(QueueSys(w)) && LegalOp(QueueSys(w), op, w.now)
    ensures var sys := Apply(c, QueueSys(w), Step(w.now, op));
      && Inv(sys) && w.issued <= sys.issued
      && forall t :: t in w.t.queue.rows ==>
        t in sys.store.rows && sys.store.rows[t].identity == w.t.queue.rows[t].identity
  {
    ApplyKeeps(c, QueueSys(w), Step(w.now, op));
    ApplyTame(c, QueueSys(w), Step(w.now, op));
  }

  /** A changed queue with the same events. */
  lemma QueueKeeps(w: World, w2: World)
    requires Safe(w) && Inv(QueueSys(w2))
    requires w2 == w.(t := w2.t, issued := w2.issued, now := w2.now) && w2.t.events == w.t.events
    requires forall t :: t in w.t.queue.rows ==>
      t in w2.t.queue.rows && w2.t.queue.rows[t].identity == w.t.queue.rows[t].identity
    ensures Safe(w2)
  {
    hide Inv, HasTask, EffectsOk, Distinct;
    forall e | e in w2.t.events ensures HasTask(w2.t.queue, e) {
      TaskStays(w.t.queue, w2.t.queue, e);
    }
  }

  lemma MarkKeeps(events: map<EventId, Stored>, effects: seq<EventId>, id: EventId, done: bool)
    requires EffectsOk(events, effects) && Distinct(events) && id in events && events[id].progress == Waiting
    ensures var events2 := events[id := events[id].(progress := if done then Processed else Dropped)];
      EffectsOk(events2, effects + if done then [id] else []) && Distinct(events2)
  {
    var more := effects + if done then [id] else [];
    assert id !in effects;
    assert forall e :: e in more <==> e in effects || (done && e == id);
  }

  /** A callback's effect changes the queue only as queue operations do. */
  lemma PerformMoves(c: Queue.Config, w: World, id: EventId, e: Effect)
    requires Inv(QueueSys(w))
    ensures var r := Perform(c, w.t, id, e, w.now);
      r.Success? ==>
        && Inv(QueueSys(w.(t := r.value))) && r.value.events == w.t.events
        && forall t :: t in w.t.queue.rows ==>
             t in r.value.queue.rows && r.value.queue.rows[t].identity == w.t.queue.rows[t].identity
  {
    hide Inv, Queue.Create, Queue.Resume;
    match e {
      case Links(urls, drawn) => QueueMoves(c, w, OpCreate(LinksTask(id, urls), Queue.Ready, drawn));
      case Answer(task, interrupt, answer, user) =>
        QueueMoves(c, w, OpResume(task, interrupt, AnswerReply(id, answer, user)));
      case Decision(a, user, approve, resume) =>
        if resume.Some? {
          QueueMoves(c, w, OpResume(resume.value.0, resume.value.1, DecisionReply(id, a, user, approve)));
        }
    }
  }

  lemma ProcessKeeps(c: Queue.Config, w: World, l: Queue.Lease, e: Option<Effect>)
    requires Safe(w)
    ensures Safe(Happen(c, w, At(w.now, ProcessOne(l, e))))
  {
    hide Inv, HasTask, EffectsOk, Distinct, Queue.Fence, Perform;
    var r := Process(c, w.t, l, e, w.now);
    if r.Success? && w.t.events[EventOf(l)].progress == Waiting {
      var id := EventOf(l);
      var done := Attempt(c, w.t, id, e, w.now);
      var t2 := if done.Success? then done.value else w.t;
      if e.Some? {
        PerformMoves(c, w, id, e.value);
      }
      QueueKeeps(w, w.(t := t2));
      MarkKeeps(w.t.events, w.effects, id, done.Success?);
      var w1, w2 := w.(t := t2), Happen(c, w, At(w.now, ProcessOne(l, e)));
      assert QueueSys(w2) == QueueSys(w1) && t2.events == w.t.events;
      assert w2.t.events == Marked(t2, id, if done.Success? then Processed else Dropped).events;
      assert w2.effects == w.effects + if done.Success? then [id] else [];
      forall x | x in w2.t.events ensures HasTask(w2.t.queue, x) {
        assert x in w1.t.events;
      }
    } else {
      assert w.effects + [] == w.effects;
    }
  }

  lemma ReceiveKeeps(c: Queue.Config, w: World, cb: Callback, drawn: Queue.TaskId)
    requires Safe(w)
    ensures Safe(Happen(c, w, At(w.now, Arrival(cb, drawn))))
  {
    hide Inv, HasTask, Queue.Create;
    var r := Receive(w.t, cb, drawn, w.now);
    if r.Success? && r.value.0 != w.t {
      var id := IdOf(cb);
      QueueMoves(c, w, OpCreate(ProcessingTask(id, cb), Queue.Ready, drawn));
      QueueKeeps(w, w.(t := w.t.(queue := r.value.0.queue)));
      TaskMade(w, id, cb, drawn);
      var events := r.value.0.events;
      assert EffectsOk(events, w.effects) by {
        assert id !in w.effects;
      }
      assert Distinct(events);
    }
  }

  lemma TaskMade(w: World, id: EventId, cb: Callback, drawn: Queue.TaskId)
    requires Inv(QueueSys(w))
    ensures var made := Queue.Create(w.t.queue, ProcessingTask(id, cb), drawn, Queue.Ready, w.now);
      made.Success? ==> HasTask(made.value.0, id)
  {
    assert KeysOk(w.t.queue);
    var made := Queue.Create(w.t.queue, ProcessingTask(id, cb), drawn, Queue.Ready, w.now);
    if made.Success? {
      assert made.value.0.rows[made.value.1].identity == ProcessingTask(id, cb).identity;
    }
  }

  lemma HappenKeeps(c: Queue.Config, w0: World, at: At)
    requires Safe(w0) && May(w0, at)
    ensures Safe(Happen(c, w0, at))
  {
    hide Good, HasTask, EffectsOk, Distinct, Receive, Process, LegalOp, Apply;
    var w := w0.(now := at.now);
    QueueKeeps(w0, w);
    match at.event {
      case QueueStep(op) =>
        ApplyKeeps(c, QueueSys(w0), Step(at.now, op));
        ApplyTame(c, QueueSys(w0), Step(at.now, op));
        QueueKeeps(w0, Happen(c, w0, at));
      case Arrival(cb, drawn) => ReceiveKeeps(c, w, cb, drawn);
      case ProcessOne(l, e) => ProcessKeeps(c, w, l, e);
      case Approvals(_) => QueueKeeps(w, Happen(c, w0, at));
    }
  }

  lemma {:induction false} RunSafe(c: Queue.Config, r: Run, n: nat)
    requires IsRun(c, r) && n <= |r.events|
    ensures Safe(r.worlds[n])
  {
    hide May, Happen;
    if n == 0 {
      DawnSafe();
    } else {
      RunSafe(c, r, n - 1);
      assert EventAt(c, r, n - 1);
      hide Safe;
      HappenKeeps(c, r.worlds[n - 1], r.events[n - 1]);
    }
  }

  /**
   Over any run each stored event's effect is committed at most once, exactly if the event is marked
   PROCESSED, and every stored event has its processing task.
   */
  lemma EffectsCommitOnce(c: Queue.Config, r: Run, n: nat)
    requires IsRun(c, r) && n <= |r.events|
    ensures var w := r.worlds[n];
      && (forall i, j :: 0 <= i < j < |w.effects| ==> w.effects[i] != w.effects[j])
      && (forall e :: e in w.t.events ==> (w.t.events[e].progress == Processed <==> e in w.effects))
      && (forall e :: e in w.t.events ==> HasTask(w.t.queue, e))
  {
    hide Inv, HasTask;
    RunSafe(c, r, n);
  }

  lemma DawnSafe()
    ensures Safe(DAWN)
  {
  }

  /** A redelivered callback stores nothing new and returns the first delivery's event. */
  lemma RedeliveryChangesNothing(t: Tables, cb: Callback, drawn: Queue.TaskId, drawn2: Queue.TaskId, now: int,
      later: int)
    requires Distinct(t.events) && Receive(t, cb, drawn, now).Success? && Earlier(t.events, cb).None?
    ensures var (t1, id) := Receive(t, cb, drawn, now).value;
      Receive(t1, cb, drawn2, later) == Success((t1, id))
  {
  }

  /** One event of a run leaves settled events alone; an effect is committed only by a lease that passes. */
  lemma StepSettles(c: Queue.Config, w: World, at: At, e: EventId)
    requires Safe(w) && e in w.t.events && w.t.events[e].progress != Waiting
    ensures var w2 := Happen(c, w, at); e in w2.t.events && w2.t.events[e] == w.t.events[e]
  {
    hide Inv, HasTask, EffectsOk, Distinct, Queue.Fence, Apply, Queue.Create, Queue.Resume;
    match at.event {
      case ProcessOne(l, x) =>
        if x.Some? {
          PerformLeaves(c, w.t, EventOf(l), x.value, at.now);
        }
      case _ =>
    }
  }

  lemma PerformLeaves(c: Queue.Config, t: Tables, id: EventId, e: Effect, now: int)
    ensures Perform(c, t, id, e, now).Success? ==> Perform(c, t, id, e, now).value.events == t.events
  {
    hide Queue.Create, Queue.Resume;
  }

  /** PROCESSED and REJECTED are final over any run: a settled event is never taken up again. */
  lemma {:induction false} SettledEventsAreFinal(c: Queue.Config, r: Run, m: nat, n: nat, e: EventId)
    requires IsRun(c, r) && m <= n <= |r.events|
    requires e in r.worlds[m].t.events && r.worlds[m].t.events[e].progress != Waiting
    ensures e in r.worlds[n].t.events && r.worlds[n].t.events[e] == r.worlds[m].t.events[e]
  {
    hide May, Happen;
    if m < n {
      SettledEventsAreFinal(c, r, m, n - 1, e);
      RunSafe(c, r, n - 1);
      assert EventAt(c, r, n - 1);
      hide Safe;
      StepSettles(c, r.worlds[n - 1], r.events[n - 1], e);
    }
  }

  /** Whenever an effect is committed in a run, it is by a lease that passes the fence at that moment. */
  lemma EffectsAreFenced(c: Queue.Config, r: Run, n: nat)
    requires IsRun(c, r) && n < |r.events| && |r.worlds[n + 1].effects| > |r.worlds[n].effects|
    ensures var e := r.events[n].event;
      && e.ProcessOne? && e.lease in r.worlds[n].issued
      && Queue.Passes(r.worlds[n].t.queue, e.lease, r.events[n].now)
      && r.worlds[n + 1].effects == r.worlds[n].effects + [EventOf(e.lease)]
  {
    assert EventAt(c, r, n);
    hide Apply, Receive, Attempt, LegalOp, Queue.Passes;
  }
}
