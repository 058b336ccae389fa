/** Browser mutations: approval-bound and idempotent, but reversible and so open to being reapplied. */
module Browser {
  import opened Wrappers
  import opened Json
  import opened Submission
  import Queue

  type Key = string

  datatype Row = Row(app: AppId, task: Queue.TaskId, approval: ApprovalId, kind: string, request: Json,
    status: ActionStatus)

  /** What a worker asks for; `plan` is the digest of the approved plan. */
  datatype Effect = Effect(app: AppId, approval: ApprovalId, plan: Json, kind: string, key: Key, request: Json)

  /** Only approvals of the PREPARE_APPLICATION type are kept here. */
  datatype Tables = Tables(queue: Queue.Store, approvals: map<ApprovalId, Approval>, rows: map<Key, Row>,
    files: map<Json, Bytes>)

  const FILL := "BROWSER_FILL"
  const UPLOAD := "BROWSER_UPLOAD"

  predicate Unexpired(a: Approval, now: int) {
    a.validUntil.Some? ==> now < a.validUntil.value * 1000
  }

  /** `_approval`: bound to this task and plan, decided, unexpired, and its file still hashes to the plan. */
  predicate Permits(t: Tables, l: Queue.Lease, e: Effect, now: int) {
    e.approval in t.approvals &&
    var a := t.approvals[e.approval];
    && a.app == e.app && a.task == l.task && a.sha == e.plan && a.status in {Approved, Consumed}
    && Unexpired(a, now)
    && a.path in t.files && Hash(t.files[a.path]) == e.plan
  }

  /**
   Where `_approval` raises.  What it wrote just before, EXPIRED or REVOKED, is rolled back with the
   transaction that the raise leaves.
   */
  function Refusal(t: Tables, l: Queue.Lease, e: Effect, now: int): Error {
    if e.approval !in t.approvals then Blocked("prepare_approval_missing") else
    var a := t.approvals[e.approval];
    if a.app != e.app || a.task != l.task || a.sha != e.plan || a.status !in {Approved, Consumed}
    then Blocked("prepare_approval_invalid")
    else if !Unexpired(a, now) then Blocked("prepare_approval_expired")
    else if a.path !in t.files then Blocked("prepare_approval_payload_unavailable")
    else Blocked("prepare_approval_payload_changed")
  }

  function SetStatus(t: Tables, key: Key, status: ActionStatus): Tables
    requires key in t.rows
  {
    t.(rows := t.rows[key := t.rows[key].(status := status)])
  }

  /** The first transaction of `execute`: find the row of this key or plan it. */
  function Admit(t: Tables, l: Queue.Lease, e: Effect, now: int): Result<(Tables, ActionStatus), Error> {
    var _ :- Fenced(t.queue, l, now);
    if !Permits(t, l, e, now) then Failure(Refusal(t, l, e, now))
    else if e.key in t.rows then
      var row := t.rows[e.key];
      if row == Row(e.app, l.task, e.approval, e.kind, e.request, row.status) then Success((t, row.status))
      else Failure(Blocked("browser_action_replay_conflict"))
    else
      Success((t.(rows := t.rows[e.key := Row(e.app, l.task, e.approval, e.kind, e.request, Planned)]), Planned))
  }

  /** The transaction that authorises a planned effect, and consumes its approval if that is still unspent. */
  function Authorise(t: Tables, l: Queue.Lease, e: Effect, now: int): Result<Tables, Error> {
    var _ :- Fenced(t.queue, l, now);
    if !Permits(t, l, e, now) then Failure(Refusal(t, l, e, now))
    else if e.key !in t.rows || t.rows[e.key].status != Planned then Failure(Blocked("assertion"))
    else
      var spent := t.(approvals := t.approvals[e.approval := t.approvals[e.approval].(status := Consumed)]);
      Success(SetStatus(spent, e.key, Executing))
  }

  /** The transaction that authorises a confirmed effect once more; it does not look at the row's status. */
  function Reapply(t: Tables, l: Queue.Lease, e: Effect, now: int): Result<Tables, Error> {
    var _ :- Fenced(t.queue, l, now);
    if !Permits(t, l, e, now) then Failure(Refusal(t, l, e, now))
    else if e.key !in t.rows then Failure(Blocked("assertion"))
    else Success(SetStatus(t, e.key, Executing))
  }

  function Record(t: Tables, l: Queue.Lease, key: Key, status: ActionStatus, now: int): Result<Tables, Error> {
    var _ :- Fenced(t.queue, l, now);
    if key !in t.rows then Failure(Blocked("assertion")) else Success(SetStatus(t, key, status))
  }

  predicate Abandoned(row: Row) {
    row.kind in {FILL, UPLOAD} && row.status == Executing
  }

  function Recover(t: Tables): Tables {
    t.(rows := map k | k in t.rows :: if Abandoned(t.rows[k]) then t.rows[k].(status := UnknownResult) else t.rows[k])
  }

  /** No transaction of this service ever commits an expiry or a revocation: approvals only get spent. */
  lemma ExpiryIsNeverCommitted(t: Tables, l: Queue.Lease, e: Effect, now: int, a: ApprovalId)
    requires a in t.approvals
    ensures Admit(t, l, e, now).Success? ==> Admit(t, l, e, now).value.0.approvals == t.approvals
    ensures Reapply(t, l, e, now).Success? ==> Reapply(t, l, e, now).value.approvals == t.approvals
    ensures Authorise(t, l, e, now).Success? ==>
      var b := Authorise(t, l, e, now).value.approvals;
      && a in b && b[a] == t.approvals[a].(status := b[a].status)
      && (b[a].status != t.approvals[a].status ==>
        a == e.approval && t.approvals[a].status == Approved && b[a].status == Consumed)
  {
    hide Fenced;
  }
}
