/** Gmail drafts and approved emails: each is one ledger row, inserted EXECUTING by the commit that authorises it. */
module Outreach {
  import opened Wrappers
  import opened Json
  import opened Submission
  import Queue

  type OutreachId = nat

  datatype DraftStatus = ReadyForReview | DraftApproved | Sent | OtherDraft

  datatype Draft = Draft(app: AppId, approval: Option<ApprovalId>, status: DraftStatus)

  /** The idempotency keys `gmail-draft:<outreach>:<digest>` and `send-email:<outreach>:<digest>`. */
  datatype Key = DraftKey(outreach: OutreachId, sha: Json) | SendKey(outreach: OutreachId, sha: Json)

  datatype Row = Row(app: AppId, task: Queue.TaskId, approval: Option<ApprovalId>, status: ActionStatus,
    reference: Option<string>)

  /** What an email consists of: the draft row and the attachments that the task names. */
  datatype Mail = Mail(outreach: OutreachId, attachments: Json)

  /** `emails` holds the canonical value of each mail as the database would give it now, None where that raises. */
  datatype Tables = Tables(queue: Queue.Store, drafts: map<OutreachId, Draft>, approvals: map<ApprovalId, Approval>,
                           rows: map<Key, Row>, emails: map<Mail, Option<Json>>, files: map<Json, Bytes>)

  datatype Mode = DryRun | Review | LiveMode

  datatype Config = Config(mode: Mode, authorized: set<User>, readable: Bytes -> bool)

  function EmailValue(t: Tables, m: Mail): Option<Json> {
    if m in t.emails then t.emails[m] else None
  }

  function EmailSha(value: Json): Json {
    Hash(Canonical(value))
  }

  // ---------------------------------------------------------------- creating a Gmail draft

  /** Either the reference of a draft that exists already, or a fresh key to call the provider with. */
  datatype Go = Have(reference: string) | CallDraft(key: Key) | CallSend(key: Key, draft: string)

  function StartDraft(c: Config, t: Tables, l: Queue.Lease, m: Mail, now: int): Result<(Tables, Go), Error> {
    if c.mode.DryRun? then Failure(Blocked("gmail_draft_disabled_in_dry_run")) else
    var task :- Fenced(t.queue, l, now);
    if task.identity.taskType != CONNECT || m.outreach !in t.drafts
       || task.identity.application != Some(t.drafts[m.outreach].app)
    then Failure(Blocked("gmail_draft_task_mismatch")) else
    var value := EmailValue(t, m);
    if value.None? then Failure(Blocked("email_payload_invalid")) else
    var key := DraftKey(m.outreach, EmailSha(value.value));
    if key in t.rows then
      if t.rows[key].status == Succeeded && t.rows[key].reference.Some?
      then Success((t, Have(t.rows[key].reference.value)))
      else Failure(Blocked("gmail_draft_result_not_repeatable"))
    else
      var row := Row(t.drafts[m.outreach].app, l.task, None, Executing, None);
      Success((t.(rows := t.rows[key := row]), CallDraft(key)))
  }

  // ---------------------------------------------------------------- sending

  /** What a sending task's payload names. */
  datatype Sending = Sending(outreach: OutreachId, approval: ApprovalId, attachments: Json)

  /** `attachment_ids` may be left out; if given it is a list of strings. */
  function AttachmentsOf(payload: Memory): Option<Json> {
    if "attachment_ids" !in payload then Some(Arr([])) else
    var list := payload["attachment_ids"];
    if list.Arr? && forall i :: 0 <= i < |list.items| ==> IsText(list.items[i]) then Some(list) else None
  }

  function SendingOf(payload: Memory): Option<Sending> {
    var o, a, list := Field(payload, "outreach_id"), Field(payload, "approval_id"), AttachmentsOf(payload);
    if o.Id? && a.Id? && list.Some? then Some(Sending(o.ulid, a.ulid, list.value)) else None
  }

  predicate Correlates(t: Tables, l: Queue.Lease, task: Queue.Task, s: Sending) {
    && task.identity.taskType == "SEND_OUTREACH_EMAIL"
    && s.outreach in t.drafts && s.approval in t.approvals
    && var draft, a := t.drafts[s.outreach], t.approvals[s.approval];
       task.identity.application == Some(draft.app) && draft.approval == Some(s.approval) && a.task == l.task
         && a.app == draft.app
  }

  /** The email still is what was approved: same digest, and the stored review has the same content. */
  predicate StillApproved(c: Config, t: Tables, s: Sending) {
    s.approval in t.approvals &&
    var a, value := t.approvals[s.approval], EmailValue(t, Mail(s.outreach, s.attachments));
    && value.Some? && a.sha == EmailSha(value.value)
    && a.path in t.files && c.readable(t.files[a.path]) && t.files[a.path] == Canonical(value.value)
  }

  /** `_revoke`, after a possible expiry in the same transaction. */
  function Withdrawn(t: Tables, s: Sending, expired: bool, changed: bool): Tables
    requires s.approval in t.approvals && s.outreach in t.drafts
  {
    var a := t.approvals[s.approval];
    t.(approvals := t.approvals[s.approval := a.(status := if expired then Expired else Revoked)],
       drafts := if changed then t.drafts[s.outreach := t.drafts[s.outreach].(status := ReadyForReview)] else t.drafts)
  }

  /** A confirmed Gmail draft of this very content. */
  predicate DraftFor(t: Tables, app: AppId, sha: Json, key: Key) {
    && key.DraftKey? && key.sha == sha && key in t.rows && t.rows[key].app == app && t.rows[key].status == Succeeded
  }

  /** What the query for such a draft may return: any one that there is. */
  ghost predicate Found(t: Tables, app: AppId, sha: Json, found: Option<Key>) {
    && (found.Some? ==> DraftFor(t, app, sha, found.value))
    && (found.None? ==> forall key :: key in t.rows ==> !DraftFor(t, app, sha, key))
  }

  function ReferenceOf(t: Tables, found: Option<Key>): Option<string> {
    if found.Some? && found.value in t.rows then t.rows[found.value].reference else None
  }

  /** The commit that authorises a send: the row appears and the approval is spent. */
  function Authorised(t: Tables, l: Queue.Lease, s: Sending, key: Key): Tables
    requires s.approval in t.approvals && s.outreach in t.drafts
  {
    t.(rows := t.rows[key := Row(t.drafts[s.outreach].app, l.task, Some(s.approval), Executing, None)],
       approvals := t.approvals[s.approval := t.approvals[s.approval].(status := Consumed)],
       drafts := t.drafts[s.outreach := t.drafts[s.outreach].(status := DraftApproved)])
  }

  /**
   The first transaction of `send`, with the draft that its query found; a withdrawal is committed
   although the call then raises.
   */
  function StartSend(c: Config, t: Tables, l: Queue.Lease, found: Option<Key>, now: int): (Tables, Result<Go, Error>) {
    if c.mode != LiveMode then (t, Failure(Blocked("email_send_requires_live_mode"))) else
    var sending := SendingOf(l.payload);
    if sending.None? then (t, Failure(Blocked("email_send_payload_invalid"))) else
    var s, task := sending.value, Fenced(t.queue, l, now);
    if task.Failure? then (t, Failure(task.error))
    else if !Correlates(t, l, task.value, s) then (t, Failure(Blocked("email_send_correlation_invalid")))
    else
      var a := t.approvals[s.approval];
      if a.status == Consumed then
        var key := SendKey(s.outreach, a.sha);
        if key !in t.rows || t.rows[key].approval != Some(s.approval)
          then (t, Failure(Blocked("consumed_email_action_missing")))
        else if t.rows[key].status == Succeeded
          then (t, Success(Have(if t.rows[key].reference.Some? then t.rows[key].reference.value else "")))
        else (t, Failure(Blocked("email_send_result_requires_reconciliation")))
      else if a.status != Approved then (t, Failure(Blocked("email_approval_" + Name(a.status))))
      else if a.decidedBy.None? || a.decidedBy.value !in c.authorized
        then (t, Failure(Blocked("email_approver_not_authorized")))
      else
        var expired, changed := PastDeadline(a, now), !StillApproved(c, t, s);
        if expired || changed then
          (Withdrawn(t, s, expired, changed),
            Failure(Blocked(if expired then "email_approval_expired" else "email_payload_changed")))
        else
          var key, draft := SendKey(s.outreach, a.sha), ReferenceOf(t, found);
          if draft.None? then (t, Failure(Blocked("confirmed_gmail_draft_missing")))
          else if key in t.rows then
            if t.rows[key].status == Succeeded
              then (t, Success(Have(if t.rows[key].reference.Some? then t.rows[key].reference.value else "")))
            else (t, Failure(Blocked("email_send_result_requires_reconciliation")))
          else (Authorised(t, l, s, key), Success(CallSend(key, draft.value)))
  }

  /** The provider's answer; an exception counts as not confirmed. */
  datatype Answer = Answer(confirmed: bool, reference: Option<string>)

  function Finish(t: Tables, l: Queue.Lease, key: Key, answer: Answer, now: int): Result<Tables, Error> {
    var _ :- Fenced(t.queue, l, now);
    if key !in t.rows || (key.SendKey? && key.outreach !in t.drafts) then Failure(Blocked("assertion")) else
    var status := if answer.confirmed then Succeeded else UnknownResult;
    var rows := t.rows[key := t.rows[key].(status := status, reference := answer.reference)];
    Success(t.(rows := rows,
               drafts := if key.SendKey? && answer.confirmed
                         then t.drafts[key.outreach := t.drafts[key.outreach].(status := Sent)] else t.drafts))
  }

  /** `recover`, for both kinds of row. */
  function Recover(t: Tables): Tables {
    t.(rows := map k | k in t.rows ::
         if t.rows[k].status == Executing then t.rows[k].(status := UnknownResult) else t.rows[k])
  }

  // ---------------------------------------------------------------- runs

  datatype Pc = Calling(go: Go) | Recording(key: Key, answer: Answer) | Stopped

  datatype Exec = Exec(lease: Queue.Lease, pc: Pc)

  /** `sanctions` remembers the approval of each authorised send, `calls` the keys handed to the provider. */
  datatype World = World(t: Tables, execs: map<Queue.Token, Exec>, calls: seq<Key>, spent: seq<ApprovalId>)

  const DAWN := World(Tables(Queue.EMPTY, map[], map[], map[], map[], map[]), map[], [], [])

  datatype Event =
    | Elsewhere(t: Tables)                                  // the queue, drafts, approvals, inputs and files change
    | BeginDraft(lease: Queue.Lease, mail: Mail)
    | BeginSend(lease: Queue.Lease, found: Option<Key>)
    | Provider(exec: Queue.Token, answer: Answer)
    | Finished(exec: Queue.Token)
    | RecoverRows

  datatype At = At(now: int, event: Event)

  function PcOf(go: Go): Pc {
    if go.Have? then Stopped else Calling(go)
  }

  function SpentBy(l: Queue.Lease, go: Result<Go, Error>): seq<ApprovalId> {
    if go.Success? && go.value.CallSend? && SendingOf(l.payload).Some?
    then [SendingOf(l.payload).value.approval] else []
  }

  ghost function Happen(c: Config, w: World, at: At): World {
    match at.event
    case Elsewhere(t) => w.(t := t)
    case BeginDraft(l, m) =>
      var r := StartDraft(c, w.t, l, m, at.now);
      if r.Failure? then w else w.(t := r.value.0, execs := w.execs[l.worker := Exec(l, PcOf(r.value.1))])
    case BeginSend(l, found) =>
      var (t, r) := StartSend(c, w.t, l, found, at.now);
      w.(t := t, execs := w.execs[l.worker := Exec(l, if r.Success? then PcOf(r.value) else Stopped)],
        spent := w.spent + SpentBy(l, r))
    case Provider(tok, answer) =>
      if tok in w.execs && w.execs[tok].pc.Calling? && !w.execs[tok].pc.go.Have? then
        var key := w.execs[tok].pc.go.key;
        w.(calls := w.calls + [key], execs := w.execs[tok := w.execs[tok].(pc := Recording(key, answer))])
      else w
    case Finished(tok) =>
      if tok in w.execs && w.execs[tok].pc.Recording? then
        var x := w.execs[tok];
        var r := Finish(w.t, x.lease, x.pc.key, x.pc.answer, at.now);
        w.(t := if r.Success? then r.value else w.t, execs := w.execs[tok := x.(pc := Stopped)])
      else w
    case RecoverRows => w.(t := Recover(w.t))
  }

  /** Others never write these ledger rows, and never spend or unspend an approval of this kind. */
  ghost predicate May(w: World, at: At) {
    match at.event
    case Elsewhere(t) =>
      && t.rows == w.t.rows
      && forall a :: a in t.approvals && t.approvals[a].status == Consumed <==>
        a in w.t.approvals && w.t.approvals[a].status == Consumed
    case BeginDraft(l, _) => l.worker in w.execs ==> w.execs[l.worker].pc.Stopped?
    case BeginSend(l, _) => l.worker in w.execs ==> w.execs[l.worker].pc.Stopped?
    case _ => true
  }

  /** The states of a run, and the events between them. */
  datatype Run = Run(worlds: seq<World>, events: seq<At>)

  ghost predicate EventAt(c: Config, r: Run, i: nat) {
    && i < |r.events| && i + 1 < |r.worlds|
    && May(r.worlds[i], r.events[i]) && r.worlds[i + 1] == Happen(c, r.worlds[i], r.events[i])
  }

  ghost predicate IsRun(c: Config, r: Run) {
    |r.worlds| == |r.events| + 1 && r.worlds[0] == DAWN && forall i :: 0 <= i < |r.events| ==> EventAt(c, r, i)
  }

  predicate Caller(w: World, tok: Queue.Token) {
    tok in w.execs && w.execs[tok].pc.Calling?
  }

  /** An executor about to call holds a row that nobody has called for, and nobody else holds. */
  ghost predicate CallersOk(w: World) {
    && (forall tok :: Caller(w, tok) ==>
          var go := w.execs[tok].pc.go; !go.Have? && go.key in w.t.rows && go.key !in w.calls)
    && (forall a, b :: Caller(w, a) && Caller(w, b) && a != b ==> KeyOf(w.execs[a].pc) != KeyOf(w.execs[b].pc))
  }

  function KeyOf(pc: Pc): Option<Key> {
    if pc.Calling? && !pc.go.Have? then Some(pc.go.key) else None
  }

  ghost predicate CallsOk(rows: map<Key, Row>, calls: seq<Key>) {
    && (forall key :: key in calls ==> key in rows)
    && (forall i, j :: 0 <= i < j < |calls| ==> calls[i] != calls[j])
  }

  /** Spent approvals and rows of sends belong to each other. */
  ghost predicate SpentOk(t: Tables, spent: seq<ApprovalId>) {
    && (forall a :: a in spent ==> a in t.approvals && t.approvals[a].status == Consumed)
    && (forall a :: a in t.approvals && t.approvals[a].status == Consumed ==> a in spent)
    && (forall i, j :: 0 <= i < j < |spent| ==> spent[i] != spent[j])
    && (forall key :: key in t.rows && key.SendKey? ==>
      t.rows[key].approval.Some? && t.rows[key].approval.value in spent)
    && (forall k1, k2 :: k1 in t.rows && k2 in t.rows && k1.SendKey? && k2.SendKey? && k1 != k2 ==>
      t.rows[k1].approval != t.rows[k2].approval)
  }

  ghost predicate Safe(w: World) {
    CallersOk(w) && CallsOk(w.t.rows, w.calls) && SpentOk(w.t, w.spent)
  }

  /** A fresh row for a fresh caller. */
  lemma StartKeeps(w: World, w2: World, l: Queue.Lease, pc: Pc)
    requires CallersOk(w) && CallsOk(w.t.rows, w.calls) && (l.worker in w.execs ==> w.execs[l.worker].pc.Stopped?)
    requires w2.calls == w.calls && w2.execs == w.execs[l.worker := Exec(l, pc)]
    requires forall k :: k in w.t.rows ==> k in w2.t.rows
    requires pc.Stopped? || (pc.Calling? && !pc.go.Have? && pc.go.key !in w.t.rows && pc.go.key in w2.t.rows)
    ensures CallersOk(w2) && CallsOk(w2.t.rows, w2.calls)
  {
    forall tok | Caller(w2, tok)
      ensures var go := w2.execs[tok].pc.go; !go.Have? && go.key in w2.t.rows && go.key !in w2.calls
    {
      assert tok != l.worker ==> Caller(w, tok);
    }
    forall a, b | Caller(w2, a) && Caller(w2, b) && a != b ensures KeyOf(w2.execs[a].pc) != KeyOf(w2.execs[b].pc) {
      assert a != l.worker ==> Caller(w, a);
      assert b != l.worker ==> Caller(w, b);
    }
  }

  /** The same callers over rows that only change their contents. */
  lemma SameCallers(w: World, w2: World)
    requires CallersOk(w) && CallsOk(w.t.rows, w.calls) && w2.calls == w.calls && w2.t.rows.Keys == w.t.rows.Keys
    requires forall tok :: Caller(w2, tok) ==> Caller(w, tok) && w2.execs[tok].pc == w.execs[tok].pc
    ensures CallersOk(w2) && CallsOk(w2.t.rows, w2.calls)
  {
  }

  lemma DraftShape(c: Config, t: Tables, l: Queue.Lease, m: Mail, now: int)
    ensures var r := StartDraft(c, t, l, m, now);
      r.Success? && !r.value.1.Have? ==>
        && r.value.1.CallDraft? && r.value.1.key.DraftKey? && r.value.1.key !in t.rows
        && r.value.0 == t.(rows := t.rows[r.value.1.key := r.value.0.rows[r.value.1.key]])
        && r.value.1.key in r.value.0.rows
    ensures var r := StartDraft(c, t, l, m, now); r.Success? && r.value.1.Have? ==> r.value.0 == t
  {
    hide Fenced;
  }

  /** The ways in which the sending transaction can end. */
  lemma SendShape(c: Config, t: Tables, l: Queue.Lease, found: Option<Key>, now: int)
    ensures var (t2, r) := StartSend(c, t, l, found, now);
      || (t2 == t && (r.Failure? || r.value.Have?))
      || (SendingOf(l.payload).Some? &&
          var s := SendingOf(l.payload).value;
          && s.approval in t.approvals && t.approvals[s.approval].status == Approved && s.outreach in t.drafts
          && (|| (r.Failure? && exists expired, changed :: t2 == Withdrawn(t, s, expired, changed))
              || (r.Success? && r.value.CallSend? && r.value.key == SendKey(s.outreach, t.approvals[s.approval].sha)
                  && r.value.key !in t.rows && t2 == Authorised(t, l, s, r.value.key))))
  {
    hide Fenced, SendingOf, ReferenceOf, StillApproved, PastDeadline;
  }

  lemma SpendKeeps(t: Tables, spent: seq<ApprovalId>, l: Queue.Lease, s: Sending, key: Key)
    requires SpentOk(t, spent) && s.approval in t.approvals && t.approvals[s.approval].status == Approved
      && s.outreach in t.drafts
    requires key.SendKey? && key !in t.rows
    ensures SpentOk(Authorised(t, l, s, key), spent + [s.approval])
  {
    var t2, more := Authorised(t, l, s, key), spent + [s.approval];
    assert s.approval !in spent;
    assert forall a :: a in more <==> a in spent || a == s.approval;
    assert forall k :: k in t2.rows && k != key ==> k in t.rows && t2.rows[k] == t.rows[k];
  }

  lemma BeginSendKeeps(c: Config, w: World, l: Queue.Lease, found: Option<Key>, now: int)
    requires Safe(w) && (l.worker in w.execs ==> w.execs[l.worker].pc.Stopped?)
    ensures Safe(Happen(c, w, At(now, BeginSend(l, found))))
  {
    hide SpentOk, CallersOk, CallsOk, StartSend, SendingOf, Authorised, Withdrawn;
    SendShape(c, w.t, l, found, now);
    var w2 := Happen(c, w, At(now, BeginSend(l, found)));
    var (t2, r) := StartSend(c, w.t, l, found, now);
    var pc := if r.Success? then PcOf(r.value) else Stopped;
    if t2 == w.t && (r.Failure? || r.value.Have?) {
      assert w2.spent == w.spent;
      StartKeeps(w, w2, l, pc);
    } else {
      var s := SendingOf(l.payload).value;
      if r.Failure? {
        var expired, changed :| t2 == Withdrawn(w.t, s, expired, changed);
        assert w2.spent == w.spent;
        WithdrawKeeps(w.t, w.spent, s, expired, changed);
        StartKeeps(w, w2, l, pc);
      } else {
        SpendKeeps(w.t, w.spent, l, s, r.value.key);
        Appears(w.t, l, s, r.value.key);
        StartKeeps(w, w2, l, pc);
      }
    }
  }

  lemma Appears(t: Tables, l: Queue.Lease, s: Sending, key: Key)
    requires s.approval in t.approvals && s.outreach in t.drafts
    ensures key in Authorised(t, l, s, key).rows && forall k :: k in t.rows ==> k in Authorised(t, l, s, key).rows
  {
  }

  lemma WithdrawKeeps(t: Tables, spent: seq<ApprovalId>, s: Sending, expired: bool, changed: bool)
    requires SpentOk(t, spent) && s.approval in t.approvals && t.approvals[s.approval].status == Approved
      && s.outreach in t.drafts
    ensures SpentOk(Withdrawn(t, s, expired, changed), spent) && Withdrawn(t, s, expired, changed).rows == t.rows
  {
  }

  lemma FinishShape(t: Tables, l: Queue.Lease, key: Key, answer: Answer, now: int)
    ensures var r := Finish(t, l, key, answer, now);
      r.Success? ==>
        && r.value.rows.Keys == t.rows.Keys && r.value.approvals == t.approvals
        && forall k :: k in t.rows ==> r.value.rows[k].approval == t.rows[k].approval
  {
    hide Fenced;
  }

  lemma SameSpent(t: Tables, t2: Tables, spent: seq<ApprovalId>)
    requires SpentOk(t, spent) && t2.rows.Keys == t.rows.Keys
    requires forall k :: k in t.rows ==> t2.rows[k].approval == t.rows[k].approval
    requires forall a :: a in t2.approvals && t2.approvals[a].status == Consumed <==>
      a in t.approvals && t.approvals[a].status == Consumed
    ensures SpentOk(t2, spent)
  {
  }

  lemma ProviderKeeps(c: Config, w: World, tok: Queue.Token, answer: Answer, now: int)
    requires Safe(w)
    ensures Safe(Happen(c, w, At(now, Provider(tok, answer))))
  {
    hide SpentOk;
    var w2 := Happen(c, w, At(now, Provider(tok, answer)));
    if Caller(w, tok) {
      var key := w.execs[tok].pc.go.key;
      assert forall k :: k in w2.calls <==> k in w.calls || k == key;
      assert KeyOf(w.execs[tok].pc) == Some(key);
      forall t | Caller(w2, t) ensures Caller(w, t) && t != tok && KeyOf(w2.execs[t].pc) != Some(key) {
        assert Caller(w, t);
      }
    }
  }

  lemma HappenKeeps(c: Config, w: World, at: At)
    requires Safe(w) && May(w, at)
    ensures Safe(Happen(c, w, at))
  {
    hide SpentOk, CallersOk, CallsOk, StartSend, StartDraft, Finish;
    var w2 := Happen(c, w, at);
    match at.event {
      case Elsewhere(t) =>
        SameSpent(w.t, t, w.spent);
        SameCallers(w, w2);
      case BeginDraft(l, m) =>
        DraftShape(c, w.t, l, m, at.now);
        var r := StartDraft(c, w.t, l, m, at.now);
        if r.Success? {
          StartKeeps(w, w2, l, PcOf(r.value.1));
          DraftSpent(w.t, r.value.0, w.spent);
        }
      case BeginSend(l, found) => BeginSendKeeps(c, w, l, found, at.now);
      case Provider(tok, answer) => ProviderKeeps(c, w, tok, answer, at.now);
      case Finished(tok) =>
        if w2 != w {
          FinishShape(w.t, w.execs[tok].lease, w.execs[tok].pc.key, w.execs[tok].pc.answer, at.now);
          SameSpent(w.t, w2.t, w.spent);
          SameCallers(w, w2);
        }
      case RecoverRows =>
        SameSpent(w.t, w2.t, w.spent);
        SameCallers(w, w2);
    }
  }

  lemma DraftSpent(t: Tables, t2: Tables, spent: seq<ApprovalId>)
    requires SpentOk(t, spent) && t2.approvals == t.approvals
    requires forall k :: k in t2.rows && k.SendKey? ==> k in t.rows && t2.rows[k] == t.rows[k]
    ensures SpentOk(t2, spent)
  {
  }

  lemma {:induction false} RunSafe(c: Config, r: Run, n: nat)
    requires IsRun(c, r) && n <= |r.events|
    ensures Safe(r.worlds[n])
  {
    hide May, Happen;
    if n > 0 {
      RunSafe(c, r, n - 1);
      assert EventAt(c, r, n - 1);
      hide Safe;
      HappenKeeps(c, r.worlds[n - 1], r.events[n - 1]);
    }
  }

  // ---------------------------------------------------------------- the laws of outreach

  /** Over any run the provider is called at most once per ledger row, and never without one. */
  lemma CalledAtMostOnce(c: Config, r: Run, n: nat)
    requires IsRun(c, r) && n <= |r.events|
    ensures var w := r.worlds[n];
      && (forall i, j :: 0 <= i < j < |w.calls| ==> w.calls[i] != w.calls[j])
      && (forall key :: key in w.calls ==> key in w.t.rows)
  {
    hide SpentOk, CallersOk;
    RunSafe(c, r, n);
  }

  /** Consumed approvals are exactly those of authorised sends, and no two sends share one. */
  lemma ApprovalsSpentOnce(c: Config, r: Run, n: nat)
    requires IsRun(c, r) && n <= |r.events|
    ensures var w := r.worlds[n];
      && (forall i, j :: 0 <= i < j < |w.spent| ==> w.spent[i] != w.spent[j])
      && (forall a :: a in w.t.approvals && w.t.approvals[a].status == Consumed <==> a in w.spent)
      && (forall k1, k2 :: k1 in w.t.rows && k2 in w.t.rows && k1.SendKey? && k2.SendKey? && k1 != k2 ==>
            w.t.rows[k1].approval != w.t.rows[k2].approval)
  {
    RunSafe(c, r, n);
    hide CallersOk, CallsOk;
  }

  /**
   A row whose result is open or known is never called for again: starting over is refused or answered from the
   row.
   */
  lemma NothingIsRepeated(c: Config, t: Tables, l: Queue.Lease, m: Mail, found: Option<Key>, now: int)
    ensures var r := StartDraft(c, t, l, m, now);
      r.Success? && r.value.1.CallDraft? ==> r.value.1.key !in t.rows
    ensures var (t2, r) := StartSend(c, t, l, found, now);
      r.Success? && r.value.CallSend? ==> r.value.key !in t.rows
  {
    hide StartSend, StartDraft;
    DraftShape(c, t, l, m, now);
    SendShape(c, t, l, found, now);
  }

  /**
   A send is authorised only under an unexpired approval by an authorised user whose digest, stored
   review and current email agree, with a confirmed Gmail draft of the same content.
   */
  lemma SendIsBound(c: Config, t: Tables, l: Queue.Lease, found: Option<Key>, now: int)
    requires SendingOf(l.payload).Some? ==>
      var s := SendingOf(l.payload).value;
      s.outreach in t.drafts && s.approval in t.approvals ==>
        Found(t, t.drafts[s.outreach].app, t.approvals[s.approval].sha, found)
    ensures var (t2, r) := StartSend(c, t, l, found, now);
      r.Success? && r.value.CallSend? ==>
        && c.mode == LiveMode && SendingOf(l.payload).Some? && Fenced(t.queue, l, now).Success?
        && var s := SendingOf(l.payload).value;
        && Correlates(t, l, Fenced(t.queue, l, now).value, s) && StillApproved(c, t, s)
        && var a := t.approvals[s.approval];
        && a.status == Approved && !PastDeadline(a, now) && a.decidedBy.Some? && a.decidedBy.value in c.authorized
        && t.files[a.path] == Canonical(EmailValue(t, Mail(s.outreach, s.attachments)).value)
        && exists key ::
             DraftFor(t, t.drafts[s.outreach].app, a.sha, key) && t.rows[key].reference == Some(r.value.draft)
  {
    hide Fenced, SendingOf;
  }
}
