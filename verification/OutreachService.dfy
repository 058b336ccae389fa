/** The outreach action service as it runs: one method per transaction, over tables updated in place. */
module OutreachService {
  import opened Wrappers
  import opened Json
  import opened Submission
  import opened Outreach
  import Queue

  lemma BeginDraftTables(c: Outreach.Config, w: World, l: Queue.Lease, m: Mail, now: int)
    ensures var r := StartDraft(c, w.t, l, m, now);
      Happen(c, w, At(now, Event.BeginDraft(l, m))).t == if r.Success? then r.value.0 else w.t
  {
    hide StartDraft;
  }

  lemma BeginSendTables(c: Outreach.Config, w: World, l: Queue.Lease, found: Option<Key>, now: int)
    ensures Happen(c, w, At(now, Event.BeginSend(l, found))).t == StartSend(c, w.t, l, found, now).0
  {
    hide StartSend;
  }

  /** The executor of this lease has this answer to record. */
  predicate Recorded(w: World, l: Queue.Lease, key: Key, answer: Answer) {
    l.worker in w.execs && w.execs[l.worker] == Exec(l, Recording(key, answer))
  }

  lemma FinishTables(c: Outreach.Config, w: World, l: Queue.Lease, key: Key, answer: Answer, now: int)
    ensures var r := Finish(w.t, l, key, answer, now);
      Recorded(w, l, key, answer) ==>
        Happen(c, w, At(now, Finished(l.worker))).t == if r.Success? then r.value else w.t
  {
    hide Finish;
  }

  lemma RecoverTables(c: Outreach.Config, w: World)
    ensures Happen(c, w, At(0, Event.RecoverRows)).t == Outreach.Recover(w.t) && May(w, At(0, Event.RecoverRows))
  {
    hide Outreach.Recover;
  }

  class OutreachService {
    const config: Outreach.Config
    var queue: Queue.Store
    var drafts: map<OutreachId, Draft>
    var approvals: map<ApprovalId, Approval>
    var rows: map<Key, Row>
    var emails: map<Mail, Option<Json>>
    var files: map<Json, Bytes>
    ghost var world: World    // the run that this object is part of

    ghost function State(): Tables
      reads this
    {
      Tables(queue, drafts, approvals, rows, emails, files)
    }

    /** The tables are those of a run, in which no row is called for twice. */
    ghost predicate Valid()
      reads this
    {
      Safe(world) && world.t == State()
    }

    ghost predicate Legal(e: Event, now: int)
      reads this
    {
      Valid() && May(world, At(now, e))
    }

    constructor (config: Outreach.Config, t: Tables, ghost start: World)
      ensures this.config == config && State() == t && world == start
      ensures start.t == t && Safe(start) ==> Valid()
    {
      this.config := config;
      queue, drafts, approvals, rows, emails, files := t.queue, t.drafts, t.approvals, t.rows, t.emails, t.files;
      world := start;
    }

    /** A legal event keeps the invariant; the methods below say which event each of them is. */
    ghost method Follow(e: Event, now: int)
      modifies this`world
      ensures world == Happen(config, old(world), At(now, e))
      ensures old(Safe(world) && May(world, At(now, e))) ==> Safe(world)
    {
      hide Safe, Happen, May;
      if Safe(world) && May(world, At(now, e)) {
        HappenKeeps(config, world, At(now, e));
      }
      world := Happen(config, world, At(now, e));
    }

    /** Of this object too: the provider was called at most once per row. */
    lemma CalledOnce()
      requires Valid()
      ensures forall i, j :: 0 <= i < j < |world.calls| ==> world.calls[i] != world.calls[j]
      ensures forall key :: key in world.calls ==> key in rows
    {
      hide CallersOk, SpentOk;
    }

    method BeginDraft(l: Queue.Lease, m: Mail, now: int) returns (r: Result<Go, Submission.Error>)
      modifies this`rows, this`world
      ensures var spec := StartDraft(config, old(State()), l, m, now);
        if r.Success? then spec == Success((State(), r.value)) else spec == Failure(r.error) && State() == old(State())
      ensures old(Legal(Event.BeginDraft(l, m), now)) ==> Valid()
    {
      hide Safe, May, Happen, StartDraft;
      BeginDraftTables(config, world, l, m, now);
      Follow(Event.BeginDraft(l, m), now);
      r := StartRow(l, m, now);
    }

    /** The rows of the first transaction of `create_draft`. */
    method StartRow(l: Queue.Lease, m: Mail, now: int) returns (r: Result<Go, Submission.Error>)
      modifies this`rows
      ensures var spec := StartDraft(config, old(State()), l, m, now);
        if r.Success? then spec == Success((State(), r.value)) else spec == Failure(r.error) && State() == old(State())
    {
      if config.mode.DryRun? {
        return Failure(Blocked("gmail_draft_disabled_in_dry_run"));
      }
      var task := Fenced(queue, l, now);
      if task.Failure? {
        return Failure(task.error);
      }
      if task.value.identity.taskType != CONNECT || m.outreach !in drafts
         || task.value.identity.application != Some(drafts[m.outreach].app) {
        return Failure(Blocked("gmail_draft_task_mismatch"));
      }
      if m !in emails || emails[m].None? {
        return Failure(Blocked("email_payload_invalid"));
      }
      var key := DraftKey(m.outreach, EmailSha(emails[m].value));
      if key in rows {
        if rows[key].status == Succeeded && rows[key].reference.Some? {
          return Success(Have(rows[key].reference.value));
        }
        return Failure(Blocked("gmail_draft_result_not_repeatable"));
      }
      rows := rows[key := Row(drafts[m.outreach].app, l.task, None, Executing, None)];
      return Success(CallDraft(key));
    }

    /** The query for a confirmed Gmail draft of this content. */
    method FindDraft(app: AppId, sha: Json) returns (found: Option<Key>)
      ensures Found(State(), app, sha, found)
    {
      var rest := rows.Keys;
      while rest != {}
        invariant rest <= rows.Keys
        invariant forall k :: k in rows && k !in rest ==> !DraftFor(State(), app, sha, k)
        decreases |rest|
      {
        var k :| k in rest;
        if k.DraftKey? && k.sha == sha && rows[k].app == app && rows[k].status == Succeeded {
          return Some(k);
        }
        rest := rest - {k};
      }
      return None;
    }

    /** The first transaction of `send`: authorise, withdraw, answer from the ledger, or refuse. */
    method BeginSend(l: Queue.Lease, now: int) returns (r: Result<Go, Submission.Error>, ghost found: Option<Key>)
      modifies this`rows, this`approvals, this`drafts, this`world
      ensures (State(), r) == StartSend(config, old(State()), l, found, now)
      ensures SendingOf(l.payload).Some? ==>
        var s := SendingOf(l.payload).value;
        s.outreach in old(drafts) && s.approval in old(approvals) ==>
          Found(old(State()), old(drafts)[s.outreach].app, old(approvals)[s.approval].sha, found)
      ensures old(Valid()) && May(old(world), At(now, Event.BeginSend(l, found))) ==> Valid()
    {
      hide Safe, May, Happen, StartSend;
      r, found := SendRow(l, now);
      BeginSendTables(config, world, l, found, now);
      Follow(Event.BeginSend(l, found), now);
    }

    /** The rows of the first transaction of `send`. */
    method SendRow(l: Queue.Lease, now: int) returns (r: Result<Go, Submission.Error>, ghost found: Option<Key>)
      modifies this`rows, this`approvals, this`drafts
      ensures (State(), r) == StartSend(config, old(State()), l, found, now)
      ensures SendingOf(l.payload).Some? ==>
        var s := SendingOf(l.payload).value;
        s.outreach in old(drafts) && s.approval in old(approvals) ==>
          Found(old(State()), old(drafts)[s.outreach].app, old(approvals)[s.approval].sha, found)
    {
      hide Fenced, SendingOf;
      found := None;
      var sending := SendingOf(l.payload);
      if sending.Some? && sending.value.outreach in drafts && sending.value.approval in approvals {
        found := FindDraft(drafts[sending.value.outreach].app, approvals[sending.value.approval].sha);
      }
      if config.mode != LiveMode {
        return Failure(Blocked("email_send_requires_live_mode")), found;
      }
      if sending.None? {
        return Failure(Blocked("email_send_payload_invalid")), found;
      }
      var s := sending.value;
      var task := Fenced(queue, l, now);
      if task.Failure? {
        return Failure(task.error), found;
      }
      var t := Tables(queue, drafts, approvals, rows, emails, files);
      if !Correlates(t, l, task.value, s) {
        return Failure(Blocked("email_send_correlation_invalid")), found;
      }
      var a := approvals[s.approval];
      var key := SendKey(s.outreach, a.sha);
      if a.status == Consumed {
        if key !in rows || rows[key].approval != Some(s.approval) {
          return Failure(Blocked("consumed_email_action_missing")), found;
        }
        r := Replay(key);
        return r, found;
      }
      if a.status != Approved {
        return Failure(Blocked("email_approval_" + Name(a.status))), found;
      }
      if a.decidedBy.None? || a.decidedBy.value !in config.authorized {
        return Failure(Blocked("email_approver_not_authorized")), found;
      }
      var expired, changed := PastDeadline(a, now), !StillApproved(config, t, s);
      if expired || changed {
        approvals := approvals[s.approval := a.(status := if expired then Expired else Revoked)];
        if changed {
          drafts := drafts[s.outreach := drafts[s.outreach].(status := ReadyForReview)];
        }
        return Failure(Blocked(if expired then "email_approval_expired" else "email_payload_changed")), found;
      }
      var draft := FindDraft(drafts[s.outreach].app, a.sha);
      found := draft;
      if draft.None? || rows[draft.value].reference.None? {
        return Failure(Blocked("confirmed_gmail_draft_missing")), found;
      }
      var reference := rows[draft.value].reference.value;
      if key in rows {
        r := Replay(key);
        return r, found;
      }
      rows := rows[key := Row(drafts[s.outreach].app, l.task, Some(s.approval), Executing, None)];
      approvals := approvals[s.approval := a.(status := Consumed)];
      drafts := drafts[s.outreach := drafts[s.outreach].(status := DraftApproved)];
      return Success(CallSend(key, reference)), found;
    }

    /** A send that was authorised before is answered from its row, or left to reconciliation. */
    method Replay(key: Key) returns (r: Result<Go, Submission.Error>)
      requires key in rows
      ensures r == if rows[key].status == Succeeded
                   then Success(Have(if rows[key].reference.Some? then rows[key].reference.value else ""))
                   else Failure(Blocked("email_send_result_requires_reconciliation"))
    {
      if rows[key].status != Succeeded {
        return Failure(Blocked("email_send_result_requires_reconciliation"));
      }
      if rows[key].reference.Some? {
        return Success(Have(rows[key].reference.value));
      }
      return Success(Have(""));
    }

    method FinishCall(l: Queue.Lease, key: Key, answer: Answer, now: int) returns (r: Result<(), Submission.Error>)
      modifies this`rows, this`drafts, this`world
      ensures var spec := Finish(old(State()), l, key, answer, now);
        if r.Success? then spec == Success(State()) else spec == Failure(r.error) && State() == old(State())
      ensures old(Legal(Finished(l.worker), now) && Recorded(world, l, key, answer)) ==> Valid()
    {
      hide Safe, May, Happen, Finish;
      FinishTables(config, world, l, key, answer, now);
      Follow(Finished(l.worker), now);
      r := FinishRow(l, key, answer, now);
    }

    /** The rows of the last transaction of both calls. */
    method FinishRow(l: Queue.Lease, key: Key, answer: Answer, now: int) returns (r: Result<(), Submission.Error>)
      modifies this`rows, this`drafts
      ensures var spec := Finish(old(State()), l, key, answer, now);
        if r.Success? then spec == Success(State()) else spec == Failure(r.error) && State() == old(State())
    {
      var fence := Fenced(queue, l, now);
      if fence.Failure? {
        return Failure(fence.error);
      }
      if key !in rows || (key.SendKey? && key.outreach !in drafts) {
        return Failure(Blocked("assertion"));
      }
      var status := if answer.confirmed then Succeeded else UnknownResult;
      rows := rows[key := rows[key].(status := status, reference := answer.reference)];
      if key.SendKey? && answer.confirmed {
        drafts := drafts[key.outreach := drafts[key.outreach].(status := Sent)];
      }
      return Success(());
    }

    method RecoverRows() returns (count: nat)
      modifies this`rows, this`world
      ensures State() == Outreach.Recover(old(State()))
      ensures count == |set k | k in old(rows) && old(rows)[k].status == Executing|
      ensures old(Valid()) ==> Valid()
    {
      hide Safe, May, Happen, Outreach.Recover;
      RecoverTables(config, world);
      Follow(Event.RecoverRows, 0);
      count := RecoverEach();
    }

    /** The loop of `recover`. */
    method RecoverEach() returns (count: nat)
      modifies this`rows
      ensures State() == Outreach.Recover(old(State()))
      ensures count == |set k | k in old(rows) && old(rows)[k].status == Executing|
    {
      ghost var before := rows;
      var all := set k | k in rows && rows[k].status == Executing;
      var due := all;
      count := 0;
      while due != {}
        invariant due <= all && count == |all| - |due| && rows.Keys == before.Keys
        invariant forall k :: k in rows ==>
          rows[k] == if k in all && k !in due then before[k].(status := UnknownResult) else before[k]
        decreases |due|
      {
        var k :| k in due;
        rows := rows[k := rows[k].(status := UnknownResult)];
        due, count := due - {k}, count + 1;
      }
    }
  }
}
