/**
 What outreach leaves behind: when a draft or a send is authorised, what a provider's answer means for the next
 try, and what withdraws an approval.
 */
module OutreachOutcomes {
  import opened Wrappers
  import opened Json
  import opened Submission
  import opened Outreach
  import Queue

  // ---------------------------------------------------------------- drafts

  /** The mail is this worker's to draft: a connector task of the same application, in a mode that drafts. */
  predicate MayDraft(c: Outreach.Config, t: Tables, l: Queue.Lease, m: Mail, now: int) {
    && c.mode in {Outreach.Review, LiveMode} && Queue.Passes(t.queue, l, now) && m.outreach in t.drafts
    && t.queue.rows[l.task].identity.taskType == CONNECT
    && t.queue.rows[l.task].identity.application == Some(t.drafts[m.outreach].app)
    && m in t.emails && t.emails[m].Some?
  }

  /** The ledger key of the mail's present content. */
  function DraftKeyOf(t: Tables, m: Mail): Key
    requires m in t.emails && t.emails[m].Some?
  {
    DraftKey(m.outreach, Hash(Canonical(t.emails[m].value)))
  }

  /** A draft of new content is authorised exactly then, as an executing row of its own without an approval. */
  lemma DraftStartsIff(c: Outreach.Config, t: Tables, l: Queue.Lease, m: Mail, now: int)
    ensures var r := StartDraft(c, t, l, m, now);
      && (r.Success? && r.value.1.CallDraft? <==> MayDraft(c, t, l, m, now) && DraftKeyOf(t, m) !in t.rows)
      && (r.Success? && r.value.1.CallDraft? ==>
            && r.value.1.key == DraftKeyOf(t, m)
            && r.value.0 == t.(rows := t.rows[DraftKeyOf(t, m) :=
                                 Row(t.drafts[m.outreach].app, l.task, None, Executing, None)]))
      && (r.Success? && r.value.1.Have? <==>
            && MayDraft(c, t, l, m, now) && DraftKeyOf(t, m) in t.rows
            && t.rows[DraftKeyOf(t, m)].status == Succeeded && t.rows[DraftKeyOf(t, m)].reference.Some?)
      && (r.Success? && r.value.1.Have? ==>
            r.value == (t, Have(t.rows[DraftKeyOf(t, m)].reference.value)))
      && (r.Success? ==> r.value.1.CallDraft? || r.value.1.Have?)
  {
  }

  // ---------------------------------------------------------------- the provider's answer

  /** A recorded answer: this row's status and reference, and a confirmed send marks its draft. */
  ghost predicate AnswerStands(t: Tables, t2: Tables, key: Key, answer: Answer) {
    && key in t.rows && key in t2.rows && t2 == t.(rows := t.rows[key := t2.rows[key]], drafts := t2.drafts)
    && t2.rows[key] == t.rows[key].(status := t2.rows[key].status, reference := answer.reference)
    && (answer.confirmed ==> t2.rows[key].status == Succeeded)
    && (!answer.confirmed ==> t2.rows[key].status == UnknownResult)
    && t2.drafts.Keys == t.drafts.Keys
    && (forall o :: o in t.drafts ==>
          t2.drafts[o] == if key.SendKey? && o == key.outreach && answer.confirmed then t.drafts[o].(status := Sent)
                          else t.drafts[o])
  }

  /** A holder whose lease passes can record any answer for its row, and nobody else can. */
  lemma AnswerIsRecordedIff(t: Tables, l: Queue.Lease, key: Key, answer: Answer, now: int)
    ensures var r := Finish(t, l, key, answer, now);
      && (r.Success? <==>
            Queue.Passes(t.queue, l, now) && key in t.rows && (key.SendKey? ==> key.outreach in t.drafts))
      && (r.Success? ==> AnswerStands(t, r.value, key, answer))
  {
  }

  /** The same draft asked for again is answered from the ledger if it was confirmed, and refused if it is unknown. */
  lemma DraftAgain(c: Outreach.Config, t: Tables, l: Queue.Lease, m: Mail, answer: Answer, now: int, l2: Queue.Lease,
      later: int)
    requires StartDraft(c, t, l, m, now).Success? && StartDraft(c, t, l, m, now).value.1.CallDraft?
    requires var (t1, go) := StartDraft(c, t, l, m, now).value; Finish(t1, l, go.key, answer, now).Success?
    ensures var (t1, go) := StartDraft(c, t, l, m, now).value;
      var t2 := Finish(t1, l, go.key, answer, now).value;
      MayDraft(c, t2, l2, m, later) ==>
        StartDraft(c, t2, l2, m, later)
        == if answer.confirmed && answer.reference.Some? then Success((t2, Have(answer.reference.value)))
           else Failure(Blocked("gmail_draft_result_not_repeatable"))
  {
    DraftStartsIff(c, t, l, m, now);
  }

  // ---------------------------------------------------------------- sending

  /** The task's payload names an email, an approval, and a list of attachments that may be left out. */
  lemma SendingIff(payload: Memory, s: Sending)
    ensures SendingOf(payload) == Some(s) <==>
      && "outreach_id" in payload && payload["outreach_id"] == Id(s.outreach)
      && "approval_id" in payload && payload["approval_id"] == Id(s.approval)
      && (if "attachment_ids" in payload
          then payload["attachment_ids"] == s.attachments && s.attachments.Arr?
               && forall i :: 0 <= i < |s.attachments.items| ==> IsText(s.attachments.items[i])
          else s.attachments == Arr([]))
  {
  }

  /** The email, its approval and the holder's task belong together. */
  predicate Belongs(t: Tables, l: Queue.Lease, s: Sending) {
    && l.task in t.queue.rows && t.queue.rows[l.task].identity.taskType == "SEND_OUTREACH_EMAIL"
    && s.outreach in t.drafts && s.approval in t.approvals
    && t.queue.rows[l.task].identity.application == Some(t.drafts[s.outreach].app)
    && t.drafts[s.outreach].approval == Some(s.approval)
    && t.approvals[s.approval].task == l.task && t.approvals[s.approval].app == t.drafts[s.outreach].app
  }

  /** In live mode, by a holder, for an email that belongs. */
  predicate MaySend(c: Outreach.Config, t: Tables, l: Queue.Lease, s: Sending, now: int) {
    && c.mode == LiveMode && SendingOf(l.payload) == Some(s) && Queue.Passes(t.queue, l, now) && Belongs(t, l, s)
  }

  /** The approval was given by an authorised user and not used. */
  predicate Given(c: Outreach.Config, a: Approval) {
    a.status == Approved && a.decidedBy.Some? && a.decidedBy.value in c.authorized
  }

  predicate InTime(a: Approval, now: int) {
    a.validUntil.Some? && now < a.validUntil.value * 1000
  }

  /** The email as it is now has the approved digest and is word for word the stored review. */
  predicate AsApproved(c: Outreach.Config, t: Tables, s: Sending)
    requires s.approval in t.approvals
  {
    var a, m := t.approvals[s.approval], Mail(s.outreach, s.attachments);
    && m in t.emails && t.emails[m].Some? && Hash(Canonical(t.emails[m].value)) == a.sha
    && a.path in t.files && c.readable(t.files[a.path]) && t.files[a.path] == Canonical(t.emails[m].value)
  }

  /** A confirmed draft of the content was found, and what Gmail calls it. */
  predicate HasDraft(t: Tables, found: Option<Key>) {
    found.Some? && found.value in t.rows && t.rows[found.value].reference.Some?
  }

  /** A send is authorised exactly then; the row appears, the approval is spent and the draft moves on. */
  lemma SendStartsIff(c: Outreach.Config, t: Tables, l: Queue.Lease, found: Option<Key>, s: Sending, now: int)
    requires SendingOf(l.payload) == Some(s)
    ensures var (t2, r) := StartSend(c, t, l, found, now);
      && (r.Success? && r.value.CallSend? <==>
            && MaySend(c, t, l, s, now) && Given(c, t.approvals[s.approval]) && InTime(t.approvals[s.approval], now)
            && AsApproved(c, t, s) && HasDraft(t, found) && SendKey(s.outreach, t.approvals[s.approval].sha) !in t.rows)
      && (r.Success? && r.value.CallSend? ==>
            var key := SendKey(s.outreach, t.approvals[s.approval].sha);
            && r.value == CallSend(key, t.rows[found.value].reference.value)
            && t2.queue == t.queue && t2.emails == t.emails && t2.files == t.files
            && t2.rows == t.rows[key := Row(t.drafts[s.outreach].app, l.task, Some(s.approval), Executing, None)]
            && t2.approvals == t.approvals[s.approval := t.approvals[s.approval].(status := Consumed)]
            && t2.drafts == t.drafts[s.outreach := t.drafts[s.outreach].(status := DraftApproved)])
  {
    hide SendingOf;
  }

  /** A confirmed Gmail draft of the application with this very content. */
  predicate IsDraftOf(t: Tables, app: AppId, sha: Json, key: Key) {
    key.DraftKey? && key.sha == sha && key in t.rows && t.rows[key].app == app && t.rows[key].status == Succeeded
  }

  /** What is sent is such a draft, and without one nothing is. */
  lemma SendsItsDraft(c: Outreach.Config, t: Tables, l: Queue.Lease, found: Option<Key>, s: Sending, now: int)
    requires SendingOf(l.payload) == Some(s) && s.outreach in t.drafts && s.approval in t.approvals
    requires Found(t, t.drafts[s.outreach].app, t.approvals[s.approval].sha, found)
    ensures var (_, r) := StartSend(c, t, l, found, now);
      r.Success? && r.value.CallSend? ==>
        exists key :: IsDraftOf(t, t.drafts[s.outreach].app, t.approvals[s.approval].sha, key)
                      && t.rows[key].reference == Some(r.value.draft)
    ensures found.None? <==>
      forall key :: !IsDraftOf(t, t.drafts[s.outreach].app, t.approvals[s.approval].sha, key)
  {
    SendStartsIff(c, t, l, found, s, now);
    hide SendingOf, StartSend;
    if found.Some? {
      assert IsDraftOf(t, t.drafts[s.outreach].app, t.approvals[s.approval].sha, found.value);
    } else {
      forall key ensures !IsDraftOf(t, t.drafts[s.outreach].app, t.approvals[s.approval].sha, key) {
        assert key in t.rows ==> !DraftFor(t, t.drafts[s.outreach].app, t.approvals[s.approval].sha, key);
      }
    }
  }

  /** Content that was sent before, under an earlier approval, is answered from the ledger and not sent again. */
  lemma SentBeforeIsAnswered(c: Outreach.Config, t: Tables, l: Queue.Lease, found: Option<Key>, s: Sending, now: int)
    requires SendingOf(l.payload) == Some(s) && MaySend(c, t, l, s, now) && Given(c, t.approvals[s.approval])
    requires InTime(t.approvals[s.approval], now) && AsApproved(c, t, s) && HasDraft(t, found)
    requires SendKey(s.outreach, t.approvals[s.approval].sha) in t.rows
    ensures var row := t.rows[SendKey(s.outreach, t.approvals[s.approval].sha)];
      StartSend(c, t, l, found, now)
      == (t, if row.status == Succeeded then Success(Have(if row.reference.Some? then row.reference.value else ""))
             else Failure(Blocked("email_send_result_requires_reconciliation")))
  {
    hide SendingOf;
  }

  /** A given approval that ran out, or whose email changed, is withdrawn; a changed email goes back for review. */
  lemma WithdrawnIff(c: Outreach.Config, t: Tables, l: Queue.Lease, found: Option<Key>, s: Sending, now: int)
    requires SendingOf(l.payload) == Some(s)
    ensures var (t2, r) := StartSend(c, t, l, found, now);
      var withdrawn := MaySend(c, t, l, s, now) && Given(c, t.approvals[s.approval])
        && (!InTime(t.approvals[s.approval], now) || !AsApproved(c, t, s));
      && (withdrawn ==>
            && r == Failure(Blocked(if InTime(t.approvals[s.approval], now) then "email_payload_changed"
                                    else "email_approval_expired"))
            && t2 == t.(approvals := t2.approvals, drafts := t2.drafts)
            && t2.approvals == t.approvals[s.approval := t.approvals[s.approval].(status :=
                 if InTime(t.approvals[s.approval], now) then Revoked else Expired)]
            && t2.drafts == if AsApproved(c, t, s) then t.drafts
                            else t.drafts[s.outreach := t.drafts[s.outreach].(status := ReadyForReview)])
      && (!withdrawn && !(r.Success? && r.value.CallSend?) ==> t2 == t)
  {
    hide SendingOf;
  }

  /** A send whose outcome is recorded is answered from the ledger when tried again, and never called again. */
  lemma SendAgain(c: Outreach.Config, t: Tables, l: Queue.Lease, found: Option<Key>, s: Sending, answer: Answer,
      now: int, l2: Queue.Lease, found2: Option<Key>, later: int)
    requires SendingOf(l.payload) == Some(s)
    requires var (t1, r) := StartSend(c, t, l, found, now);
      r.Success? && r.value.CallSend? && Finish(t1, l, r.value.key, answer, now).Success?
    ensures var (t1, r) := StartSend(c, t, l, found, now);
      var t2 := Finish(t1, l, r.value.key, answer, now).value;
      && s.outreach in t2.drafts && (answer.confirmed ==> t2.drafts[s.outreach].status == Sent)
      && (MaySend(c, t2, l2, s, later) ==>
            StartSend(c, t2, l2, found2, later)
            == (t2, if answer.confirmed
                    then Success(Have(if answer.reference.Some? then answer.reference.value else ""))
                    else Failure(Blocked("email_send_result_requires_reconciliation"))))
  {
    SendStartsIff(c, t, l, found, s, now);
    var (t1, r) := StartSend(c, t, l, found, now);
    AnswerIsRecordedIff(t1, l, r.value.key, answer, now);
    var t2 := Finish(t1, l, r.value.key, answer, now).value;
    if MaySend(c, t2, l2, s, later) {
      AfterSend(c, t2, l2, found2, s, later);
    }
    hide SendingOf, StartSend, Finish;
  }

  /** With the approval spent, the ledger decides. */
  lemma AfterSend(c: Outreach.Config, t: Tables, l: Queue.Lease, found: Option<Key>, s: Sending, now: int)
    requires SendingOf(l.payload) == Some(s)
    ensures MaySend(c, t, l, s, now) && t.approvals[s.approval].status == Consumed ==>
      var key := SendKey(s.outreach, t.approvals[s.approval].sha);
      StartSend(c, t, l, found, now)
      == (t, if key !in t.rows || t.rows[key].approval != Some(s.approval)
               then Failure(Blocked("consumed_email_action_missing"))
             else if t.rows[key].status == Succeeded
               then Success(Have(if t.rows[key].reference.Some? then t.rows[key].reference.value else ""))
             else Failure(Blocked("email_send_result_requires_reconciliation")))
  {
    hide SendingOf;
  }

  /** After recovery nothing is executing, and what was has an unknown result; all else is as it was. */
  lemma RecoveryMeans(t: Tables)
    ensures var t2 := Outreach.Recover(t);
      && t2 == t.(rows := t2.rows) && t2.rows.Keys == t.rows.Keys
      && (forall key :: key in t.rows ==>
            t2.rows[key] == if t.rows[key].status == Executing then t.rows[key].(status := UnknownResult)
                            else t.rows[key])
  {
  }
}
