/**
 What one execution of a browser effect does from its first check to its outcome, when nobody disturbs it:
 which answers of the adapter lead to a mutation, and how its row ends.
 */
module BrowserOutcomes {
  import opened Wrappers
  import opened Json
  import opened Submission
  import opened Browser
  import opened BrowserRuns
  import Queue

  /** The approval is for this application, task and plan, decided and in time, and the plan is on disk as approved. */
  predicate Sanctions(t: Tables, l: Queue.Lease, e: Effect, now: int) {
    && e.approval in t.approvals && t.approvals[e.approval].app == e.app && t.approvals[e.approval].task == l.task
    && t.approvals[e.approval].sha == e.plan && t.approvals[e.approval].status in {Approved, Consumed}
    && (t.approvals[e.approval].validUntil.None? || now < t.approvals[e.approval].validUntil.value * 1000)
    && t.approvals[e.approval].path in t.files && Hash(t.files[t.approvals[e.approval].path]) == e.plan
  }

  /** The row of this key is this very effect's. */
  predicate IsRowOf(row: Row, l: Queue.Lease, e: Effect) {
    && row.app == e.app && row.task == l.task && row.approval == e.approval && row.kind == e.kind
    && row.request == e.request
  }

  predicate MayAct(t: Tables, l: Queue.Lease, e: Effect, now: int) {
    Queue.Passes(t.queue, l, now) && Sanctions(t, l, e, now)
  }

  /** An effect is admitted exactly for a holder under its approval, unless its key names another effect. */
  lemma AdmittedIff(t: Tables, l: Queue.Lease, e: Effect, now: int)
    ensures var r := Admit(t, l, e, now);
      && (r.Success? <==> MayAct(t, l, e, now) && (e.key in t.rows ==> IsRowOf(t.rows[e.key], l, e)))
      && (r.Success? && e.key in t.rows ==> r.value == (t, t.rows[e.key].status))
      && (r.Success? && e.key !in t.rows ==>
            && r.value.1 == Planned && e.key in r.value.0.rows && IsRowOf(r.value.0.rows[e.key], l, e)
            && r.value.0.rows[e.key].status == Planned
            && r.value.0 == t.(rows := t.rows[e.key := r.value.0.rows[e.key]]))
  {
  }

  /** The approval is for this application, task and plan, and was decided in favour. */
  predicate ForThis(a: Approval, l: Queue.Lease, e: Effect) {
    a.app == e.app && a.task == l.task && a.sha == e.plan && a.status in {Approved, Consumed}
  }

  predicate StillInTime(a: Approval, now: int) {
    a.validUntil.None? || now < a.validUntil.value * 1000
  }

  /** The error of a refused effect names the first thing that is wrong with its approval. */
  lemma RefusalNames(t: Tables, l: Queue.Lease, e: Effect, now: int)
    requires Queue.Passes(t.queue, l, now) && !Sanctions(t, l, e, now)
    ensures var r := Admit(t, l, e, now);
      && (e.approval !in t.approvals ==> r == Failure(Blocked("prepare_approval_missing")))
      && (e.approval in t.approvals ==>
            var a := t.approvals[e.approval];
            && (!ForThis(a, l, e) ==> r == Failure(Blocked("prepare_approval_invalid")))
            && (ForThis(a, l, e) && !StillInTime(a, now) ==> r == Failure(Blocked("prepare_approval_expired")))
            && (ForThis(a, l, e) && StillInTime(a, now) && a.path !in t.files ==>
                  r == Failure(Blocked("prepare_approval_payload_unavailable")))
            && (ForThis(a, l, e) && StillInTime(a, now) && a.path in t.files ==>
                  r == Failure(Blocked("prepare_approval_payload_changed"))))
  {
  }

  /** A planned effect is authorised exactly so; its approval is spent, and nothing else changes. */
  lemma AuthorisedIff(t: Tables, l: Queue.Lease, e: Effect, now: int)
    ensures var r := Authorise(t, l, e, now);
      && (r.Success? <==> MayAct(t, l, e, now) && e.key in t.rows && t.rows[e.key].status == Planned)
      && (r.Success? ==>
            r.value == t.(rows := t.rows[e.key := t.rows[e.key].(status := Executing)],
                          approvals := t.approvals[e.approval := t.approvals[e.approval].(status := Consumed)]))
  {
  }

  lemma ReappliedIff(t: Tables, l: Queue.Lease, e: Effect, now: int)
    ensures var r := Reapply(t, l, e, now);
      && (r.Success? <==> MayAct(t, l, e, now) && e.key in t.rows)
      && (r.Success? ==> r.value == t.(rows := t.rows[e.key := t.rows[e.key].(status := Executing)]))
  {
  }

  lemma RecordedIff(t: Tables, l: Queue.Lease, key: Key, status: ActionStatus, now: int)
    ensures var r := Browser.Record(t, l, key, status, now);
      && (r.Success? <==> Queue.Passes(t.queue, l, now) && key in t.rows)
      && (r.Success? ==> r.value == t.(rows := t.rows[key := t.rows[key].(status := status)]))
  {
  }

  /** Recovery gives exactly the executing fills and uploads an unknown result. */
  lemma RecoveryMeans(t: Tables)
    ensures var t2 := Browser.Recover(t);
      && t2 == t.(rows := t2.rows) && t2.rows.Keys == t.rows.Keys
      && forall key :: key in t.rows ==>
           t2.rows[key] == if t.rows[key].status == Executing && t.rows[key].kind in {"BROWSER_FILL", "BROWSER_UPLOAD"}
                           then t.rows[key].(status := UnknownResult) else t.rows[key]
  {
  }

  // ---------------------------------------------------------------- whole executions

  /** The steps of one executor, with what the adapter answers to each. */
  function Executed(w: World, tok: Queue.Token, answers: seq<bool>): (w2: World)
    requires tok in w.execs
    ensures tok in w2.execs
    decreases |answers|
  {
    if answers == [] then w else
    var w2 := Executed(w, tok, answers[..|answers| - 1]);
    StepKeepsToken(w2, tok, answers[|answers| - 1]);
    StepExec(w2, tok, answers[|answers| - 1])
  }

  lemma StepKeepsToken(w: World, tok: Queue.Token, yes: bool)
    requires tok in w.execs
    ensures tok in StepExec(w, tok, yes).execs
  {
    hide Fenced, Permits;
  }

  lemma ExecutedMore(w: World, tok: Queue.Token, answers: seq<bool>, yes: bool)
    requires tok in w.execs
    ensures Executed(w, tok, []) == w
    ensures Executed(w, tok, answers + [yes]) == StepExec(Executed(w, tok, answers), tok, yes)
  {
    hide StepExec;
    assert (answers + [yes])[..|answers|] == answers;
  }

  function Ended(yes: bool): ActionStatus {
    if yes then Succeeded else UnknownResult
  }

  /** Where the execution and its row have come to. */
  predicate At(w: World, l: Queue.Lease, e: Effect, pc: Pc, status: ActionStatus) {
    && l.worker in w.execs && w.execs[l.worker] == Exec(l, pc)
    && e.key in w.t.rows && w.t.rows[e.key].status == status
  }

  /** Authorised, called, recorded: the three steps that apply an effect. */
  lemma AuthorisingStep(w: World, l: Queue.Lease, e: Effect, yes: bool)
    requires At(w, l, e, Authorising(e), Planned) && MayAct(w.t, l, e, w.now)
    ensures var w2 := StepExec(w, l.worker, yes);
      && At(w2, l, e, Mutating(e, |w.auths|), Executing) && |w2.auths| == |w.auths| + 1 && w2.calls == w.calls
      && w2.wins == w.wins && w2.now == w.now && w2.t.queue == w.t.queue
      && e.approval in w2.t.approvals && w2.t.approvals[e.approval].status == Consumed
  {
    AuthorisedIff(w.t, l, e, w.now);
    hide Authorise;
  }

  lemma ReapplyingStep(w: World, l: Queue.Lease, e: Effect, yes: bool)
    requires At(w, l, e, Reapplying(e), Succeeded) && MayAct(w.t, l, e, w.now)
    ensures var w2 := StepExec(w, l.worker, yes);
      && At(w2, l, e, Mutating(e, |w.auths|), Executing) && |w2.auths| == |w.auths| + 1 && w2.calls == w.calls
      && w2.wins == w.wins && w2.now == w.now && w2.t.queue == w.t.queue
  {
    ReappliedIff(w.t, l, e, w.now);
    hide Reapply;
  }

  lemma MutatingStep(w: World, l: Queue.Lease, e: Effect, auth: nat, yes: bool)
    requires At(w, l, e, Mutating(e, auth), Executing) && auth < |w.auths|
    ensures var w2 := StepExec(w, l.worker, yes);
      && At(w2, l, e, Recording(e, Ended(yes)), Executing) && w2.calls == w.calls + [e.key] && w2.wins == w.wins
      && w2.t == w.t && w2.now == w.now
  {
  }

  lemma RecordingStep(w: World, l: Queue.Lease, e: Effect, status: ActionStatus, yes: bool)
    requires At(w, l, e, Recording(e, Ended(yes)), status) && status != Succeeded && Queue.Passes(w.t.queue, l, w.now)
    ensures var w2 := StepExec(w, l.worker, true);
      && At(w2, l, e, Stopped, Ended(yes)) && w2.calls == w.calls && w2.auths == w.auths
      && w2.t.approvals == w.t.approvals && w2.wins == w.wins + (if yes then [e.key] else [])
  {
    RecordedIff(w.t, l, e.key, Ended(yes), w.now);
    hide Browser.Record;
  }

  /** An effect seen for the first time is applied once, and ends confirmed or unknown as the adapter says. */
  lemma FirstExecution(w: World, l: Queue.Lease, e: Effect, yes: bool)
    requires MayAct(w.t, l, e, w.now) && e.key !in w.t.rows
    ensures var w0 := BeginExec(w, l, e);
      l.worker in w0.execs &&
      var w3 := Executed(w0, l.worker, [true, yes, true]);
      && w3.calls == w.calls + [e.key] && At(w3, l, e, Stopped, Ended(yes))
      && e.approval in w3.t.approvals && w3.t.approvals[e.approval].status == Consumed
      && w3.wins == w.wins + (if yes then [e.key] else [])
  {
    AdmittedIff(w.t, l, e, w.now);
    var w0, tok := BeginExec(w, l, e), l.worker;
    hide Admit, Executed, Permits, Queue.Passes;
    assert At(w0, l, e, Authorising(e), Planned) && MayAct(w0.t, l, e, w0.now);
    ExecutedMore(w0, tok, [], true);
    ExecutedMore(w0, tok, [true], yes);
    ExecutedMore(w0, tok, [true, yes], true);
    assert [] + [true] == [true] && [true] + [yes] == [true, yes] && [true, yes] + [true] == [true, yes, true];
    hide StepExec, BeginExec, MayAct, Sanctions;
    AuthorisingStep(w0, l, e, true);
    MutatingStep(Executed(w0, tok, [true]), l, e, |w0.auths|, yes);
    RecordingStep(Executed(w0, tok, [true, yes]), l, e, Executing, yes);
  }

  /** An effect whose outcome is open is never applied again: the adapter is only asked whether it shows. */
  lemma OpenIsOnlyProbed(w: World, l: Queue.Lease, e: Effect, yes: bool)
    requires MayAct(w.t, l, e, w.now) && e.key in w.t.rows && IsRowOf(w.t.rows[e.key], l, e)
    requires w.t.rows[e.key].status in {Executing, UnknownResult}
    ensures var w0 := BeginExec(w, l, e);
      l.worker in w0.execs &&
      var w2 := Executed(w0, l.worker, [yes, true]);
      w2.calls == w.calls && w2.auths == w.auths && At(w2, l, e, Stopped, Ended(yes))
  {
    AdmittedIff(w.t, l, e, w.now);
    var w0, tok := BeginExec(w, l, e), l.worker;
    ExecutedMore(w0, tok, [], yes);
    ExecutedMore(w0, tok, [yes], true);
    assert [] + [yes] == [yes] && [yes] + [true] == [yes, true];
    hide Admit, Executed, Permits;
    assert At(w0, l, e, Probing(e), w.t.rows[e.key].status);
    assert At(Executed(w0, tok, [yes]), l, e, Recording(e, Ended(yes)), w.t.rows[e.key].status);
  }

  /** The effect was confirmed earlier and may be executed again. */
  predicate MayConfirm(w: World, l: Queue.Lease, e: Effect) {
    && MayAct(w.t, l, e, w.now) && e.key in w.t.rows && IsRowOf(w.t.rows[e.key], l, e)
    && w.t.rows[e.key].status == Succeeded
  }

  lemma ConfirmingStep(w: World, l: Queue.Lease, e: Effect, shows: bool)
    requires MayConfirm(w, l, e)
    ensures var w0 := BeginExec(w, l, e);
      l.worker in w0.execs &&
      var w1 := StepExec(w0, l.worker, shows);
      && At(w1, l, e, if shows then Stopped else Reapplying(e), Succeeded)
      && w1.t == w.t && w1.calls == w.calls && w1.auths == w.auths && w1.now == w.now && w1.wins == w.wins
  {
    AdmittedIff(w.t, l, e, w.now);
    hide Admit, Permits, Queue.Passes;
  }

  /** A confirmed effect that still shows is left alone. */
  lemma ConfirmedIsLeft(w: World, l: Queue.Lease, e: Effect)
    requires MayConfirm(w, l, e)
    ensures var w0 := BeginExec(w, l, e);
      l.worker in w0.execs &&
      var w1 := Executed(w0, l.worker, [true]);
      w1.calls == w.calls && w1.t == w.t && At(w1, l, e, Stopped, Succeeded)
  {
    ConfirmingStep(w, l, e, true);
    var w0 := BeginExec(w, l, e);
    ExecutedMore(w0, l.worker, [], true);
    assert [] + [true] == [true];
    hide StepExec, BeginExec, Executed, MayConfirm;
  }

  /** One that is gone is applied once more, and ends confirmed or unknown as the adapter says. */
  lemma GoneIsReapplied(w: World, l: Queue.Lease, e: Effect, yes: bool)
    requires MayConfirm(w, l, e)
    ensures var w0 := BeginExec(w, l, e);
      l.worker in w0.execs &&
      var w4 := Executed(w0, l.worker, [false, true, yes, true]);
      w4.calls == w.calls + [e.key] && At(w4, l, e, Stopped, Ended(yes))
  {
    ConfirmingStep(w, l, e, false);
    var w0, tok := BeginExec(w, l, e), l.worker;
    hide StepExec, BeginExec, Executed, Sanctions;
    ExecutedMore(w0, tok, [], false);
    ExecutedMore(w0, tok, [false], true);
    ExecutedMore(w0, tok, [false, true], yes);
    ExecutedMore(w0, tok, [false, true, yes], true);
    assert [] + [false] == [false] && [false] + [true] == [false, true];
    assert [false, true] + [yes] == [false, true, yes] && [false, true, yes] + [true] == [false, true, yes, true];
    var w1 := Executed(w0, tok, [false]);
    ReapplyingStep(w1, l, e, true);
    MutatingStep(Executed(w0, tok, [false, true]), l, e, |w.auths|, yes);
    RecordingStep(Executed(w0, tok, [false, true, yes]), l, e, Executing, yes);
  }
}
