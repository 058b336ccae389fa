/**
 Runs of browser effects that confirm an effect, find it gone and apply it again, as often as one likes.
 They show that the bound on mutations is met and cannot be lowered.
 */
module BrowserReach {
  import opened Wrappers
  import opened Json
  import opened Submission
  import opened Browser
  import opened BrowserRuns
  import opened QueueRuns
  import QueueLaws
  import Queue

  ghost predicate Ends(c: Queue.Config, r: BrowserRuns.Run, w: World) {
    IsRun(c, r) && r.worlds[|r.events|] == w
  }

  ghost predicate Reached(c: Queue.Config, w: World) {
    exists r :: Ends(c, r, w)
  }

  lemma DawnReached(c: Queue.Config)
    ensures Reached(c, DAWN)
  {
    assert Ends(c, BrowserRuns.Run([DAWN], []), DAWN);
  }

  lemma Reach(c: Queue.Config, w: World, at: At)
    requires Reached(c, w) && May(w, at)
    ensures Reached(c, Happen(c, w, at))
  {
    hide May, Happen;
    var r :| Ends(c, r, w);
    var r2 := BrowserRuns.Run(r.worlds + [Happen(c, w, at)], r.events + [at]);
    forall i | 0 <= i < |r2.events| ensures EventAt(c, r2, i) {
      if i < |r.events| {
        assert EventAt(c, r, i);
      }
    }
    assert Ends(c, r2, Happen(c, w, at));
  }

  // ---------------------------------------------------------------- what the runs are made of

  const TASK: Queue.Identity := Queue.Identity("FILL_APPLICATION", None, Some(0), Some(0), None, map[])
  const DATA: Queue.TaskCreate := Queue.TaskCreate(TASK, 100, 3, None)
  const LEASE: Queue.Lease := Queue.Lease(0, 100, 1, "FILL_APPLICATION", map[])
  const PLAN: Json := Hash(Canonical(Null))
  const EFFECT: Effect := Effect(0, 0, PLAN, FILL, "fill", Null)
  const APPROVED: Approval := Approval(0, 0, Path([0]), PLAN, Approved, None, Some(0))

  /** The worker holds its task, and the plan is approved and on disk. */
  ghost predicate Standing(w: World) {
    && w.now == 0 && LEASE in w.issued && Queue.Passes(w.t.queue, LEASE, 0) && Permits(w.t, LEASE, EFFECT, 0)
  }

  /** How often the effect was applied, and how often confirmed. */
  ghost predicate Counted(w: World, calls: nat, wins: nat) {
    BrowserRuns.Count(w.calls, EFFECT.key) == calls && BrowserRuns.Count(w.wins, EFFECT.key) == wins
  }

  /** The executor is at `pc`, its row has this status, and the logs have these counts. */
  ghost predicate Point(w: World, pc: Pc, status: ActionStatus, calls: nat, wins: nat) {
    && Standing(w) && LEASE.worker in w.execs && w.execs[LEASE.worker] == Exec(LEASE, pc)
    && EFFECT.key in w.t.rows && w.t.rows[EFFECT.key] == Row(0, 0, 0, FILL, Null, status)
    && Counted(w, calls, wins)
    && (pc.Mutating? ==> pc.auth < |w.auths|)
  }

  // ---------------------------------------------------------------- up to the first authorisation

  /** A task is enqueued and claimed. */
  lemma TaskClaimed(c: Queue.Config) returns (w: World)
    requires c.leaseMicros >= 1_000
    ensures Reached(c, w) && w.now == 0 && w.issued == [LEASE] && Queue.Passes(w.t.queue, LEASE, 0)
    ensures w == DAWN.(t := DAWN.t.(queue := w.t.queue), issued := w.issued)
  {
    DawnReached(c);
    var enqueue := At(0, QueueStep(OpEnqueue(DATA, Queue.Ready, 0)));
    var w1 := Happen(c, DAWN, enqueue);
    Reach(c, DAWN, enqueue);
    hide Reached;
    assert w1.t.queue.rows == map[0 := Queue.FreshRow(DATA, Queue.Ready, 0).(version := 2)];
    QueueLaws.ClaimsOnly(c, w1.t.queue, {"FILL_APPLICATION"}, 100, 0, 0);
    var claim := At(0, QueueStep(OpClaim({"FILL_APPLICATION"}, 100)));
    Reach(c, w1, claim);
    w := Happen(c, w1, claim);
  }

  lemma PlanApproved(c: Queue.Config) returns (w: World)
    requires c.leaseMicros >= 1_000
    ensures Reached(c, w) && Standing(w)
    ensures w.t.rows == map[] && w.execs == map[] && w.auths == [] && w.calls == [] && w.wins == []
  {
    var w1 := TaskClaimed(c);
    hide Reached, Queue.Passes;
    Reach(c, w1, At(0, Decide(0, APPROVED)));
    var w2 := Happen(c, w1, At(0, Decide(0, APPROVED)));
    Reach(c, w2, At(0, WriteFile(Path([0]), Canonical(Null))));
    w := Happen(c, w2, At(0, WriteFile(Path([0]), Canonical(Null))));
  }

  /** The effect is planned and authorised for the first time. */
  lemma FirstAuthorised(c: Queue.Config) returns (w: World, auth: nat)
    requires c.leaseMicros >= 1_000
    ensures Reached(c, w) && Point(w, Mutating(EFFECT, auth), Executing, 0, 0)
  {
    var w1 := PlanApproved(c);
    hide Reached, Queue.Passes;
    var begin := At(0, Begin(LEASE, EFFECT));
    Passing(w1.t.queue);
    Reach(c, w1, begin);
    var w2 := Happen(c, w1, begin);
    assert Point(w2, Authorising(EFFECT), Planned, 0, 0);
    var proceed := At(0, Proceed(LEASE.worker, true));
    Reach(c, w2, proceed);
    w, auth := Happen(c, w2, proceed), 0;
  }

  lemma Passing(q: Queue.Store)
    requires Queue.Passes(q, LEASE, 0)
    ensures Fenced(q, LEASE, 0).Success?
  {
  }

  // ---------------------------------------------------------------- one round

  /** The authorised mutation is called and answers that it succeeded. */
  lemma Mutates(c: Queue.Config, w: World, auth: nat, n: nat) returns (w2: World)
    requires Reached(c, w) && Point(w, Mutating(EFFECT, auth), Executing, n, n)
    ensures Reached(c, w2) && Point(w2, Recording(EFFECT, Succeeded), Executing, n + 1, n)
  {
    hide Reached, Queue.Passes, Permits;
    var at := At(0, Proceed(LEASE.worker, true));
    Reach(c, w, at);
    w2 := Happen(c, w, at);
    CountMore(w.calls, EFFECT.key);
  }

  /** The success is recorded. */
  lemma Records(c: Queue.Config, w: World, n: nat) returns (w2: World)
    requires Reached(c, w) && Point(w, Recording(EFFECT, Succeeded), Executing, n + 1, n)
    ensures Reached(c, w2) && Point(w2, Stopped, Succeeded, n + 1, n + 1)
  {
    hide Reached, Queue.Passes;
    Passing(w.t.queue);
    var at := At(0, Proceed(LEASE.worker, true));
    Reach(c, w, at);
    w2 := Happen(c, w, at);
    CountMore(w.wins, EFFECT.key);
  }

  /** The same execution again finds the effect confirmed and the page without it, and is authorised anew. */
  lemma Again(c: Queue.Config, w: World, n: nat) returns (w2: World, auth: nat)
    requires Reached(c, w) && Point(w, Stopped, Succeeded, n, n)
    ensures Reached(c, w2) && Point(w2, Mutating(EFFECT, auth), Executing, n, n)
  {
    hide Reached, Queue.Passes;
    Passing(w.t.queue);
    var begin := At(0, Begin(LEASE, EFFECT));
    Reach(c, w, begin);
    var w1 := Happen(c, w, begin);
    assert Point(w1, Confirming(EFFECT), Succeeded, n, n);
    var gone := At(0, Proceed(LEASE.worker, false));
    Reach(c, w1, gone);
    var w3 := Happen(c, w1, gone);
    assert Point(w3, Reapplying(EFFECT), Succeeded, n, n);
    var at := At(0, Proceed(LEASE.worker, true));
    Reach(c, w3, at);
    w2, auth := Happen(c, w3, at), |w3.auths|;
  }

  /** The effect has been applied and confirmed `n` times and is authorised once more. */
  lemma {:induction false} Rounds(c: Queue.Config, n: nat) returns (w: World, auth: nat)
    requires c.leaseMicros >= 1_000
    ensures Reached(c, w) && Point(w, Mutating(EFFECT, auth), Executing, n, n)
  {
    hide Reached, Point;
    if n == 0 {
      w, auth := FirstAuthorised(c);
    } else {
      w, auth := Rounds(c, n - 1);
      w := Mutates(c, w, auth, n - 1);
      w := Records(c, w, n - 1);
      w, auth := Again(c, w, n);
    }
  }

  /**
   The bound on mutations is tight: for every `n` there is a run in which an effect is confirmed `n` times and
   applied `n + 1` times.
   */
  lemma BoundIsTight(c: Queue.Config, n: nat)
    requires c.leaseMicros >= 1_000
    ensures exists r: BrowserRuns.Run :: IsRun(c, r) && Counted(r.worlds[|r.events|], n + 1, n)
  {
    var w, auth := Rounds(c, n);
    w := Mutates(c, w, auth, n);
    var r :| Ends(c, r, w);
  }
}
