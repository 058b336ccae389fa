/** The browser action service as it runs: one method per transaction, over tables it updates in place. */
module BrowserService {
  import opened Wrappers
  import opened Json
  import opened Submission
  import opened Browser
  import opened BrowserRuns
  import Queue

  predicate Standing(w: World, l: Queue.Lease, pc: Pc) {
    l.worker in w.execs && w.execs[l.worker].lease == l && w.execs[l.worker].pc == pc
  }

  lemma BeginTables(c: Queue.Config, w: World, l: Queue.Lease, e: Effect, now: int)
    ensures var r := Admit(w.t, l, e, now);
      Happen(c, w, At(now, Begin(l, e))).t == if r.Success? then r.value.0 else w.t
  {
    hide Admit;
  }

  lemma StartTables(c: Queue.Config, w: World, l: Queue.Lease, e: Effect, now: int)
    ensures var r := Authorise(w.t, l, e, now);
      Standing(w, l, Authorising(e)) ==>
        Happen(c, w, At(now, Proceed(l.worker, false))).t == if r.Success? then r.value else w.t
  {
    hide Fenced;
  }

  lemma StartAgainTables(c: Queue.Config, w: World, l: Queue.Lease, e: Effect, now: int)
    ensures var r := Reapply(w.t, l, e, now);
      Standing(w, l, Reapplying(e)) ==>
        Happen(c, w, At(now, Proceed(l.worker, false))).t == if r.Success? then r.value else w.t
  {
    hide Fenced;
  }

  lemma FinishTables(c: Queue.Config, w: World, l: Queue.Lease, e: Effect, status: ActionStatus, now: int)
    ensures var r := Browser.Record(w.t, l, e.key, status, now);
      Standing(w, l, BrowserRuns.Recording(e, status)) ==>
        Happen(c, w, At(now, Proceed(l.worker, false))).t == if r.Success? then r.value else w.t
  {
    hide Fenced;
  }

  class BrowserService {
    const config: Queue.Config
    var queue: Queue.Store
    var approvals: map<ApprovalId, Approval>
    var rows: map<Key, Row>
    var files: map<Json, Bytes>
    ghost var world: World    // the run that this object is part of

    ghost function State(): Tables
      reads this
    {
      Tables(queue, approvals, rows, files)
    }

    /** The tables are those of a run, which keeps the balance of authorisations and successes. */
    ghost predicate Valid()
      reads this
    {
      Safe(world) && world.t == State()
    }

    /** The executor of this lease is where it may take its next step. */
    ghost predicate MayProceed(l: Queue.Lease, pc: Pc, now: int)
      reads this
    {
      Valid() && May(world, At(now, Proceed(l.worker, false))) && Standing(world, l, pc)
    }

    constructor (config: Queue.Config, t: Tables, ghost start: World)
      ensures this.config == config && State() == t && world == start
      ensures start.t == t && Safe(start) ==> Valid()
    {
      this.config := config;
      queue, approvals, rows, files := t.queue, t.approvals, t.rows, t.files;
      world := start;
    }

    /** A legal event keeps the invariant; the methods below say which event each of them is. */
    ghost method Follow(e: Event, now: int)
      modifies this`world
      ensures world == Happen(config, old(world), At(now, e))
      ensures old(Safe(world) && May(world, At(now, e))) ==> Safe(world)
    {
      hide Safe, Happen, May;
      if Safe(world) && May(world, At(now, e)) {
        HappenKeeps(config, world, At(now, e));
      }
      world := Happen(config, world, At(now, e));
    }

    /** Of this object too: an effect was applied at most once more often than it was confirmed. */
    lemma Balanced(key: Key)
      requires Valid()
      ensures Count(world.calls, key) <= Count(world.wins, key) + 1
    {
      assert KeyOk(world, key);
      UsedAtMostGranted(world.auths, key);
    }

    /** `_approval`, inside a fence. */
    method CheckApproval(l: Queue.Lease, e: Effect, now: int) returns (r: Result<(), Error>)
      ensures r.Success? <==> Permits(State(), l, e, now)
      ensures r.Failure? ==> r.error == Refusal(State(), l, e, now)
    {
      if e.approval !in approvals {
        return Failure(Blocked("prepare_approval_missing"));
      }
      var a := approvals[e.approval];
      if a.app != e.app || a.task != l.task || a.sha != e.plan || a.status !in {Approved, Consumed} {
        return Failure(Blocked("prepare_approval_invalid"));
      }
      if a.validUntil.Some? && now >= a.validUntil.value * 1000 {
        return Failure(Blocked("prepare_approval_expired"));
      }
      if a.path !in files {
        return Failure(Blocked("prepare_approval_payload_unavailable"));
      }
      if Hash(files[a.path]) != e.plan {
        return Failure(Blocked("prepare_approval_payload_changed"));
      }
      return Success(());
    }

    method FindOrPlan(l: Queue.Lease, e: Effect, now: int) returns (r: Result<ActionStatus, Error>)
      modifies this`rows, this`world
      ensures var spec := Admit(old(State()), l, e, now);
        if r.Success? then spec == Success((State(), r.value)) else spec == Failure(r.error) && State() == old(State())
      ensures old(Valid() && May(world, At(now, Begin(l, e)))) ==> Valid()
    {
      hide Safe, May, Happen;
      BeginTables(config, world, l, e, now);
      Follow(Begin(l, e), now);
      var fence := Fenced(queue, l, now);
      if fence.Failure? {
        return Failure(fence.error);
      }
      var _ :- CheckApproval(l, e, now);
      if e.key in rows {
        var row := rows[e.key];
        if row.request != e.request || row.approval != e.approval || row.task != l.task || row.app != e.app
          || row.kind != e.kind {
          return Failure(Blocked("browser_action_replay_conflict"));
        }
        return Success(row.status);
      }
      rows := rows[e.key := Row(e.app, l.task, e.approval, e.kind, e.request, Planned)];
      return Success(Planned);
    }

    method Start(l: Queue.Lease, e: Effect, now: int) returns (r: Result<(), Error>)
      modifies this`rows, this`approvals, this`world
      ensures var spec := Authorise(old(State()), l, e, now);
        if r.Success? then spec == Success(State()) else spec == Failure(r.error) && State() == old(State())
      ensures old(MayProceed(l, Authorising(e), now)) ==> Valid()
    {
      hide Safe, May, Happen;
      StartTables(config, world, l, e, now);
      Follow(Proceed(l.worker, false), now);
      var fence := Fenced(queue, l, now);
      if fence.Failure? {
        return Failure(fence.error);
      }
      var _ :- CheckApproval(l, e, now);
      if e.key !in rows || rows[e.key].status != Planned {
        return Failure(Blocked("assertion"));
      }
      if approvals[e.approval].status == Approved {
        approvals := approvals[e.approval := approvals[e.approval].(status := Consumed)];
      }
      rows := rows[e.key := rows[e.key].(status := Executing)];
      assert approvals == old(approvals)[e.approval := old(approvals)[e.approval].(status := Consumed)];
      return Success(());
    }

    method StartAgain(l: Queue.Lease, e: Effect, now: int) returns (r: Result<(), Error>)
      modifies this`rows, this`world
      ensures var spec := Reapply(old(State()), l, e, now);
        if r.Success? then spec == Success(State()) else spec == Failure(r.error) && State() == old(State())
      ensures old(MayProceed(l, Reapplying(e), now)) ==> Valid()
    {
      hide Safe, May, Happen;
      StartAgainTables(config, world, l, e, now);
      Follow(Proceed(l.worker, false), now);
      var fence := Fenced(queue, l, now);
      if fence.Failure? {
        return Failure(fence.error);
      }
      var _ :- CheckApproval(l, e, now);
      if e.key !in rows {
        return Failure(Blocked("assertion"));
      }
      rows := rows[e.key := rows[e.key].(status := Executing)];
      return Success(());
    }

    method Finish(l: Queue.Lease, key: Key, status: ActionStatus, now: int, ghost e: Effect)
        returns (r: Result<(), Error>)
      modifies this`rows, this`world
      ensures var spec := Browser.Record(old(State()), l, key, status, now);
        if r.Success? then spec == Success(State()) else spec == Failure(r.error) && State() == old(State())
      ensures e.key == key && old(MayProceed(l, Recording(e, status), now)) ==> Valid()
    {
      hide Safe, May, Happen;
      FinishTables(config, world, l, e, status, now);
      Follow(Proceed(l.worker, false), now);
      var fence := Fenced(queue, l, now);
      if fence.Failure? {
        return Failure(fence.error);
      }
      if key !in rows {
        return Failure(Blocked("assertion"));
      }
      rows := rows[key := rows[key].(status := status)];
      return Success(());
    }

    method RecoverRows() returns (count: nat)
      modifies this`rows, this`world
      ensures State() == Browser.Recover(old(State()))
      ensures count == |set k | k in old(rows) && Abandoned(old(rows)[k])|
      ensures old(Valid()) ==> Valid()
    {
      hide Safe, Browser.Recover;
      Follow(RecoverActions, world.now);
      count := RecoverEach();
    }

    method RecoverEach() returns (count: nat)
      modifies this`rows
      ensures State() == Browser.Recover(old(State()))
      ensures count == |set k | k in old(rows) && Abandoned(old(rows)[k])|
    {
      ghost var before := rows;
      var all := set k | k in rows && Abandoned(rows[k]);
      var due := all;
      count := 0;
      while due != {}
        invariant due <= all && count == |all| - |due|
        invariant rows.Keys == before.Keys && approvals == old(approvals) && files == old(files) && queue == old(queue)
        invariant forall k :: k in rows ==>
          rows[k] == if k in all - due then before[k].(status := UnknownResult) else before[k]
        decreases |due|
      {
        var k :| k in due;
        rows := rows[k := rows[k].(status := UnknownResult)];
        due, count := due - {k}, count + 1;
      }
    }
  }
}
