/** The control plane's two inbox transactions as they run. */
module SlackInboxService {
  import opened Wrappers
  import opened Json
  import opened Submission
  import opened SlackInbox
  import QueueRuns
  import Queue

  lemma ArrivalTables(c: Queue.Config, w: World, cb: Callback, drawn: Queue.TaskId, now: int)
    ensures var r := Receive(w.t, cb, drawn, now);
      Happen(c, w, At(now, Arrival(cb, drawn))).t == if r.Success? then r.value.0 else w.t
  {
    hide Receive;
  }

  lemma ProcessTables(c: Queue.Config, w: World, l: Queue.Lease, e: Option<Effect>, now: int)
    ensures var r := Process(c, w.t, l, e, now);
      Happen(c, w, At(now, Event.ProcessOne(l, e))).t == if r.Success? then r.value.0 else w.t
  {
    hide Process;
  }

  class SlackInboxService {
    const config: Queue.Config
    var queue: Queue.Store
    var events: map<EventId, Stored>
    var approvals: map<ApprovalId, Approval>
    ghost var world: World    // the run that this object is part of

    ghost function State(): Tables
      reads this
    {
      Tables(queue, events, approvals)
    }

    /** The tables are those of a run, in which no event takes effect twice. */
    ghost predicate Valid()
      reads this
    {
      Safe(world) && world.t == State()
    }

    ghost predicate Legal(e: Event, now: int)
      reads this
    {
      Valid() && May(world, At(now, e))
    }

    constructor (config: Queue.Config, t: Tables, ghost start: World)
      ensures this.config == config && State() == t && world == start
      ensures start.t == t && Safe(start) ==> Valid()
    {
      this.config := config;
      queue, events, approvals := t.queue, t.events, t.approvals;
      world := start;
    }

    /** A legal event keeps the invariant; the methods below say which event each of them is. */
    ghost method Follow(e: Event, now: int)
      modifies this`world
      ensures world == Happen(config, old(world), At(now, e))
      ensures old(Safe(world) && May(world, At(now, e))) ==> Safe(world)
    {
      hide Safe, Happen, May;
      if Safe(world) && May(world, At(now, e)) {
        HappenKeeps(config, world, At(now, e));
      }
      world := Happen(config, world, At(now, e));
    }

    /** Of this object too: each event took effect at most once, exactly if it is PROCESSED. */
    lemma TookEffectOnce()
      requires Valid()
      ensures forall i, j :: 0 <= i < j < |world.effects| ==> world.effects[i] != world.effects[j]
      ensures forall e :: e in events ==> (events[e].progress == Processed <==> e in world.effects)
    {
      hide HasTask, Distinct, QueueRuns.Inv;
    }

    /** The second lookup of `receive`: by channel, time stamp and type. */
    method Lookup(cb: Callback) returns (found: Option<EventId>)
      ensures found.Some? ==> found.value in events && SameIdentity(events[found.value], cb)
      ensures found.None? ==> forall e :: e in events ==> !SameIdentity(events[e], cb)
    {
      var rest := events.Keys;
      while rest != {}
        invariant rest <= events.Keys
        invariant forall e :: e in events && e !in rest ==> !SameIdentity(events[e], cb)
        decreases |rest|
      {
        var e :| e in rest;
        if SameIdentity(events[e], cb) {
          return Some(e);
        }
        rest := rest - {e};
      }
      return None;
    }

    method ReceiveOne(cb: Callback, drawn: Queue.TaskId, now: int) returns (r: Result<EventId, SlackInbox.Error>)
      requires Distinct(events)
      modifies this`queue, this`events, this`approvals, this`world
      ensures var spec := Receive(old(State()), cb, drawn, now);
        if r.Success? then spec == Success((State(), r.value)) else spec == Failure(r.error) && State() == old(State())
      ensures old(Legal(Arrival(cb, drawn), now)) ==> Valid()
    {
      hide Safe, Happen, May, Receive;
      ArrivalTables(config, world, cb, drawn, now);
      Follow(Arrival(cb, drawn), now);
      r := ReceiveRows(cb, drawn, now);
    }

    /** The rows of `receive`. */
    method ReceiveRows(cb: Callback, drawn: Queue.TaskId, now: int) returns (r: Result<EventId, SlackInbox.Error>)
      requires Distinct(events)
      modifies this`queue, this`events, this`approvals
      ensures var spec := Receive(old(State()), cb, drawn, now);
        if r.Success? then spec == Success((State(), r.value)) else spec == Failure(r.error) && State() == old(State())
    {
      var id := IdOf(cb);
      var found: Option<EventId>;
      if id in events {
        found := Some(id);
      } else {
        found := Lookup(cb);
      }
      if found.Some? {
        if events[found.value].sha != Sha(cb) {
          return Failure(IdentityConflict);
        }
        return Success(found.value);
      }
      var made := Queue.Create(queue, ProcessingTask(id, cb), drawn, Queue.Ready, now);
      if made.Failure? {
        return Failure(QueueRefused(made.error));
      }
      queue := made.value.0;
      events := events[id := Stored(KindOf(cb), cb.channel, cb.ts, Sha(cb), Waiting)];
      return Success(id);
    }

    /**
     The fenced part of `process_one`: the effect and its mark, or the rejection, in one commit; other errors
     roll back.
     */
    method ProcessOne(l: Queue.Lease, e: Option<Effect>, now: int) returns (r: Result<bool, SlackInbox.Error>)
      modifies this`queue, this`events, this`approvals, this`world
      ensures var spec := Process(config, old(State()), l, e, now);
        if r.Success? then spec == Success((State(), r.value)) else spec == Failure(r.error) && State() == old(State())
      ensures old(Legal(Event.ProcessOne(l, e), now)) ==> Valid()
    {
      hide Safe, Happen, May, Process;
      ProcessTables(config, world, l, e, now);
      Follow(Event.ProcessOne(l, e), now);
      r := ProcessRows(l, e, now);
    }

    /** The rows of `process_one`. */
    method ProcessRows(l: Queue.Lease, e: Option<Effect>, now: int) returns (r: Result<bool, SlackInbox.Error>)
      modifies this`queue, this`events, this`approvals
      ensures var spec := Process(config, old(State()), l, e, now);
        if r.Success? then spec == Success((State(), r.value)) else spec == Failure(r.error) && State() == old(State())
    {
      var fence := Queue.Fence(queue, l, now);
      if fence.Failure? {
        return Failure(QueueRefused(fence.error));
      }
      var id := EventOf(l);
      if id !in events {
        return Failure(MissingEvent);
      }
      var event := events[id];
      if event.progress != Waiting {
        return Success(false);
      }
      if Hash(Canonical(Field(l.payload, "event"))) != event.sha {
        return Failure(HashMismatch);
      }
      if e.None? {
        events := events[id := event.(progress := Dropped)];
        return Success(false);
      }
      var performed := Perform(config, Tables(queue, events, approvals), id, e.value, now);
      if performed.Failure? && performed.error.Raised? {
        return Failure(QueueRefused(performed.error.e));
      }
      if performed.Success? {
        queue, approvals := performed.value.queue, performed.value.approvals;
      }
      events := events[id := event.(progress := if performed.Success? then Processed else Dropped)];
      return Success(performed.Success?);
    }
  }
}
