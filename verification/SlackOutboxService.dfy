/** The outbox service as it runs: each method is one immediate transaction on the ledger rows. */
module SlackOutboxService {
  import opened Wrappers
  import opened Json
  import opened Submission
  import opened SlackOutbox

  predicate NotAfter(rows: Rows, a: Key, b: Key)
    requires a in rows && b in rows
  {
    rows[a].createdAt < rows[b].createdAt || (rows[a].createdAt == rows[b].createdAt && rows[a].id <= rows[b].id)
  }

  lemma PlanRows(w: World, key: Key, m: Message, correlated: bool, id: nat, now: int)
    ensures var r := SlackOutbox.Plan(w.rows, w.allowed, key, m, correlated, id, now);
      && Happen(w, At(now, Event.PlanMessage(key, m, correlated, id)))
        == (if r.Success? then w.(rows := r.value) else w)
      && May(w, At(now, Event.PlanMessage(key, m, correlated, id)))
  {
  }

  lemma TakeRows(w: World, key: Key, owner: Owner, now: int)
    ensures key in w.rows ==>
      var r, w2 := Take(w.rows, w.allowed, key, owner, now), Happen(w, At(now, Event.TakeOldest(key, owner)));
      w2.rows == (if r.Success? then r.value else w.rows) && w2.allowed == w.allowed
  {
  }

  /** The deliverer with this token has this outcome to record. */
  predicate Finishes(w: World, key: Key, owner: Owner, outcome: SlackOutbox.Outcome) {
    owner in w.deliverers && w.deliverers[owner] == Deliverer(key, Finishing(outcome))
  }

  lemma FinishRows(w: World, key: Key, owner: Owner, outcome: SlackOutbox.Outcome)
    ensures var w2 := Happen(w, At(0, Event.FinishOne(owner)));
      key in w.rows && Finishes(w, key, owner, outcome) ==>
        w2.rows == Finish(w.rows, key, owner, outcome) && w2.allowed == w.allowed
          && May(w, At(0, Event.FinishOne(owner)))
  {
  }

  lemma RecoveredRows(w: World, now: int)
    ensures var w2 := Happen(w, At(now, Event.RecoverRows));
      w2.rows == SlackOutbox.Recover(w.rows, now) && w2.allowed == w.allowed && May(w, At(now, Event.RecoverRows))
  {
  }

  class SlackOutboxService {
    const allowed: set<string>
    var rows: Rows
    ghost var world: World    // the run that this object is part of

    /** The rows are those of a run, in which no notification is posted twice. */
    ghost predicate Valid()
      reads this
    {
      Safe(world) && world.rows == rows && world.allowed == allowed
    }

    constructor (allowed: set<string>)
      ensures this.allowed == allowed && rows == map[] && world == DAWN.(allowed := allowed) && Valid()
    {
      this.allowed, rows, world := allowed, map[], DAWN.(allowed := allowed);
    }

    /** A legal event keeps the invariant; the methods below say which event each of them is. */
    ghost method Follow(e: Event, now: int)
      modifies this`world
      ensures world == Happen(old(world), At(now, e))
      ensures old(Safe(world) && May(world, At(now, e))) ==> Safe(world)
    {
      hide Safe, Happen, May, RowsAge;
      if Safe(world) && May(world, At(now, e)) {
        HappenKeeps(world, At(now, e));
      }
      world := Happen(world, At(now, e));
    }

    /** Of this object too: each notification was posted at most once. */
    lemma PostedOnce()
      requires Valid()
      ensures forall i, j :: 0 <= i < j < |world.calls| ==> world.calls[i] != world.calls[j]
    {
    }

    method PlanMessage(key: Key, m: Message, correlated: bool, id: nat, now: int)
        returns (r: Result<nat, SlackOutbox.Error>)
      modifies this`rows, this`world
      ensures var spec := SlackOutbox.Plan(old(rows), allowed, key, m, correlated, id, now);
        if r.Success? then spec == Success(rows) && key in rows && rows[key].id == r.value
        else spec == Failure(r.error) && rows == old(rows)
      ensures old(Valid()) ==> Valid()
    {
      hide Safe, Happen, SlackOutbox.Plan;
      PlanRows(world, key, m, correlated, id, now);
      Follow(Event.PlanMessage(key, m, correlated, id), now);
      r := PlanRow(key, m, correlated, id, now);
    }

    /** The row of `plan`. */
    method PlanRow(key: Key, m: Message, correlated: bool, id: nat, now: int)
        returns (r: Result<nat, SlackOutbox.Error>)
      modifies this`rows
      ensures var spec := SlackOutbox.Plan(old(rows), allowed, key, m, correlated, id, now);
        if r.Success? then spec == Success(rows) && key in rows && rows[key].id == r.value
        else spec == Failure(r.error) && rows == old(rows)
    {
      if m.channel !in allowed {
        return Failure(ChannelNotAllowed);
      }
      if key in rows {
        if rows[key].sha != Digest(m) {
          return Failure(DedupeConflict);
        }
        return Success(rows[key].id);
      }
      if !correlated {
        return Failure(Mismatch);
      }
      rows := rows[key := Row(id, now / 1000, Digest(m), m, Planned, None, 0, None)];
      return Success(id);
    }

    /** The query of `deliver_one`: planned rows by creation time and id, the first one. */
    method SelectOldest() returns (best: Option<Key>)
      ensures best.Some? ==> Oldest(rows, best.value)
      ensures best.None? ==> forall k :: k in rows ==> rows[k].status != Planned
    {
      var rest := set k | k in rows && rows[k].status == Planned;
      ghost var all := rest;
      best := None;
      while rest != {}
        invariant rest <= all && all <= rows.Keys
        invariant best.None? ==> rest == all
        invariant best.Some? ==> best.value in all && forall k :: k in all && k !in rest ==>
          NotAfter(rows, best.value, k)
        decreases |rest|
      {
        var k :| k in rest;
        if best.None? || rows[k].createdAt < rows[best.value].createdAt
           || (rows[k].createdAt == rows[best.value].createdAt && rows[k].id < rows[best.value].id) {
          best := Some(k);
        }
        rest := rest - {k};
      }
      assert forall k :: k in rows && rows[k].status == Planned ==> k in all;
    }

    /** The taking transaction; the message travels to the adapter outside of it. */
    method TakeOldest(owner: Owner, now: int) returns (r: Result<Option<(Key, Message)>, SlackOutbox.Error>)
      modifies this`rows, this`world
      ensures r == Success(None) <==> forall k :: k in old(rows) ==> old(rows)[k].status != Planned
      ensures r == Success(None) || r.Failure? ==> rows == old(rows)
      ensures r.Success? && r.value.Some? ==>
        var key := r.value.value.0;
        Oldest(old(rows), key) && Take(old(rows), allowed, key, owner, now) == Success(rows)
          && r.value.value.1 == rows[key].message
      ensures r.Failure? ==> exists key :: Oldest(rows, key) && Take(rows, allowed, key, owner, now) == Failure(r.error)
      ensures old(Valid()) && owner !in old(world).deliverers ==> Valid()
    {
      hide Safe, Happen, Take;
      r := TakeRow(owner, now);
      if r.Success? && r.value.Some? {
        TakeRows(world, r.value.value.0, owner, now);
        Follow(Event.TakeOldest(r.value.value.0, owner), now);
      }
    }

    /** The row of the taking transaction. */
    method TakeRow(owner: Owner, now: int) returns (r: Result<Option<(Key, Message)>, SlackOutbox.Error>)
      modifies this`rows
      ensures r == Success(None) <==> forall k :: k in old(rows) ==> old(rows)[k].status != Planned
      ensures r == Success(None) || r.Failure? ==> rows == old(rows)
      ensures r.Success? && r.value.Some? ==>
        var key := r.value.value.0;
        Oldest(old(rows), key) && Take(old(rows), allowed, key, owner, now) == Success(rows)
          && r.value.value.1 == rows[key].message
      ensures r.Failure? ==> exists key :: Oldest(rows, key) && Take(rows, allowed, key, owner, now) == Failure(r.error)
    {
      var best := SelectOldest();
      if best.None? {
        return Success(None);
      }
      var key := best.value;
      var row := rows[key];
      if Digest(row.message) != row.sha {
        return Failure(HashMismatch);
      }
      if row.message.channel !in allowed {
        return Failure(ChannelNotAllowed);
      }
      rows := rows[key := row.(status := Executing, owner := Some(owner), expiresAt := (now + 60_000_000) / 1000)];
      return Success(Some((key, row.message)));
    }

    method FinishOne(key: Key, owner: Owner, outcome: SlackOutbox.Outcome)
      requires key in rows
      modifies this`rows, this`world
      ensures rows == Finish(old(rows), key, owner, outcome)
      ensures old(Valid()) && Finishes(old(world), key, owner, outcome) ==> Valid()
    {
      hide Safe, Happen, Finish;
      FinishRows(world, key, owner, outcome);
      Follow(Event.FinishOne(owner), 0);
      FinishRow(key, owner, outcome);
    }

    /** The row of the finishing transaction. */
    method FinishRow(key: Key, owner: Owner, outcome: SlackOutbox.Outcome)
      requires key in rows
      modifies this`rows
      ensures rows == Finish(old(rows), key, owner, outcome)
    {
      var row := rows[key];
      if row.status != Executing || row.owner != Some(owner) {
        return;
      }
      var status := Succeeded;
      match outcome {
        case Posted(channel, ts) =>
          if channel != row.message.channel {
            status := UnknownResult;
          } else {
            row := row.(receipt := Some(ts));
          }
        case Refused(unknown) => status := if unknown then UnknownResult else Failed;
        case Crashed => status := UnknownResult;
      }
      rows := rows[key := row.(status := status)];
    }

    method RecoverRows(now: int) returns (count: nat)
      modifies this`rows, this`world
      ensures rows == SlackOutbox.Recover(old(rows), now)
      ensures count == |set k | k in old(rows) && Abandoned(old(rows)[k], now)|
      ensures old(Valid()) ==> Valid()
    {
      hide Safe, Happen, SlackOutbox.Recover;
      RecoveredRows(world, now);
      Follow(Event.RecoverRows, now);
      count := RecoverEach(now);
    }

    /** The loop of `recover`. */
    method RecoverEach(now: int) returns (count: nat)
      modifies this`rows
      ensures rows == SlackOutbox.Recover(old(rows), now)
      ensures count == |set k | k in old(rows) && Abandoned(old(rows)[k], now)|
    {
      ghost var before := rows;
      ghost var hit: set<Key> := {};
      var rest := set k | k in rows && rows[k].status == Executing;
      ghost var all := rest;
      count := 0;
      while rest != {}
        invariant rest <= all && rows.Keys == before.Keys && count == |hit|
        invariant hit == set k | k in all - rest && Abandoned(before[k], now)
        invariant forall k :: k in rows ==>
          rows[k] == if k in hit then before[k].(status := UnknownResult) else before[k]
        decreases |rest|
      {
        var k :| k in rest;
        if rows[k].expiresAt <= now / 1000 {
          rows := rows[k := rows[k].(status := UnknownResult)];
          count := count + 1;
          hit := hit + {k};
        }
        rest := rest - {k};
      }
      assert hit == set k | k in before && Abandoned(before[k], now);
    }
  }
}
