/** The budget ledger as it runs, over the usage table it appends to and settles in place. */
module BudgetLedger {
  import opened Wrappers
  import opened Pricing
  import opened Budgets
  import BudgetRuns

  /** The rows that one caller opened. */
  ghost function OpenedBy(openers: seq<nat>, caller: nat): set<UsageId> {
    set id | 0 <= id < |openers| && openers[id] == caller
  }

  class BudgetLedger {
    const limits: Limits
    var tasks: map<TaskId, TaskRow>
    var rows: seq<Usage>
    ghost var openers: seq<nat>             // who opened each row
    ghost var world: BudgetRuns.World       // the run that this object is part of

    /** The tables are those of a run, in which every class is held below its ceiling. */
    ghost predicate Valid()
      reads this
    {
      BudgetRuns.Inv(limits, world) && world.rows == rows && world.tasks == tasks
    }

    ghost predicate Legal(e: BudgetRuns.Event, now: Stamp)
      reads this
    {
      Valid() && BudgetRuns.May(world, BudgetRuns.At(now, e))
    }

    constructor (limits: Limits, tasks: map<TaskId, TaskRow>)
      ensures this.limits == limits && this.tasks == tasks && rows == [] && openers == []
      ensures limits.Valid() ==> Valid()
    {
      this.limits, this.tasks, rows, openers := limits, tasks, [], [];
      world := BudgetRuns.START.(tasks := tasks);
    }

    /** A legal event keeps the invariant; the methods below say which event each of them is. */
    ghost method Follow(e: BudgetRuns.Event, now: Stamp)
      modifies this`world
      ensures world == BudgetRuns.Happen(limits, old(world), BudgetRuns.At(now, e))
      ensures old(BudgetRuns.Inv(limits, world) && BudgetRuns.May(world, BudgetRuns.At(now, e)))
              ==> BudgetRuns.Inv(limits, world)
    {
      hide BudgetRuns.Inv, BudgetRuns.Happen, BudgetRuns.May;
      if BudgetRuns.Inv(limits, world) && BudgetRuns.May(world, BudgetRuns.At(now, e)) {
        BudgetRuns.HappenKeeps(limits, world, BudgetRuns.At(now, e));
      }
      world := BudgetRuns.Happen(limits, world, BudgetRuns.At(now, e));
    }

    /** Of this object too: no class exceeds its ceiling by more than settlements exceeded their reservations. */
    lemma WithinCeilings(cl: Class)
      requires Valid()
      ensures |rows| == |world.books|
      ensures var c := BudgetRuns.Ceiling(limits, tasks, world.now, cl);
        c.Some? ==> BudgetRuns.Total(rows, world.books, cl, BudgetRuns.Exact)
                    <= c.value + BudgetRuns.Total(rows, world.books, cl, BudgetRuns.Over)
    {
      assert BudgetRuns.HeldBelow(limits, world, cl);
      BudgetRuns.Splits(rows, world.books, cl);
    }

    /** A task is created elsewhere. */
    method AddTask(t: TaskId, row: TaskRow, now: Stamp)
      modifies this`tasks, this`world
      ensures tasks == old(tasks)[t := row]
      ensures old(Legal(BudgetRuns.AddTask(t, row), now)) ==> Valid()
    {
      tasks := tasks[t := row];
      hide BudgetRuns.Inv, BudgetRuns.May;
      Follow(BudgetRuns.AddTask(t, row), now);
    }

    /** The SELECT, with its four-way OR. */
    method Fetch(q: Query) returns (found: seq<Usage>)
      ensures found == Selected(rows, q)
    {
      found := [];
      for i := 0 to |rows|
        invariant found == Selected(rows[..i], q)
      {
        assert rows[..i + 1][..i] == rows[..i];
        if rows[i].task == q.task || (q.app.Some? && rows[i].app == q.app)
           || !Earlier(rows[i].created, Stamp(q.month, 1, 0)) || rows[i].Pending() {
          found := found + [rows[i]];
        }
      }
      assert rows[..|rows|] == rows;
    }

    /**
     `reserve`: four sums in one pass over the selected rows.  A reservation is granted on what the
     whole table holds, and adds one pending row; a refusal changes nothing.
     */
    method Reserve(task: TaskId, maximum: Money, now: Stamp, ghost caller: nat) returns (r: Result<UsageId, Error>)
      requires StampsValid(rows) && now.Valid()
      modifies this`rows, this`openers, this`world
      ensures var spec := Budgets.Reserve(limits, tasks, old(rows), task, maximum, now);
        if r.Success? then spec == Success(rows) && r.value == |old(rows)|
          else spec == Failure(r.error) && rows == old(rows)
      ensures openers == if r.Success? then old(openers) + [caller] else old(openers)
      ensures old(Legal(BudgetRuns.ReserveCall(task, maximum), now)) ==> Valid() && world.now == now
    {
      hide BudgetRuns.Inv, BudgetRuns.May, Budgets.Reserve;
      r := ReserveRow(task, maximum, now);
      if r.Success? {
        openers := openers + [caller];
      }
      Follow(BudgetRuns.ReserveCall(task, maximum), now);
    }

    method ReserveRow(task: TaskId, maximum: Money, now: Stamp) returns (r: Result<UsageId, Error>)
      requires StampsValid(rows) && now.Valid()
      modifies this`rows
      ensures var spec := Budgets.Reserve(limits, tasks, old(rows), task, maximum, now);
        if r.Success? then spec == Success(rows) && r.value == |old(rows)|
          else spec == Failure(r.error) && rows == old(rows)
    {
      if maximum < 0.0 {
        return Failure(InvalidEstimate);
      }
      if task !in tasks {
        return Failure(NoTask);
      }
      if tasks[task].taskType !in limits.perTask {
        return Failure(NoTaskBudget);
      }
      var limit := limits.perTask[tasks[task].taskType];
      var q := QueryOf(tasks, task, now);
      var found := Fetch(q);
      var taskSpend, appSpend, daily, monthly := 0.0, 0.0, 0.0, 0.0;
      for i := 0 to |found|
        invariant !UnpricedThere(found[..i])
        invariant taskSpend == Spent(found[..i], ByTask(task))
        invariant q.app.Some? ==> appSpend == Spent(found[..i], ByApp(q.app.value))
        invariant daily == Spent(found[..i], ByDay(now.month, now.day))
        invariant monthly == Spent(found[..i], ByMonth(now.month))
      {
        assert found[..i + 1][..i] == found[..i];
        var row := found[i];
        if row.Unpriced() {
          assert UnpricedThere(found);
          return Failure(UnpricedHistory);
        }
        assert !UnpricedThere(found[..i + 1]) by {
          StillPriced(found, i);
        }
        if row.task == task {
          taskSpend := taskSpend + row.Cost();
        }
        if q.app.Some? && row.app == q.app {
          appSpend := appSpend + row.Cost();
        }
        if row.Pending() || OnOrAfterDay(row.created, now.month, now.day) {
          daily := daily + row.Cost();
        }
        if row.Pending() || row.created.month >= now.month {
          monthly := monthly + row.Cost();
        }
      }
      assert found[..|found|] == found;
      QueryIsExact(rows, q, now.day, ByTask(task));
      QueryIsExact(rows, q, now.day, ByDay(now.month, now.day));
      QueryIsExact(rows, q, now.day, ByMonth(now.month));
      if q.app.Some? {
        QueryIsExact(rows, q, now.day, ByApp(q.app.value));
      }
      if taskSpend + maximum > limit || daily + maximum > limits.daily || monthly + maximum > limits.monthly
         || (q.app.Some? && appSpend + maximum > limits.perApp) {
        return Failure(CeilingExceeded);
      }
      r := Success(|rows|);
      rows := rows + [Usage(task, tasks[task].app, now, None, Some(limits.stored(maximum)), false)];
    }

    /** `settle`. */
    method Settle(id: UsageId, usage: TokenUsage, cost: Money, success: bool) returns (r: Result<(), Error>)
      modifies this`rows, this`world
      ensures var spec := Budgets.Settle(limits, old(rows), id, usage, cost, success);
        if r.Success? then spec == Success(rows) else spec == Failure(r.error) && rows == old(rows)
      ensures old(Valid()) ==> Valid() && world.now == old(world.now)
    {
      if Valid() {
        SettleRows(limits, world, id, usage, cost, success);
      }
      hide BudgetRuns.Inv, BudgetRuns.May;
      Follow(BudgetRuns.SettleCall(id, usage, cost, success), world.now);
      if cost < 0.0 {
        return Failure(InvalidEstimate);
      }
      if id >= |rows| || !rows[id].Pending() {
        return Failure(NotReserved);
      }
      rows := rows[id := rows[id].(tokens := Some(usage), estimated := Some(limits.stored(cost)), success := success)];
      return Success(());
    }
  }

  /** The event of a settlement acts on the rows as the settlement does. */
  lemma SettleRows(l: Limits, w: BudgetRuns.World, id: UsageId, usage: TokenUsage, cost: Money, success: bool)
    requires BudgetRuns.Inv(l, w)
    ensures var e := BudgetRuns.At(w.now, BudgetRuns.SettleCall(id, usage, cost, success));
      var w2, r := BudgetRuns.Happen(l, w, e), Budgets.Settle(l, w.rows, id, usage, cost, success);
      && BudgetRuns.May(w, e) && w2.now == w.now && w2.tasks == w.tasks
      && w2.rows == if r.Success? then r.value else w.rows
  {
  }

  lemma StillPriced(rows: seq<Usage>, i: nat)
    requires i < |rows| && !UnpricedThere(rows[..i]) && !rows[i].Unpriced()
    ensures !UnpricedThere(rows[..i + 1])
  {
    forall k | 0 <= k < i ensures !rows[k].Unpriced() {
      assert rows[..i][k] == rows[k];
    }
  }
}
