/** Exactly when a reservation is granted and a row is settled, said of the whole usage table. */
module BudgetMeaning {
  import opened Wrappers
  import opened Pricing
  import opened Budgets

  /** What the rows of this kind cost together. */
  function Sum(rows: seq<Usage>, of: Usage -> bool): Money {
    if |rows| == 0 then 0.0 else
    var last := rows[|rows| - 1];
    Sum(rows[..|rows| - 1], of) + if of(last) && last.estimated.Some? then last.estimated.value else 0.0
  }

  lemma {:induction false} SumIs(rows: seq<Usage>, cl: Class, of: Usage -> bool)
    requires forall u :: of(u) <==> Counts(cl, u)
    ensures Sum(rows, of) == Spent(rows, cl)
  {
    if |rows| > 0 {
      SumIs(rows[..|rows| - 1], cl, of);
    }
  }

  /** The month of `b` is not before that of `a`, or the row is not settled yet. */
  predicate FromMonth(u: Usage, now: Stamp) {
    u.tokens.None? || u.created.month >= now.month
  }

  predicate FromDay(u: Usage, now: Stamp) {
    u.tokens.None? || u.created.month > now.month || (u.created.month == now.month && u.created.day >= now.day)
  }

  /** On top of everything of the task, its application, today and this month the maximum stays below each ceiling. */
  predicate Fits(l: Limits, rows: seq<Usage>, task: TaskId, app: Option<AppId>, limit: Money, maximum: Money,
                 now: Stamp)
  {
    && Sum(rows, (u: Usage) => u.task == task) + maximum <= limit
    && (app.Some? ==> Sum(rows, (u: Usage) => u.app == app) + maximum <= l.perApp)
    && Sum(rows, (u: Usage) => FromDay(u, now)) + maximum <= l.daily
    && Sum(rows, (u: Usage) => FromMonth(u, now)) + maximum <= l.monthly
  }

  lemma FitsIsAdmits(l: Limits, rows: seq<Usage>, q: Query, limit: Money, maximum: Money, now: Stamp)
    ensures Fits(l, rows, q.task, q.app, limit, maximum, now) <==> Admits(l, rows, q, limit, maximum, now)
  {
    SumIs(rows, ByTask(q.task), (u: Usage) => u.task == q.task);
    SumIs(rows, ByDay(now.month, now.day), (u: Usage) => FromDay(u, now));
    SumIs(rows, ByMonth(now.month), (u: Usage) => FromMonth(u, now));
    if q.app.Some? {
      SumIs(rows, ByApp(q.app.value), (u: Usage) => u.app == q.app);
    }
    hide Sum, Spent;
  }

  /** A row that a reservation would have to count, with no price to count. */
  predicate Spoils(u: Usage, task: TaskId, app: Option<AppId>, now: Stamp) {
    && (u.task == task || (app.Some? && u.app == app) || FromMonth(u, now))
    && (u.estimated.None? || u.estimated.value < 0.0)
  }

  lemma {:induction false} UnpricedIff(rows: seq<Usage>, q: Query, now: Stamp)
    requires StampsValid(rows) && q.month == now.month
    ensures UnpricedThere(Selected(rows, q)) <==> exists i :: 0 <= i < |rows| && Spoils(rows[i], q.task, q.app, now)
  {
    if |rows| > 0 {
      var n := |rows| - 1;
      var front := rows[..n];
      UnpricedIff(front, q, now);
      UnpricedAppend(Selected(front, q), rows[n]);
      assert Matches(q, rows[n]) && rows[n].Unpriced() <==> Spoils(rows[n], q.task, q.app, now);
      hide Matches, UnpricedThere;
      if i :| 0 <= i < |rows| && Spoils(rows[i], q.task, q.app, now) {
        assert i < n ==> front[i] == rows[i];
      }
    }
  }

  lemma UnpricedAppend(rows: seq<Usage>, u: Usage)
    ensures UnpricedThere(rows + [u]) <==> UnpricedThere(rows) || u.Unpriced()
    ensures UnpricedThere(rows + []) <==> UnpricedThere(rows)
  {
    assert rows + [] == rows;
    if UnpricedThere(rows) {
      var i :| 0 <= i < |rows| && rows[i].Unpriced();
      assert (rows + [u])[i].Unpriced();
    }
    assert (rows + [u])[|rows|] == u;
  }

  /**
   A reservation is granted exactly if its task is known and budgeted, no row that counts is unpriced, and it fits
   under all four ceilings; it is a pending row at its full maximum.
   */
  lemma ReserveIff(l: Limits, tasks: map<TaskId, TaskRow>, rows: seq<Usage>, task: TaskId, maximum: Money, now: Stamp)
    requires StampsValid(rows)
    ensures var r := Reserve(l, tasks, rows, task, maximum, now);
      && (r.Success? <==>
            && maximum >= 0.0 && task in tasks && tasks[task].taskType in l.perTask
            && (forall i :: 0 <= i < |rows| ==> !Spoils(rows[i], task, tasks[task].app, now))
            && Fits(l, rows, task, tasks[task].app, l.perTask[tasks[task].taskType], maximum, now))
      && (r.Success? ==>
            r.value == rows + [Usage(task, tasks[task].app, now, None, Some(l.stored(maximum)), false)])
  {
    if task in tasks && tasks[task].taskType in l.perTask {
      var q := QueryOf(tasks, task, now);
      UnpricedIff(rows, q, now);
      FitsIsAdmits(l, rows, q, l.perTask[tasks[task].taskType], maximum, now);
    }
    hide Fits, Admits, UnpricedThere, Selected, Spoils;
  }

  /** A row is settled exactly once, while it is pending, at no negative cost. */
  lemma SettleIff(l: Limits, rows: seq<Usage>, id: UsageId, usage: TokenUsage, cost: Money, success: bool)
    ensures var r := Settle(l, rows, id, usage, cost, success);
      && (r.Success? <==> cost >= 0.0 && id < |rows| && rows[id].tokens.None?)
      && (r.Success? ==>
            && |r.value| == |rows| && (forall i :: 0 <= i < |rows| && i != id ==> r.value[i] == rows[i])
            && r.value[id] == Usage(rows[id].task, rows[id].app, rows[id].created, Some(usage),
                                    Some(l.stored(cost)), success))
  {
  }
}
