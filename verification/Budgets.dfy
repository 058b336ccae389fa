/**
 Budget admission: every model request first reserves its maximum cost in the usage table, under four
 overlapping ceilings, and is settled at most once afterwards.
 */
module Budgets {
  import opened Wrappers
  import opened Pricing

  type TaskId = nat
  type AppId = nat
  type UsageId = nat    // rows are numbered in the order of their insertion

  /** A database time stamp; comparing its parts in order is comparing its text. */
  datatype Stamp = Stamp(month: int, day: int, milli: int)
  {
    predicate Valid() {
      1 <= day <= 31 && milli >= 0
    }
  }

  predicate Earlier(a: Stamp, b: Stamp) {
    a.month < b.month || (a.month == b.month && (a.day < b.day || (a.day == b.day && a.milli < b.milli)))
  }

  predicate OnOrAfterDay(a: Stamp, month: int, day: int) {
    a.month > month || (a.month == month && a.day >= day)
  }

  datatype TaskRow = TaskRow(taskType: string, app: Option<AppId>)

  /** `stored` rounds a cost to the column's floating-point type, never downwards. */
  datatype Limits = Limits(perTask: map<string, Money>, perApp: Money, daily: Money, monthly: Money,
                           stored: Money -> Money)
  {
    ghost predicate Valid() {
      && perApp >= 0.0 && daily >= 0.0 && monthly >= 0.0
      && (forall t :: t in perTask ==> perTask[t] >= 0.0)
      && (forall x: Money :: x >= 0.0 ==> stored(x) >= x)
    }
  }

  /** A row of model_usage; `tokens` stays NULL until the reservation is settled. */
  datatype Usage = Usage(task: TaskId, app: Option<AppId>, created: Stamp, tokens: Option<TokenUsage>,
                         estimated: Option<Money>, success: bool)
  {
    predicate Pending() {
      tokens.None?
    }

    predicate Unpriced() {
      estimated.None? || estimated.value < 0.0
    }

    function Cost(): Money {
      if estimated.Some? then estimated.value else 0.0
    }
  }

  datatype Error = InvalidEstimate | NoTask | NoTaskBudget | UnpricedHistory | CeilingExceeded | NotReserved

  // ---------------------------------------------------------------- sums over the table

  /** The four kinds of spending that have a ceiling; older pending rows count until they are settled. */
  datatype Class = ByTask(task: TaskId) | ByApp(app: AppId) | ByDay(month: int, day: int) | ByMonth(month: int)

  predicate Counts(cl: Class, u: Usage) {
    match cl
    case ByTask(t) => u.task == t
    case ByApp(a) => u.app == Some(a)
    case ByDay(m, d) => u.Pending() || OnOrAfterDay(u.created, m, d)
    case ByMonth(m) => u.Pending() || u.created.month >= m
  }

  function Spent(rows: seq<Usage>, cl: Class): Money {
    if |rows| == 0 then 0.0 else
    var last := rows[|rows| - 1];
    Spent(rows[..|rows| - 1], cl) + if Counts(cl, last) then last.Cost() else 0.0
  }

  /** The query of `reserve`. */
  datatype Query = Query(task: TaskId, app: Option<AppId>, month: int)

  predicate Matches(q: Query, u: Usage) {
    || u.task == q.task
    || (q.app.Some? && u.app == q.app)
    || !Earlier(u.created, Stamp(q.month, 1, 0))
    || u.Pending()
  }

  function Selected(rows: seq<Usage>, q: Query): seq<Usage> {
    if |rows| == 0 then [] else
    var last := rows[|rows| - 1];
    Selected(rows[..|rows| - 1], q) + if Matches(q, last) then [last] else []
  }

  /** The classes that one reservation is charged to. */
  predicate Charged(q: Query, day: int, cl: Class) {
    || cl == ByTask(q.task)
    || (q.app.Some? && cl == ByApp(q.app.value))
    || cl == ByDay(q.month, day)
    || cl == ByMonth(q.month)
  }

  predicate StampsValid(rows: seq<Usage>) {
    forall i :: 0 <= i < |rows| ==> rows[i].created.Valid()
  }

  /** The query loses nothing: its sums are the sums over the whole table. */
  lemma {:induction false} QueryIsExact(rows: seq<Usage>, q: Query, day: int, cl: Class)
    requires StampsValid(rows) && 1 <= day <= 31 && Charged(q, day, cl)
    ensures Spent(Selected(rows, q), cl) == Spent(rows, cl)
  {
    if |rows| > 0 {
      var front, last := rows[..|rows| - 1], rows[|rows| - 1];
      QueryIsExact(front, q, day, cl);
      assert Counts(cl, last) ==> Matches(q, last);
      if Matches(q, last) {
        assert (Selected(front, q) + [last])[..|Selected(front, q)|] == Selected(front, q);
      } else {
        assert Selected(rows, q) == Selected(front, q);
      }
    }
  }

  predicate UnpricedThere(rows: seq<Usage>) {
    exists i :: 0 <= i < |rows| && rows[i].Unpriced()
  }

  // ---------------------------------------------------------------- the two transactions

  function QueryOf(tasks: map<TaskId, TaskRow>, task: TaskId, now: Stamp): Query
    requires task in tasks
  {
    Query(task, tasks[task].app, now.month)
  }

  /** Every ceiling admits the maximum on top of what the whole table holds. */
  predicate Admits(l: Limits, rows: seq<Usage>, q: Query, taskLimit: Money, maximum: Money, now: Stamp) {
    && Spent(rows, ByTask(q.task)) + maximum <= taskLimit
    && Spent(rows, ByDay(now.month, now.day)) + maximum <= l.daily
    && Spent(rows, ByMonth(now.month)) + maximum <= l.monthly
    && (q.app.Some? ==> Spent(rows, ByApp(q.app.value)) + maximum <= l.perApp)
  }

  function Reservation(l: Limits, q: Query, maximum: Money, now: Stamp): Usage {
    Usage(q.task, q.app, now, None, Some(l.stored(maximum)), false)
  }

  function Reserve(l: Limits, tasks: map<TaskId, TaskRow>, rows: seq<Usage>, task: TaskId, maximum: Money, now: Stamp)
    : Result<seq<Usage>, Error>
  {
    if maximum < 0.0 then Failure(InvalidEstimate)
    else if task !in tasks then Failure(NoTask)
    else if tasks[task].taskType !in l.perTask then Failure(NoTaskBudget)
    else
      var q := QueryOf(tasks, task, now);
      if UnpricedThere(Selected(rows, q)) then Failure(UnpricedHistory)
      else if !Admits(l, rows, q, l.perTask[tasks[task].taskType], maximum, now) then Failure(CeilingExceeded)
      else Success(rows + [Reservation(l, q, maximum, now)])
  }

  function Settle(l: Limits, rows: seq<Usage>, id: UsageId, usage: TokenUsage, cost: Money, success: bool)
    : Result<seq<Usage>, Error>
  {
    if cost < 0.0 then Failure(InvalidEstimate)
    else if id >= |rows| || !rows[id].Pending() then Failure(NotReserved)
    else Success(rows[id := rows[id].(tokens := Some(usage), estimated := Some(l.stored(cost)), success := success)])
  }
}
