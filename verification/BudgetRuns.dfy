/**
 Runs of the budget ledger: any interleaving of reservations and settlements under a clock that does
 not go back.  Books record, beside each row, the exact amounts that the table only holds rounded up.
 */
module BudgetRuns {
  import opened Wrappers
  import opened Pricing
  import opened Budgets

  /** What was admitted for a row, and what it exactly costs: the admitted maximum until it is settled. */
  datatype Book = Book(admitted: Money, exact: Money)

  datatype World = World(rows: seq<Usage>, books: seq<Book>, tasks: map<TaskId, TaskRow>, now: Stamp)

  datatype Event =
    | AddTask(newTask: TaskId, row: TaskRow)
    | ReserveCall(task: TaskId, maximum: Money)
    | SettleCall(id: UsageId, usage: TokenUsage, cost: Money, success: bool)

  datatype At = At(now: Stamp, event: Event)

  const START := World([], [], map[], Stamp(0, 1, 0))

  function Happen(l: Limits, w0: World, at: At): World {
    var w := w0.(now := at.now);
    match at.event
    case AddTask(t, row) => w.(tasks := w.tasks[t := row])
    case ReserveCall(t, maximum) =>
      var r := Reserve(l, w.tasks, w.rows, t, maximum, w.now);
      if r.Success? then w.(rows := r.value, books := w.books + [Book(maximum, maximum)]) else w
    case SettleCall(id, usage, cost, success) =>
      var r := Settle(l, w.rows, id, usage, cost, success);
      if r.Success? && id < |w.books| then w.(rows := r.value, books := w.books[id := Book(w.books[id].admitted, cost)])
        else w
  }

  /** The clock does not go back and task ids are not reused. */
  predicate May(w: World, at: At) {
    at.now.Valid() && !Earlier(at.now, w.now) && (at.event.AddTask? ==> at.event.newTask !in w.tasks)
  }

  /** The states of a run, and the events between them. */
  datatype Run = Run(worlds: seq<World>, events: seq<At>)

  ghost predicate EventAt(l: Limits, r: Run, i: nat) {
    && i < |r.events| && i + 1 < |r.worlds|
    && May(r.worlds[i], r.events[i]) && r.worlds[i + 1] == Happen(l, r.worlds[i], r.events[i])
  }

  ghost predicate IsRun(l: Limits, r: Run) {
    |r.worlds| == |r.events| + 1 && r.worlds[0] == START && forall i :: 0 <= i < |r.events| ==> EventAt(l, r, i)
  }

  // ---------------------------------------------------------------- totals of the books

  /** Of a row's exact cost, the part within its reservation and the part beyond it. */
  datatype Measure = Exact | Held | Over

  function Of(m: Measure, b: Book): Money {
    match m
    case Exact => b.exact
    case Held => if b.exact <= b.admitted then b.exact else b.admitted
    case Over => if b.exact <= b.admitted then 0.0 else b.exact - b.admitted
  }

  function Total(rows: seq<Usage>, books: seq<Book>, cl: Class, m: Measure): Money
    requires |rows| == |books|
  {
    if |rows| == 0 then 0.0 else
    var n := |rows| - 1;
    Total(rows[..n], books[..n], cl, m) + if Counts(cl, rows[n]) then Of(m, books[n]) else 0.0
  }

  /** The ceiling of a class, where the class is a present or future one. */
  function Ceiling(l: Limits, tasks: map<TaskId, TaskRow>, now: Stamp, cl: Class): Option<Money> {
    match cl
    case ByTask(t) =>
      if t in tasks && tasks[t].taskType in l.perTask then Some(l.perTask[tasks[t].taskType]) else None
    case ByApp(_) => Some(l.perApp)
    case ByDay(m, d) => if m > now.month || (m == now.month && d >= now.day) then Some(l.daily) else None
    case ByMonth(m) => if m >= now.month then Some(l.monthly) else None
  }

  /** A pending row holds its full maximum; a stored cost is never below the exact one. */
  predicate RowOk(l: Limits, tasks: map<TaskId, TaskRow>, now: Stamp, u: Usage, b: Book) {
    && 0.0 <= b.admitted && 0.0 <= b.exact
    && u.estimated.Some? && b.exact <= u.estimated.value
    && (u.Pending() ==> b.exact == b.admitted && u.estimated == Some(l.stored(b.admitted)))
    && u.task in tasks && tasks[u.task].app == u.app && tasks[u.task].taskType in l.perTask
    && u.created.Valid() && !Earlier(now, u.created)
  }

  ghost predicate RowsOk(l: Limits, w: World) {
    |w.rows| == |w.books| && forall i :: 0 <= i < |w.rows| ==> RowOk(l, w.tasks, w.now, w.rows[i], w.books[i])
  }

  ghost predicate HeldBelow(l: Limits, w: World, cl: Class)
    requires |w.rows| == |w.books|
  {
    var c := Ceiling(l, w.tasks, w.now, cl);
    c.Some? ==> Total(w.rows, w.books, cl, Held) <= c.value
  }

  ghost predicate Inv(l: Limits, w: World) {
    l.Valid() && w.now.Valid() && RowsOk(l, w) && forall cl :: HeldBelow(l, w, cl)
  }

  lemma {:induction false} Splits(rows: seq<Usage>, books: seq<Book>, cl: Class)
    requires |rows| == |books|
    ensures Total(rows, books, cl, Exact) == Total(rows, books, cl, Held) + Total(rows, books, cl, Over)
  {
    if |rows| > 0 {
      Splits(rows[..|rows| - 1], books[..|rows| - 1], cl);
    }
  }

  predicate Sound(rows: seq<Usage>, books: seq<Book>) {
    |rows| == |books|
    && forall i :: 0 <= i < |rows| ==>
         0.0 <= books[i].admitted && 0.0 <= books[i].exact && rows[i].estimated.Some?
           && books[i].exact <= rows[i].estimated.value
  }

  /** The table never shows less than what is held. */
  lemma {:induction false} HeldBelowSpent(rows: seq<Usage>, books: seq<Book>, cl: Class)
    requires Sound(rows, books)
    ensures 0.0 <= Total(rows, books, cl, Held) <= Spent(rows, cl)
  {
    if |rows| > 0 {
      var n := |rows| - 1;
      assert Sound(rows[..n], books[..n]);
      HeldBelowSpent(rows[..n], books[..n], cl);
    }
  }

  predicate Within(inner: Class, outer: Class) {
    || inner == outer
    || (inner.ByDay? && outer.ByDay?
        && (inner.month > outer.month || (inner.month == outer.month && inner.day >= outer.day)))
    || (inner.ByMonth? && outer.ByMonth? && inner.month >= outer.month)
  }

  /** A later day or month counts no row that an earlier one does not. */
  lemma {:induction false} LaterCountsLess(rows: seq<Usage>, books: seq<Book>, inner: Class, outer: Class)
    requires Sound(rows, books) && Within(inner, outer)
    ensures Total(rows, books, inner, Held) <= Total(rows, books, outer, Held)
  {
    if |rows| > 0 {
      var n := |rows| - 1;
      assert Sound(rows[..n], books[..n]);
      LaterCountsLess(rows[..n], books[..n], inner, outer);
    }
  }

  /** Settling a row holds no more than before, in no class. */
  lemma {:induction false} SettlingHoldsLess(rows: seq<Usage>, books: seq<Book>, id: nat, u: Usage, b: Book, cl: Class)
    requires Sound(rows, books) && id < |rows|
    requires rows[id].Pending() && books[id].exact == books[id].admitted
    requires b.admitted == books[id].admitted && b.exact >= 0.0
    requires u.task == rows[id].task && u.app == rows[id].app && u.created == rows[id].created
    ensures Total(rows[id := u], books[id := b], cl, Held) <= Total(rows, books, cl, Held)
  {
    var n := |rows| - 1;
    assert Sound(rows[..n], books[..n]);
    if id < n {
      SettlingHoldsLess(rows[..n], books[..n], id, u, b, cl);
      assert rows[id := u][..n] == rows[..n][id := u] && books[id := b][..n] == books[..n][id := b];
    } else {
      assert rows[id := u][..n] == rows[..n] && books[id := b][..n] == books[..n];
    }
  }

  lemma Append(rows: seq<Usage>, books: seq<Book>, u: Usage, b: Book, cl: Class, m: Measure)
    requires |rows| == |books|
    ensures Total(rows + [u], books + [b], cl, m) == Total(rows, books, cl, m) + if Counts(cl, u) then Of(m, b) else 0.0
  {
    assert (rows + [u])[..|rows|] == rows && (books + [b])[..|rows|] == books;
  }

  // ---------------------------------------------------------------- every event keeps the invariant

  lemma RowsSound(l: Limits, w: World)
    requires RowsOk(l, w)
    ensures Sound(w.rows, w.books)
  {
  }

  lemma ClockKeeps(l: Limits, w: World, now: Stamp)
    requires Inv(l, w) && now.Valid() && !Earlier(now, w.now)
    ensures Inv(l, w.(now := now))
  {
    var w2 := w.(now := now);
    forall i | 0 <= i < |w.rows| ensures RowOk(l, w.tasks, now, w.rows[i], w.books[i]) {
      assert RowOk(l, w.tasks, w.now, w.rows[i], w.books[i]);
    }
    forall cl ensures HeldBelow(l, w2, cl) {
      assert HeldBelow(l, w, cl);
    }
  }

  /** The class of today, this month, the task or its application that a new row is charged to. */
  lemma ReservedBelow(l: Limits, w: World, t: TaskId, maximum: Money, cl: Class)
    requires Inv(l, w) && Reserve(l, w.tasks, w.rows, t, maximum, w.now).Success?
    ensures var w2 := w.(rows := w.rows + [Reservation(l, QueryOf(w.tasks, t, w.now), maximum, w.now)],
                         books := w.books + [Book(maximum, maximum)]);
      |w2.rows| == |w2.books| && HeldBelow(l, w2, cl)
  {
    var q := QueryOf(w.tasks, t, w.now);
    var u, b := Reservation(l, q, maximum, w.now), Book(maximum, maximum);
    assert HeldBelow(l, w, cl);
    RowsSound(l, w);
    Append(w.rows, w.books, u, b, cl, Held);
    var c := Ceiling(l, w.tasks, w.now, cl);
    if c.Some? && Counts(cl, u) {
      var outer := match cl
        case ByDay(_, _) => ByDay(w.now.month, w.now.day)
        case ByMonth(_) => ByMonth(w.now.month)
        case _ => cl;
      LaterCountsLess(w.rows, w.books, cl, outer);
      HeldBelowSpent(w.rows, w.books, outer);
    }
  }

  lemma ReserveKeeps(l: Limits, w: World, t: TaskId, maximum: Money)
    requires Inv(l, w)
    ensures Inv(l, Happen(l, w, At(w.now, ReserveCall(t, maximum))))
  {
    var w2 := Happen(l, w, At(w.now, ReserveCall(t, maximum)));
    if w2 != w {
      forall cl ensures HeldBelow(l, w2, cl) {
        ReservedBelow(l, w, t, maximum, cl);
      }
    }
  }

  lemma SettleKeeps(l: Limits, w: World, id: UsageId, usage: TokenUsage, cost: Money, success: bool)
    requires Inv(l, w)
    ensures Inv(l, Happen(l, w, At(w.now, SettleCall(id, usage, cost, success))))
  {
    var w2 := Happen(l, w, At(w.now, SettleCall(id, usage, cost, success)));
    if w2 != w {
      RowsSound(l, w);
      assert RowOk(l, w.tasks, w.now, w.rows[id], w.books[id]);
      forall cl ensures HeldBelow(l, w2, cl) {
        assert HeldBelow(l, w, cl);
        SettlingHoldsLess(w.rows, w.books, id, w2.rows[id], w2.books[id], cl);
      }
    }
  }

  /** A task row that did not exist has no usage yet. */
  lemma {:induction false} NoUsage(rows: seq<Usage>, books: seq<Book>, t: TaskId)
    requires |rows| == |books| && forall i :: 0 <= i < |rows| ==> rows[i].task != t
    ensures Total(rows, books, ByTask(t), Held) == 0.0
  {
    if |rows| > 0 {
      NoUsage(rows[..|rows| - 1], books[..|rows| - 1], t);
    }
  }

  lemma AddTaskKeeps(l: Limits, w: World, t: TaskId, row: TaskRow)
    requires Inv(l, w) && t !in w.tasks
    ensures Inv(l, Happen(l, w, At(w.now, AddTask(t, row))))
  {
    var w2 := Happen(l, w, At(w.now, AddTask(t, row)));
    forall i | 0 <= i < |w.rows| ensures RowOk(l, w2.tasks, w.now, w.rows[i], w.books[i]) && w.rows[i].task != t {
      assert RowOk(l, w.tasks, w.now, w.rows[i], w.books[i]);
    }
    forall cl ensures HeldBelow(l, w2, cl) {
      assert HeldBelow(l, w, cl);
      if cl == ByTask(t) {
        NoUsage(w.rows, w.books, t);
      }
    }
  }

  lemma HappenKeeps(l: Limits, w0: World, at: At)
    requires Inv(l, w0) && May(w0, at)
    ensures Inv(l, Happen(l, w0, at))
  {
    ClockKeeps(l, w0, at.now);
    hide Inv;
    var w := w0.(now := at.now);
    match at.event {
      case AddTask(t, row) => AddTaskKeeps(l, w, t, row);
      case ReserveCall(t, maximum) => ReserveKeeps(l, w, t, maximum);
      case SettleCall(id, usage, cost, success) => SettleKeeps(l, w, id, usage, cost, success);
    }
  }

  lemma {:induction false} RunKeeps(l: Limits, r: Run, n: nat)
    requires l.Valid() && IsRun(l, r) && n <= |r.events|
    ensures Inv(l, r.worlds[n])
  {
    hide Happen, May;
    if n > 0 {
      RunKeeps(l, r, n - 1);
      assert EventAt(l, r, n - 1);
      hide Inv;
      HappenKeeps(l, r.worlds[n - 1], r.events[n - 1]);
    }
  }

  // ---------------------------------------------------------------- the budget laws

  /**
   In every run, what is counted exactly against a task, an application, the current (or a later) day
   or month never exceeds its ceiling by more than settlements exceeded their reservations.
   */
  lemma CeilingsHold(l: Limits, r: Run, n: nat, cl: Class)
    requires l.Valid() && IsRun(l, r) && n <= |r.events|
    ensures var w := r.worlds[n];
      && |w.rows| == |w.books|
      && var c := Ceiling(l, w.tasks, w.now, cl);
         c.Some? ==> Total(w.rows, w.books, cl, Exact) <= c.value + Total(w.rows, w.books, cl, Over)
  {
    RunKeeps(l, r, n);
    var w := r.worlds[n];
    Splits(w.rows, w.books, cl);
    assert HeldBelow(l, w, cl);
  }

  /** In particular today, this month, every application and every budgeted task. */
  lemma FourCeilings(l: Limits, r: Run, n: nat, app: AppId, task: TaskId)
    requires l.Valid() && IsRun(l, r) && n <= |r.events|
    ensures var w := r.worlds[n]; var today, month := ByDay(w.now.month, w.now.day), ByMonth(w.now.month);
      && |w.rows| == |w.books|
      && Total(w.rows, w.books, today, Exact) <= l.daily + Total(w.rows, w.books, today, Over)
      && Total(w.rows, w.books, month, Exact) <= l.monthly + Total(w.rows, w.books, month, Over)
      && Total(w.rows, w.books, ByApp(app), Exact) <= l.perApp + Total(w.rows, w.books, ByApp(app), Over)
      && (task in w.tasks && w.tasks[task].taskType in l.perTask ==>
            Total(w.rows, w.books, ByTask(task), Exact)
            <= l.perTask[w.tasks[task].taskType] + Total(w.rows, w.books, ByTask(task), Over))
  {
    var w := r.worlds[n];
    CeilingsHold(l, r, n, ByDay(w.now.month, w.now.day));
    CeilingsHold(l, r, n, ByMonth(w.now.month));
    CeilingsHold(l, r, n, ByApp(app));
    CeilingsHold(l, r, n, ByTask(task));
    hide Total;
  }

  lemma {:induction false} NoneOver(rows: seq<Usage>, books: seq<Book>, cl: Class)
    requires |rows| == |books| && AllCovered(books)
    ensures Total(rows, books, cl, Over) == 0.0
  {
    if |rows| > 0 {
      assert AllCovered(books[..|books| - 1]);
      NoneOver(rows[..|rows| - 1], books[..|rows| - 1], cl);
    }
  }

  /** None of the first `n` events settles a row at more than its reservation. */
  ghost predicate Covered(r: Run, n: nat) {
    forall i :: 0 <= i < n && i < |r.events| && i < |r.worlds| ==> CoveredAt(r.worlds[i], r.events[i].event)
  }

  ghost predicate CoveredAt(w: World, e: Event) {
    e.SettleCall? && e.id < |w.books| ==> e.cost <= w.books[e.id].admitted
  }

  ghost predicate AllCovered(books: seq<Book>) {
    forall i :: 0 <= i < |books| ==> books[i].exact <= books[i].admitted
  }

  lemma StepCovered(l: Limits, w: World, at: At)
    requires AllCovered(w.books)
    requires var e := at.event; e.SettleCall? && e.id < |w.books| ==> e.cost <= w.books[e.id].admitted
    ensures AllCovered(Happen(l, w, at).books)
  {
  }

  lemma {:induction false} CoveredBooks(l: Limits, r: Run, n: nat)
    requires IsRun(l, r) && n <= |r.events| && Covered(r, n)
    ensures AllCovered(r.worlds[n].books)
  {
    if n > 0 {
      CoveredBooks(l, r, n - 1);
      assert EventAt(l, r, n - 1) && CoveredAt(r.worlds[n - 1], r.events[n - 1].event);
      hide Happen, May;
      StepCovered(l, r.worlds[n - 1], r.events[n - 1]);
    }
  }

  /** While settlements stay within their reservations the ceilings are absolute. */
  lemma CeilingsAreAbsolute(l: Limits, r: Run, n: nat, cl: Class)
    requires l.Valid() && IsRun(l, r) && n <= |r.events| && Covered(r, n)
    ensures var w := r.worlds[n];
      && |w.rows| == |w.books|
      && var c := Ceiling(l, w.tasks, w.now, cl);
         c.Some? ==> Total(w.rows, w.books, cl, Exact) <= c.value
  {
    CeilingsHold(l, r, n, cl);
    CoveredBooks(l, r, n);
    NoneOver(r.worlds[n].rows, r.worlds[n].books, cl);
  }

  lemma {:induction false} SelectedPriced(rows: seq<Usage>, q: Query)
    requires forall i :: 0 <= i < |rows| ==> !rows[i].Unpriced()
    ensures !UnpricedThere(Selected(rows, q))
  {
    if |rows| > 0 {
      SelectedPriced(rows[..|rows| - 1], q);
    }
  }

  /** The ledger's own rows are always priced: reserving never fails for unpriced history. */
  lemma HistoryIsPriced(l: Limits, r: Run, n: nat, t: TaskId, maximum: Money, now: Stamp)
    requires l.Valid() && IsRun(l, r) && n <= |r.events|
    ensures var w := r.worlds[n];
      Reserve(l, w.tasks, w.rows, t, maximum, now) != Failure(UnpricedHistory)
  {
    RunKeeps(l, r, n);
    var w := r.worlds[n];
    forall i | 0 <= i < |w.rows| ensures !w.rows[i].Unpriced() {
      assert RowOk(l, w.tasks, w.now, w.rows[i], w.books[i]);
    }
    if t in w.tasks {
      SelectedPriced(w.rows, QueryOf(w.tasks, t, now));
    }
  }

  /** Rows are never deleted, and a settled row never changes again. */
  lemma {:induction false} SettledOnce(l: Limits, r: Run, m: nat, n: nat, id: UsageId)
    requires l.Valid() && IsRun(l, r) && m <= n <= |r.events|
    requires id < |r.worlds[m].rows| && !r.worlds[m].rows[id].Pending()
    ensures id < |r.worlds[n].rows| && r.worlds[n].rows[id] == r.worlds[m].rows[id]
  {
    if m < n {
      SettledOnce(l, r, m, n - 1, id);
      assert EventAt(l, r, n - 1);
    }
  }
}
