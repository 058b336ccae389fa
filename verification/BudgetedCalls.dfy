/**
 Ceilings and prices together: while requests reserve the cached maximum and are settled at their price,
 within the tokens they were admitted with, no ceiling is ever exceeded.
 */
module BudgetedCalls {
  import opened Wrappers
  import opened Pricing
  import opened Budgets
  import opened BudgetRuns

  /** What a request is admitted with; `quotes` below gives the one of each usage row. */
  datatype Quote = Quote(prices: Prices, inputBound: nat, outputBound: nat)
  {
    function Admitted(): Money {
      Maximum(prices, inputBound, outputBound, true)
    }
  }

  /** Reservations are at the quote's maximum; settlements are free, or priced within the quote's tokens. */
  ghost predicate Quoted(quotes: UsageId -> Quote, w: World, e: BudgetRuns.Event) {
    match e
    case AddTask(_, _) => true
    case ReserveCall(_, maximum) => quotes(|w.rows|).prices.Valid() && maximum == quotes(|w.rows|).Admitted()
    case SettleCall(id, usage, cost, _) =>
      cost == 0.0 || (Pricing.Within(usage, quotes(id).inputBound, quotes(id).outputBound)
                      && cost == EstimateCost(quotes(id).prices, usage))
  }

  ghost predicate AllQuoted(quotes: UsageId -> Quote, r: Run, n: nat) {
    forall i :: 0 <= i < n && i < |r.events| && i < |r.worlds| ==> Quoted(quotes, r.worlds[i], r.events[i].event)
  }

  ghost predicate BooksQuoted(quotes: UsageId -> Quote, w: World) {
    && |w.rows| == |w.books|
    && forall i :: 0 <= i < |w.books| ==> quotes(i).prices.Valid() && w.books[i].admitted == quotes(i).Admitted()
  }

  lemma StepQuoted(l: Limits, quotes: UsageId -> Quote, w: World, at: At)
    requires BooksQuoted(quotes, w) && Quoted(quotes, w, at.event)
    ensures BooksQuoted(quotes, Happen(l, w, at)) && CoveredAt(w, at.event)
  {
    hide EstimateCost, Maximum;
    match at.event {
      case SettleCall(id, usage, cost, _) =>
        if id < |w.books| {
          var q := quotes(id);
          CostNonnegative(q.prices, TokenUsage(q.inputBound, 0, q.outputBound, q.inputBound));
          assert q.Admitted() >= 0.0 by {
            MaximumIsACost(q);
          }
          if cost != 0.0 {
            MaximumBoundsCachedCalls(q.prices, usage, q.inputBound, q.outputBound);
          }
        }
      case _ =>
    }
  }

  lemma MaximumIsACost(q: Quote)
    ensures q.Admitted() == EstimateCost(q.prices, TokenUsage(q.inputBound, 0, q.outputBound, q.inputBound))
  {
    hide EstimateCost;
  }

  lemma {:induction false} RunQuoted(l: Limits, quotes: UsageId -> Quote, r: Run, n: nat)
    requires IsRun(l, r) && n <= |r.events| && AllQuoted(quotes, r, n)
    ensures BooksQuoted(quotes, r.worlds[n]) && Covered(r, n)
  {
    hide Happen, May, Quoted;
    if n > 0 {
      RunQuoted(l, quotes, r, n - 1);
      assert EventAt(l, r, n - 1);
      StepQuoted(l, quotes, r.worlds[n - 1], r.events[n - 1]);
    }
  }

  /** In every such run all four kinds of ceiling are absolute. */
  lemma CachedCallsKeepCeilings(l: Limits, quotes: UsageId -> Quote, r: Run, n: nat, cl: Class)
    requires l.Valid() && IsRun(l, r) && n <= |r.events| && AllQuoted(quotes, r, n)
    ensures var w := r.worlds[n];
      && |w.rows| == |w.books|
      && var c := Ceiling(l, w.tasks, w.now, cl);
         c.Some? ==> Total(w.rows, w.books, cl, Exact) <= c.value
  {
    RunQuoted(l, quotes, r, n);
    hide Happen, May;
    CeilingsAreAbsolute(l, r, n, cl);
  }
}
