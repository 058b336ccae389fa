/**
 The model gateway: one structured call routes, reserves, requests, settles, validates, and then
 returns, retries on the same tier or escalates.  Other callers use the ledger in between.
 */
module Gateway {
  import opened Wrappers
  import opened Pricing
  import Budgets
  import opened BudgetLedger
  import BudgetRuns
  import Router

  datatype Policy = Policy(schemaAttempts: nat, transportAttempts: nat, maxRequests: nat, maxInput: nat, maxOutput: nat)
  {
    /** The ranges that the configuration accepts. */
    predicate Valid() {
      2 <= schemaAttempts <= 5 && 1 <= transportAttempts <= 5 && 1 <= maxRequests <= 20
    }
  }

  /** How the response text fared: an object that the caller accepts or wants escalated, or none. */
  datatype Verdict = Accepted | Escalate | BadReason | Invalid | ValidatorBug

  /** Whatever the transport does with one request. */
  datatype Reply =
    | ClientError(unbilled: bool, retryable: bool)
    | Cancelled
    | Crashed
    | Answer(usage: Option<TokenUsage>, refused: bool, completed: bool, verdict: Verdict)

  type Client = nat -> Reply

  datatype Error =
    | Routing(r: Router.Error) | InputTooLong | Budget(b: Budgets.Error) | ModelDisabled | TransportExhausted
    | CallCancelled | TransportFailed | Unmetered | OverReservation | Refused | ValidatorFailed | NoReason
    | AttemptsExhausted

  /** One provider call: its step, its reservation, what it was settled at, if it was, and whether with an object. */
  datatype Request = Request(step: nat, id: Budgets.UsageId, maximum: Money, settled: Option<(TokenUsage, Money)>,
                             parsed: bool)

  // ---------------------------------------------------------------- what a structured call leaves behind

  /** The row of a request: settled once, at what it cost, or pending at its full maximum. */
  predicate Accounted(limits: Budgets.Limits, task: Budgets.TaskId, rows: seq<Budgets.Usage>, q: Request) {
    && q.id < |rows| && rows[q.id].task == task
    && match q.settled
       case Some((u, cost)) => rows[q.id].tokens == Some(u) && rows[q.id].estimated == Some(limits.stored(cost))
                               && rows[q.id].success == q.parsed
       case None => rows[q.id].Pending() && rows[q.id].estimated == Some(limits.stored(q.maximum))
  }

  ghost predicate AllAccounted(limits: Budgets.Limits, task: Budgets.TaskId, rows: seq<Budgets.Usage>,
      made: seq<Request>) {
    && (forall i :: 0 <= i < |made| ==> Accounted(limits, task, rows, made[i]))
    && (forall i, j :: 0 <= i < j < |made| ==> made[i].id < made[j].id)
  }

  /** Requests begin at the first step and go on to the next one or stay; no step is passed over. */
  ghost predicate StepByStep(made: seq<Request>, steps: nat) {
    && (forall i :: 0 <= i < |made| ==> made[i].step < steps)
    && (|made| > 0 ==> made[0].step == 0)
    && (forall i :: 0 < i < |made| ==> made[i - 1].step <= made[i].step <= made[i - 1].step + 1)
  }

  predicate Overshoots(q: Request) {
    q.settled.Some? && q.settled.value.1 > q.maximum
  }

  /** Only the last request may have cost more than it reserved. */
  ghost predicate StopsAtOvershoot(made: seq<Request>) {
    forall i :: 0 <= i < |made| - 1 ==> !Overshoots(made[i])
  }

  /** How many requests were made at one step. */
  function At(made: seq<Request>, step: nat): nat {
    if |made| == 0 then 0 else At(made[..|made| - 1], step) + if made[|made| - 1].step == step then 1 else 0
  }

  ghost predicate Bounded(p: Policy, made: seq<Request>) {
    |made| <= p.maxRequests && forall s: nat :: At(made, s) < p.schemaAttempts + p.transportAttempts
  }

  /** The text was parsed and validated into an object. */
  predicate Parsed(reply: Reply) {
    reply.Answer? && reply.completed && !reply.refused && reply.verdict in {Accepted, Escalate, BadReason}
  }

  /** What a reservation is settled at: the metered usage, nothing where surely unbilled, else not at all. */
  function Settlement(p: Prices, reply: Reply): Option<(TokenUsage, Money)> {
    match reply
    case ClientError(true, _) => Some((TokenUsage(0, 0, 0, 0), 0.0))
    case Answer(Some(u), _, _, _) => Some((u, EstimateCost(p, u)))
    case _ => None
  }

  datatype Reaction = Return | RetryTransport | RetrySchema | Advance | Stop(error: Error)

  /** What follows a reply once it is settled. */
  function React(reply: Reply, over: bool): Reaction {
    match reply
    case ClientError(_, retryable) => if retryable then RetryTransport else Stop(TransportExhausted)
    case Cancelled => Stop(CallCancelled)
    case Crashed => Stop(TransportFailed)
    case Answer(usage, refused, completed, verdict) =>
      if usage.None? then Stop(Unmetered)
      else if over then Stop(OverReservation)
      else if refused then Stop(Refused)
      else if !completed then RetrySchema
      else match verdict
        case Accepted => Return
        case Escalate => Advance
        case BadReason => Stop(NoReason)
        case Invalid => RetrySchema
        case ValidatorBug => Stop(ValidatorFailed)
  }

  /** Request `n` was priced by its step's model and settled as its reply demands. */
  ghost predicate Faithful(prices: seq<Prices>, client: Client, inputBound: nat, maxOutput: nat, caching: bool,
      made: seq<Request>) {
    forall n :: 0 <= n < |made| ==>
      && made[n].step < |prices|
      && made[n].maximum == Maximum(prices[made[n].step], inputBound, maxOutput, caching)
      && made[n].settled == Settlement(prices[made[n].step], client(n)) && made[n].parsed == Parsed(client(n))
  }

  /** Rows only grow, and rows that are settled, or pending but ours, are left alone. */
  ghost predicate Undisturbed(before: seq<Budgets.Usage>, after: seq<Budgets.Usage>, mine: set<Budgets.UsageId>) {
    && |before| <= |after| && Budgets.StampsValid(after)
    && forall id :: 0 <= id < |before| && (id in mine || !before[id].Pending()) ==> after[id] == before[id]
  }

  function Ids(made: seq<Request>): set<Budgets.UsageId> {
    set i | 0 <= i < |made| :: made[i].id
  }

  lemma StaysAccounted(limits: Budgets.Limits, task: Budgets.TaskId, before: seq<Budgets.Usage>,
      after: seq<Budgets.Usage>,
                       made: seq<Request>, mine: set<Budgets.UsageId>)
    requires AllAccounted(limits, task, before, made) && Undisturbed(before, after, mine) && Ids(made) <= mine
    ensures AllAccounted(limits, task, after, made)
  {
    forall i | 0 <= i < |made| ensures Accounted(limits, task, after, made[i]) {
      assert made[i].id in Ids(made);
    }
  }

  /** Whoever opened the new rows, it was not this caller. */
  ghost predicate OpenedElsewhere(before: seq<nat>, after: seq<nat>, caller: nat) {
    before <= after && caller !in after[|before|..]
  }

  lemma StillOpened(before: seq<nat>, after: seq<nat>, caller: nat)
    requires OpenedElsewhere(before, after, caller)
    ensures OpenedBy(after, caller) == OpenedBy(before, caller)
  {
    forall id | |before| <= id < |after| ensures after[id] != caller {
      assert after[id] == after[|before|..][id - |before|];
    }
  }

  lemma OneMoreOpened(openers: seq<nat>, caller: nat, made: seq<Request>, q: Request)
    requires OpenedBy(openers, caller) == Ids(made) && q.id == |openers|
    ensures OpenedBy(openers + [caller], caller) == Ids(made + [q])
  {
    var more := made + [q];
    assert forall id :: id in OpenedBy(openers + [caller], caller) <==> id in OpenedBy(openers, caller) || id == q.id;
    assert forall id :: id in Ids(more) <==> id in Ids(made) || id == q.id by {
      assert more[|made|] == q;
      forall id | id in Ids(made) ensures id in Ids(more) {
        var i :| 0 <= i < |made| && made[i].id == id;
        assert more[i].id == id;
      }
    }
  }

  /** A clock that does not go back, and is not behind `from`. */
  ghost predicate Onward(clock: nat -> Budgets.Stamp, from: Budgets.Stamp) {
    && !Budgets.Earlier(clock(0), from)
    && forall i: nat, j: nat :: i <= j ==> !Budgets.Earlier(clock(j), clock(i))
  }

  lemma StillAhead(clock: nat -> Budgets.Stamp, n: nat, now: Budgets.Stamp)
    requires Onward(clock, clock(0)) && !Budgets.Earlier(clock(n), now)
    ensures !Budgets.Earlier(clock(n + 1), now)
  {
    assert !Budgets.Earlier(clock(n + 1), clock(n));
  }

  lemma SameIds(made: seq<Request>, q: Request, q2: Request)
    requires q2.id == q.id
    ensures Ids(made + [q2]) == Ids(made + [q])
  {
    var a, b := made + [q], made + [q2];
    assert forall i :: 0 <= i < |a| ==> a[i].id == b[i].id;
  }

  /** What others do leaves these requests, and one that is still pending, alone. */
  lemma OthersKeep(limits: Budgets.Limits, task: Budgets.TaskId, before: seq<Budgets.Usage>,
      after: seq<Budgets.Usage>, made: seq<Request>, q: Request)
    requires Undisturbed(before, after, Ids(made) + {q.id})
    requires AllAccounted(limits, task, before, made) && Accounted(limits, task, before, q)
    ensures AllAccounted(limits, task, after, made) && Accounted(limits, task, after, q)
  {
    StaysAccounted(limits, task, before, after, made, Ids(made) + {q.id});
  }

  lemma AtAppend(made: seq<Request>, q: Request)
    ensures forall s: nat :: At(made + [q], s) == At(made, s) + if q.step == s then 1 else 0
  {
    assert (made + [q])[..|made|] == made;
  }

  class ModelGateway {
    const registry: Router.Registry
    const policy: Policy
    const ledger: BudgetLedger

    ghost predicate Valid()
      reads ledger
    {
      && Router.Checked(registry) && policy.Valid() && ledger.limits.Valid() && Budgets.StampsValid(ledger.rows)
      && (forall t :: t in registry.models ==> registry.models[t].prices.Valid())
      && |ledger.openers| == |ledger.rows|
    }

    /** The ledger is in a state of a run, at a moment not after `now`. */
    ghost predicate InTime(now: Budgets.Stamp)
      reads ledger
    {
      ledger.Valid() && now.Valid() && !Budgets.Earlier(now, ledger.world.now)
    }

    constructor (registry: Router.Registry, policy: Policy, ledger: BudgetLedger)
      ensures this.registry == registry && this.policy == policy && this.ledger == ledger
    {
      this.registry, this.policy, this.ledger := registry, policy, ledger;
    }

    /** No route of this name, or its first step is above a ceiling or disabled. */
    ghost predicate Unroutable(operation: string, ceiling: Option<Router.Tier>, allowFallback: bool) {
      operation in registry.routes ==>
        var route := Router.Steps(registry.routes[operation], allowFallback);
        route.Success? ==> !Router.Usable(registry, Router.Limit(registry, ceiling), route.value[0])
    }

    /** Until `now` other callers reserve and settle rows of their own; nothing more is known of them. */
    method OthersAct(ghost mine: set<Budgets.UsageId>, ghost caller: nat, ghost now: Budgets.Stamp)
      requires Valid()
      modifies ledger
      ensures Valid() && Undisturbed(old(ledger.rows), ledger.rows, mine)
      ensures OpenedElsewhere(old(ledger.openers), ledger.openers, caller)
      ensures old(InTime(now)) ==> InTime(now)
    {
    }

    /** Reserve, call the provider, settle.  Others act between these transactions. */
    method Call(task: Budgets.TaskId, step: nat, prices: Prices, inputBound: nat, caching: bool, reply: Reply,
                now: Budgets.Stamp, ghost caller: nat, ghost made: seq<Request>)
      returns (r: Result<Request, Budgets.Error>)
      requires Valid() && now.Valid() && prices.Valid() && Metered(reply)
      requires AllAccounted(ledger.limits, task, ledger.rows, made) && OpenedBy(ledger.openers, caller) == Ids(made)
      modifies ledger
      ensures Valid() && (old(InTime(now)) ==> InTime(now))
      ensures r.Success? ==>
        && r.value.step == step && r.value.maximum == Maximum(prices, inputBound, policy.maxOutput, caching)
        && r.value.settled == Settlement(prices, reply) && r.value.parsed == Parsed(reply)
        && AllAccounted(ledger.limits, task, ledger.rows, made + [r.value])
        && OpenedBy(ledger.openers, caller) == Ids(made + [r.value])
      ensures r.Success? && Overshoots(r.value) ==> reply.Answer? && reply.usage.Some?
      ensures r.Failure? ==>
        AllAccounted(ledger.limits, task, ledger.rows, made) && OpenedBy(ledger.openers, caller) == Ids(made)
    {
      hide BudgetLedger.Valid, Undisturbed, OpenedElsewhere;
      CostNonnegative(prices, TokenUsage(inputBound, 0, policy.maxOutput, if caching then inputBound else 0));
      var maximum := Maximum(prices, inputBound, policy.maxOutput, caching);
      var id :- Open(task, maximum, now, caller, made);
      var settled := Settlement(prices, reply);
      r := Success(Request(step, id, maximum, settled, Parsed(reply)));
      ghost var rows1, openers1 := ledger.rows, ledger.openers;
      OthersAct(Ids(made) + {id}, caller, now);
      OthersKeep(ledger.limits, task, rows1, ledger.rows, made, Request(step, id, maximum, None, Parsed(reply)));
      StillOpened(openers1, ledger.openers, caller);
      ghost var rows2 := ledger.rows;
      if settled.Some? {
        if reply.Answer? {
          CostNonnegative(prices, reply.usage.value);
        }
        var done := ledger.Settle(id, settled.value.0, settled.value.1, Parsed(reply));
        assert done.Success?;
      }
      Recorded(ledger.limits, task, rows2, ledger.rows, made, r.value);
      SameIds(made, Request(step, id, maximum, None, Parsed(reply)), r.value);
    }

    /** The reservation of one request. */
    method Open(task: Budgets.TaskId, maximum: Money, now: Budgets.Stamp, ghost caller: nat, ghost made: seq<Request>)
      returns (r: Result<Budgets.UsageId, Budgets.Error>)
      requires Valid() && now.Valid() && maximum >= 0.0
      requires AllAccounted(ledger.limits, task, ledger.rows, made) && OpenedBy(ledger.openers, caller) == Ids(made)
      modifies ledger
      ensures Valid() && (old(InTime(now)) ==> InTime(now)) && AllAccounted(ledger.limits, task, ledger.rows, made)
      ensures r.Failure? ==> OpenedBy(ledger.openers, caller) == Ids(made)
      ensures r.Success? ==>
        && (forall i :: 0 <= i < |made| ==> made[i].id < r.value)
        && forall step, parsed :: (var q := Request(step, r.value, maximum, None, parsed);
             Accounted(ledger.limits, task, ledger.rows, q) && OpenedBy(ledger.openers, caller) == Ids(made + [q]))
    {
      hide BudgetLedger.Valid;
      ghost var mine, rows0, openers0 := Ids(made), ledger.rows, ledger.openers;
      OthersAct(mine, caller, now);
      StillOpened(openers0, ledger.openers, caller);
      StaysAccounted(ledger.limits, task, rows0, ledger.rows, made, mine);
      ghost var rows1, openers1 := ledger.rows, ledger.openers;
      MayReserve(task, maximum, now);
      hide InTime;
      r := ledger.Reserve(task, maximum, now, caller);
      NotBehind(now);
      assert Undisturbed(rows1, ledger.rows, mine);
      StaysAccounted(ledger.limits, task, rows1, ledger.rows, made, mine);
      if r.Success? {
        forall step, parsed
          ensures OpenedBy(ledger.openers, caller) == Ids(made + [Request(step, r.value, maximum, None, parsed)])
        {
          OneMoreOpened(openers1, caller, made, Request(step, r.value, maximum, None, parsed));
        }
      }
    }

    lemma StillInTime(clock: nat -> Budgets.Stamp, n: nat)
      requires InTime(clock(n)) && Onward(clock, clock(0)) && clock(n + 1).Valid()
      ensures InTime(clock(n + 1))
    {
      hide BudgetLedger.Valid;
      StillAhead(clock, n, ledger.world.now);
    }

    lemma MayReserve(task: Budgets.TaskId, maximum: Money, now: Budgets.Stamp)
      ensures InTime(now) ==> ledger.Legal(BudgetRuns.ReserveCall(task, maximum), now)
    {
      hide BudgetLedger.Valid;
    }

    lemma NotBehind(now: Budgets.Stamp)
      requires now.Valid()
      ensures ledger.Valid() && ledger.world.now == now ==> InTime(now)
    {
      hide BudgetLedger.Valid;
    }

    /**
     `structured`: at most `maxRequests` provider calls over a usable beginning of the route, each with a
     reservation of its own that ends settled once or pending at its full maximum, and no other
     reservation.  An object is returned only from a metered, completed, validated and accepted answer
     within its reservation.  Whatever others do, the ledger stays within the run that it is part of.
     */
    method Structured(task: Budgets.TaskId, operation: string, ceiling: Option<Router.Tier>, allowFallback: bool,
                      inputBound: nat, caching: bool, client: Client, clock: nat -> Budgets.Stamp, ghost caller: nat)
      returns (r: Result<nat, Error>, made: seq<Request>, steps: seq<Router.Selection>)
      requires Valid() && (forall n :: clock(n).Valid()) && forall n :: Metered(client(n))
      requires caller !in ledger.openers
      modifies ledger
      ensures Valid() && AllAccounted(ledger.limits, task, ledger.rows, made)
      ensures OpenedBy(ledger.openers, caller) == Ids(made)
      ensures old(ledger.Valid() && Onward(clock, ledger.world.now)) ==> ledger.Valid()
      ensures Bounded(policy, made) && StepByStep(made, |steps|) && StopsAtOvershoot(made)
      ensures steps != [] ==>
        && operation in registry.routes && inputBound <= policy.maxInput && Router.Ascending(steps)
        && Router.Steps(registry.routes[operation], allowFallback).Success?
        && Router.LongestUsable(registry, Router.Limit(registry, ceiling),
                                Router.Steps(registry.routes[operation], allowFallback).value, steps)
        && Faithful(PricesOf(steps), client, inputBound, policy.maxOutput, caching, made)
      ensures Ends(r, made, client) && Disciplined(policy, client, made) && GivesUp(policy, client, made, r)
      ensures steps == [] ==> made == [] && r.Failure? && (r.error.Routing? || r.error == InputTooLong)
      ensures r == Failure(InputTooLong) ==> inputBound > policy.maxInput
      ensures r.Failure? && r.error.Routing? ==> Unroutable(operation, ceiling, allowFallback)
      ensures steps != [] && made == [] ==> r.Failure? && r.error.Budget?
      ensures r == Failure(AttemptsExhausted) ==>
        |made| == policy.maxRequests || (|made| > 0 && made[|made| - 1].step == |steps| - 1)
    {
      hide AllAccounted, Faithful, StepByStep, Bounded, StopsAtOvershoot, Progress, Maximum, Settlement;
      hide Steady, Disciplined, GivesUp, Ends;
      hide Router.LongestUsable, Router.Checked, Router.Ascending, Router.Steps, Router.Limit, Budgets.StampsValid;
      hide BudgetLedger.Valid, Budgets.Earlier;
      made, steps := [], [];
      ghost var lawful := ledger.Valid() && Onward(clock, ledger.world.now);
      NothingYet(policy, ledger.limits, task, ledger.rows);
      NoRequests(policy, client);
      var route := Router.SelectRoute(registry, operation, ceiling, allowFallback);
      if route.Failure? {
        return Failure(Routing(route.error)), made, steps;
      }
      if inputBound > policy.maxInput {
        return Failure(InputTooLong), made, steps;
      }
      steps := route.value;
      UsableModels(registry, Router.Limit(registry, ceiling),
                   Router.Steps(registry.routes[operation], allowFallback).value, steps);
      ghost var prices := PricesOf(steps);
      Begun(policy, prices, client, inputBound, caching);
      for step := 0 to |steps|
        invariant Kept(task, clock, caller, lawful, made)
        invariant Progress(policy, prices, client, inputBound, caching, made, step, 0)
        invariant Steady(policy, client, made, step, 0, 0)
        invariant step == 0 ==> made == []
        invariant |made| < policy.maxRequests && step > 0 ==> |made| > 0 && made[|made| - 1].step == step - 1
      {
        var ended;
        ended, made := TryStep(task, step, registry.models[steps[step].model].prices, prices, inputBound, caching,
          client, clock, caller, lawful, made);
        if ended.Some? {
          return ended.value, made, steps;
        }
      }
      ProgressGives(policy, prices, client, inputBound, caching, made, |steps|, 0);
      Unfinished(policy, client, made, |steps|, 0, 0, AttemptsExhausted);
      return Failure(AttemptsExhausted), made, steps;
    }

    /** What every request keeps: the account so far, and the ledger's run where it was lawful to begin with. */
    ghost predicate Kept(task: Budgets.TaskId, clock: nat -> Budgets.Stamp, caller: nat, lawful: bool,
                         made: seq<Request>)
      reads ledger
    {
      && Valid() && AllAccounted(ledger.limits, task, ledger.rows, made)
      && OpenedBy(ledger.openers, caller) == Ids(made)
      && (lawful ==> InTime(clock(|made|)) && Onward(clock, clock(0)))
    }

    /** One more request at the current step. */
    method OneMore(task: Budgets.TaskId, step: nat, model: Prices, ghost prices: seq<Prices>, inputBound: nat,
                   caching: bool, client: Client, clock: nat -> Budgets.Stamp, ghost caller: nat, ghost lawful: bool,
                   made: seq<Request>, ghost here: nat)
      returns (r: Result<Request, Budgets.Error>)
      requires Kept(task, clock, caller, lawful, made)
      requires (forall n :: clock(n).Valid()) && forall n :: Metered(client(n))
      requires step < |prices| && prices[step] == model && model.Valid()
      requires Progress(policy, prices, client, inputBound, caching, made, step, here)
      requires |made| < policy.maxRequests && here + 1 < policy.schemaAttempts + policy.transportAttempts
      requires if |made| == 0 then step == 0 else step - 1 <= made[|made| - 1].step <= step
      modifies ledger
      ensures Kept(task, clock, caller, lawful, if r.Success? then made + [r.value] else made)
      ensures r.Success? ==>
        && var more := made + [r.value];
        && r.value.step == step && Bounded(policy, more) && StepByStep(more, |prices|) && StopsAtOvershoot(more)
        && Faithful(prices, client, inputBound, policy.maxOutput, caching, more)
        && (Overshoots(r.value) ==> client(|made|).Answer? && client(|made|).usage.Some?)
        && (!Overshoots(r.value) ==> Progress(policy, prices, client, inputBound, caching, more, step, here + 1))
    {
      hide AllAccounted, Faithful, StepByStep, Bounded, StopsAtOvershoot, Progress, Maximum, Settlement;
      hide InTime, Onward, OpenedBy, Ids, Router.Checked, Budgets.StampsValid, Prices.Valid, Metered, Overshoots;
      r := Call(task, step, model, inputBound, caching, client(|made|), clock(|made|), caller, made);
      if r.Success? {
        Extended(policy, prices, client, inputBound, caching, made, r.value, step, here);
        if lawful {
          StillInTime(clock, |made|);
        }
      }
    }

    /** The inner loop: requests at one step until something is returned or raised, or the step is left. */
    method TryStep(task: Budgets.TaskId, step: nat, model: Prices, ghost prices: seq<Prices>, inputBound: nat,
                   caching: bool, client: Client, clock: nat -> Budgets.Stamp, ghost caller: nat, ghost lawful: bool,
                   made0: seq<Request>)
      returns (ended: Option<Result<nat, Error>>, made: seq<Request>)
      requires Kept(task, clock, caller, lawful, made0) && policy.Valid()
      requires (forall n :: clock(n).Valid()) && forall n :: Metered(client(n))
      requires step < |prices| && prices[step] == model && model.Valid()
      requires Progress(policy, prices, client, inputBound, caching, made0, step, 0)
      requires step == 0 ==> made0 == []
      requires |made0| < policy.maxRequests && step > 0 ==> |made0| > 0 && made0[|made0| - 1].step == step - 1
      requires Steady(policy, client, made0, step, 0, 0)
      modifies ledger
      ensures Kept(task, clock, caller, lawful, made)
      ensures ended.None? ==>
        && Progress(policy, prices, client, inputBound, caching, made, step + 1, 0)
        && Steady(policy, client, made, step + 1, 0, 0)
        && (|made| < policy.maxRequests ==> |made| > 0 && made[|made| - 1].step == step)
      ensures ended.Some? ==>
        && Bounded(policy, made) && StepByStep(made, |prices|) && StopsAtOvershoot(made)
        && Faithful(prices, client, inputBound, policy.maxOutput, caching, made)
        && Ends(ended.value, made, client) && OwnEnding(ended.value)
        && (made == [] ==> ended.value.Failure? && ended.value.error.Budget?)
        && Disciplined(policy, client, made) && GivesUp(policy, client, made, ended.value)
    {
      hide Kept, Faithful, StepByStep, Bounded, StopsAtOvershoot, Progress, Prices.Valid, Metered, React, Overshoots;
      hide Steady, Disciplined, GivesUp, Ends, Unparsed, Judged, Leaves, Stays, EndsWith, Setbacks;
      made := made0;
      var schemaErrors, transportErrors := 0, 0;
      ghost var here, left := 0, false;
      while |made| < policy.maxRequests
        invariant Kept(task, clock, caller, lawful, made)
        invariant Progress(policy, prices, client, inputBound, caching, made, step, here)
        invariant here == schemaErrors + transportErrors && !left
        invariant Steady(policy, client, made, step, schemaErrors, transportErrors)
        invariant schemaErrors < policy.schemaAttempts && transportErrors < policy.transportAttempts
        invariant 0 < |made| < policy.maxRequests ==> step - 1 <= made[|made| - 1].step <= step
        invariant |made| == 0 ==> step == 0
        decreases policy.maxRequests - |made|
      {
        ProgressGives(policy, prices, client, inputBound, caching, made, step, here);
        var reply := client(|made|);
        var call := OneMore(task, step, model, prices, inputBound, caching, client, clock, caller, lawful, made, here);
        if call.Failure? {
          Unfinished(policy, client, made, step, schemaErrors, transportErrors, Budget(call.error));
          return Some(Failure(Budget(call.error))), made;
        }
        var over := Overshoots(call.value);
        ReactMeans(reply, over);
        Steadied(policy, client, made, call.value, step, schemaErrors, transportErrors);
        made, here := made + [call.value], here + 1;
        match React(reply, over) {
          case Return =>
            EndingIs(policy, client, made, Success(|made| - 1));
            return Some(Success(|made| - 1)), made;
          case Stop(error) =>
            EndingIs(policy, client, made, Failure(error));
            return Some(Failure(error)), made;
          case Advance =>
            SteadyLeft(policy, client, made, step);
            left := true;
            break;
          case RetryTransport =>
            transportErrors := transportErrors + 1;
            if transportErrors >= policy.transportAttempts {
              EndingIs(policy, client, made, Failure(TransportExhausted));
              return Some(Failure(TransportExhausted)), made;
            }
          case RetrySchema =>
            schemaErrors := schemaErrors + 1;
            if schemaErrors >= policy.schemaAttempts {
              SteadyLeft(policy, client, made, step);
              left := true;
              break;
            }
        }
      }
      ProgressGives(policy, prices, client, inputBound, caching, made, step, here);
      if !left {
        NoneLeft(policy, client, made, step, schemaErrors, transportErrors);
      }
      Escalated(policy, prices, client, inputBound, caching, made, step, here);
      return None, made;
    }

    function PricesOf(steps: seq<Router.Selection>): seq<Prices>
      requires forall i :: 0 <= i < |steps| ==> steps[i].model in registry.models
    {
      seq(|steps|, i requires 0 <= i < |steps| => registry.models[steps[i].model].prices)
    }
  }

  // ---------------------------------------------------------------- what a reply leads to

  /** A metered answer within its reservation that the model did not refuse. */
  predicate Usable(reply: Reply, over: bool) {
    reply.Answer? && reply.usage.Some? && !over && !reply.refused
  }

  /** No object came of it: cut short, or no valid JSON of the schema. */
  predicate Unparsed(reply: Reply, over: bool) {
    Usable(reply, over) && (!reply.completed || reply.verdict == Invalid)
  }

  /** Completed and parsed, and the caller says this of the object; or its validation crashed. */
  predicate Judged(reply: Reply, over: bool, verdict: Verdict) {
    Usable(reply, over) && reply.completed && reply.verdict == verdict
  }

  predicate Retryable(reply: Reply) {
    reply.ClientError? && reply.retryable
  }

  /** The last reply decides how the call ends, and the ending says what the last reply was. */
  predicate EndsWith(r: Result<nat, Error>, reply: Reply, over: bool) {
    && (r.Success? <==> Judged(reply, over, Accepted))
    && (r == Failure(OverReservation) <==> over)
    && (r == Failure(Refused) <==> reply.Answer? && reply.usage.Some? && !over && reply.refused)
    && (r == Failure(Unmetered) <==> reply.Answer? && reply.usage.None?)
    && (r == Failure(ValidatorFailed) <==> Judged(reply, over, ValidatorBug))
    && (r == Failure(NoReason) <==> Judged(reply, over, BadReason))
    && (r == Failure(CallCancelled) <==> reply.Cancelled?)
    && (r == Failure(TransportFailed) <==> reply.Crashed?)
    && (r == Failure(TransportExhausted) ==> reply.ClientError?)
    && (reply.ClientError? && !reply.retryable ==> r == Failure(TransportExhausted))
  }

  /** A result is the last answer, accepted, and every other ending is that of the last reply. */
  predicate Ends(r: Result<nat, Error>, made: seq<Request>, client: Client) {
    && (r.Success? ==> |made| > 0 && r.value == |made| - 1)
    && (|made| > 0 ==> EndsWith(r, client(|made| - 1), Overshoots(made[|made| - 1])))
  }

  /** Not an error of what comes before or after the requests. */
  predicate OwnEnding(r: Result<nat, Error>) {
    r.Failure? ==> !r.error.Routing? && r.error != InputTooLong && r.error != AttemptsExhausted
  }

  lemma ReactMeans(reply: Reply, over: bool)
    requires over ==> reply.Answer? && reply.usage.Some?
    ensures var x := React(reply, over);
      && (x == Return <==> Judged(reply, over, Accepted)) && (x == Advance <==> Judged(reply, over, Escalate))
      && (x == RetryTransport <==> Retryable(reply)) && (x == RetrySchema <==> Unparsed(reply, over))
      && (x.Stop? ==> EndsWith(Failure(x.error), reply, over)
                      && OwnEnding(Failure(x.error)) && !x.error.Budget?
                      && (x.error == TransportExhausted ==> !Retryable(reply)))
    ensures React(reply, over) == Return ==> forall n: nat :: EndsWith(Success(n), reply, over)
    ensures Retryable(reply) ==> EndsWith(Failure(TransportExhausted), reply, over)
    ensures over ==> React(reply, over) == Stop(OverReservation)
  {
  }

  /** What was answered is charged at its price, what surely was not billed at nothing, all else stays reserved. */
  lemma SettlementMeans(p: Prices, reply: Reply)
    ensures var settled := Settlement(p, reply);
      && (settled.None? <==> reply.Cancelled? || reply.Crashed? || (reply.ClientError? && !reply.unbilled)
                             || (reply.Answer? && reply.usage.None?))
      && (reply.ClientError? && reply.unbilled ==> settled == Some((TokenUsage(0, 0, 0, 0), 0.0)))
      && (reply.Answer? && reply.usage.Some? ==>
            settled == Some((reply.usage.value, EstimateCost(p, reply.usage.value))))
  {
  }

  /** The ledger row counts as a success exactly if an object was made of the answer. */
  lemma ParsedMeans(reply: Reply, over: bool)
    ensures Judged(reply, over, Accepted) || Judged(reply, over, Escalate) || Judged(reply, over, BadReason)
            ==> Parsed(reply)
    ensures !reply.Answer? || reply.refused || Unparsed(reply, over) || Judged(reply, over, ValidatorBug)
            ==> !Parsed(reply)
  {
  }

  // ---------------------------------------------------------------- from one request to the next

  datatype Setback = Transport | Schema

  predicate Suffers(x: Setback, reply: Reply, over: bool) {
    if x == Transport then Retryable(reply) else Unparsed(reply, over)
  }

  /** How many of the requests at one step met with this setback. */
  function Setbacks(client: Client, made: seq<Request>, step: nat, x: Setback): nat {
    if |made| == 0 then 0 else
    var n := |made| - 1;
    Setbacks(client, made[..n], step, x)
    + if made[n].step == step && Suffers(x, client(n), Overshoots(made[n])) then 1 else 0
  }

  /** The last request met with a setback. */
  ghost predicate Stays(client: Client, made: seq<Request>) {
    |made| > 0 && (Retryable(client(|made| - 1)) || Unparsed(client(|made| - 1), Overshoots(made[|made| - 1])))
  }

  /** The last step may be left: its answer asks for it, or as many answers as allowed came to nothing. */
  ghost predicate Leaves(p: Policy, client: Client, made: seq<Request>) {
    |made| > 0 &&
    var n := |made| - 1;
    || Judged(client(n), Overshoots(made[n]), Escalate)
    || (Unparsed(client(n), Overshoots(made[n])) && Setbacks(client, made, made[n].step, Schema) == p.schemaAttempts)
  }

  /** Why request `n` was made: again at the same step after a setback, or at the next as the step was left. */
  ghost predicate Follows(p: Policy, client: Client, made: seq<Request>, n: nat)
    requires 0 < n < |made|
  {
    if made[n].step == made[n - 1].step then Stays(client, made[..n]) else Leaves(p, client, made[..n])
  }

  ghost predicate Disciplined(p: Policy, client: Client, made: seq<Request>) {
    && (forall n :: 0 < n < |made| ==> Follows(p, client, made, n))
    && (forall s: nat :: Setbacks(client, made, s, Schema) <= p.schemaAttempts
                         && Setbacks(client, made, s, Transport) <= p.transportAttempts)
  }

  /** Setbacks so far at the current step; before any, the previous step was left as it should be. */
  ghost predicate Steady(p: Policy, client: Client, made: seq<Request>, step: nat, schema: nat, transport: nat) {
    && Disciplined(p, client, made)
    && Setbacks(client, made, step, Schema) == schema && Setbacks(client, made, step, Transport) == transport
    && (forall i :: 0 <= i < |made| ==> made[i].step <= step)
    && (|made| > 0 ==>
          if schema + transport > 0 then made[|made| - 1].step == step && Stays(client, made)
          else made[|made| - 1].step < step
               && (Leaves(p, client, made) || (|made| == p.maxRequests && Stays(client, made))))
  }

  lemma SetbacksAppend(client: Client, made: seq<Request>, q: Request)
    ensures forall s: nat, x ::
      Setbacks(client, made + [q], s, x)
      == Setbacks(client, made, s, x) + (if q.step == s && Suffers(x, client(|made|), Overshoots(q)) then 1 else 0)
  {
    assert (made + [q])[..|made|] == made;
  }

  /** Before anything was tried at a step there is no setback there. */
  lemma {:induction false} NoSetbacksYet(client: Client, made: seq<Request>, step: nat, x: Setback)
    requires forall i :: 0 <= i < |made| ==> made[i].step < step
    ensures Setbacks(client, made, step, x) == 0
  {
    if |made| > 0 {
      NoSetbacksYet(client, made[..|made| - 1], step, x);
    }
  }

  lemma FollowsAppend(p: Policy, client: Client, made: seq<Request>, q: Request)
    requires forall n :: 0 < n < |made| ==> Follows(p, client, made, n)
    requires |made| > 0 ==>
      if q.step == made[|made| - 1].step then Stays(client, made) else Leaves(p, client, made)
    ensures forall n :: 0 < n < |made| + 1 ==> Follows(p, client, made + [q], n)
  {
    var more := made + [q];
    forall n | 0 < n < |more| ensures Follows(p, client, more, n) {
      hide Leaves, Stays;
      assert more[..n] == if n < |made| then made[..n] else made;
      if n < |made| {
        assert Follows(p, client, made, n);
      }
    }
  }

  /** One more request at the step keeps the discipline; a setback may be repeated, an escalation leaves. */
  lemma Steadied(p: Policy, client: Client, made: seq<Request>, q: Request, step: nat, schema: nat, transport: nat)
    requires Steady(p, client, made, step, schema, transport) && q.step == step && |made| < p.maxRequests
    requires schema < p.schemaAttempts && transport < p.transportAttempts
    ensures var more, reply, over := made + [q], client(|made|), Overshoots(q);
      && Disciplined(p, client, more) && (forall i :: 0 <= i < |more| ==> more[i].step <= step)
      && (Retryable(reply) ==>
            Steady(p, client, more, step, schema, transport + 1)
            && Setbacks(client, more, step, Transport) == transport + 1)
      && (Unparsed(reply, over) ==> Steady(p, client, more, step, schema + 1, transport))
      && (Unparsed(reply, over) && schema + 1 == p.schemaAttempts ==> Leaves(p, client, more))
      && (Judged(reply, over, Escalate) ==> Leaves(p, client, more))
  {
    FollowsAppend(p, client, made, q);
    TalliesAppend(p, client, made, q, schema, transport);
    hide Follows, Setbacks, Unparsed, Judged, Retryable;
  }

  /** The tallies after one more request, which meets with one setback at most. */
  lemma TalliesAppend(p: Policy, client: Client, made: seq<Request>, q: Request, schema: nat, transport: nat)
    requires Disciplined(p, client, made) && schema < p.schemaAttempts && transport < p.transportAttempts
    requires Setbacks(client, made, q.step, Schema) == schema && Setbacks(client, made, q.step, Transport) == transport
    ensures var more, reply, over := made + [q], client(|made|), Overshoots(q);
      && (forall s: nat :: Setbacks(client, more, s, Schema) <= p.schemaAttempts
                           && Setbacks(client, more, s, Transport) <= p.transportAttempts)
      && Setbacks(client, more, q.step, Schema) == schema + (if Unparsed(reply, over) then 1 else 0)
      && Setbacks(client, more, q.step, Transport) == transport + (if Retryable(reply) then 1 else 0)
      && !(Unparsed(reply, over) && Retryable(reply))
  {
    SetbacksAppend(client, made, q);
    hide Follows, Setbacks;
    var more := made + [q];
    forall s: nat ensures Setbacks(client, more, s, Schema) <= p.schemaAttempts
                          && Setbacks(client, more, s, Transport) <= p.transportAttempts {
      assert Setbacks(client, made, s, Schema) <= p.schemaAttempts;
    }
  }

  /** Giving up on transport takes as many retryable errors as allowed; giving up at all, that no step is left. */
  ghost predicate GivesUp(p: Policy, client: Client, made: seq<Request>, r: Result<nat, Error>) {
    && (r == Failure(TransportExhausted) && |made| > 0 && Retryable(client(|made| - 1)) ==>
          Setbacks(client, made, made[|made| - 1].step, Transport) == p.transportAttempts)
    && (r == Failure(AttemptsExhausted) && |made| < p.maxRequests ==> Leaves(p, client, made))
  }

  lemma EndingIs(p: Policy, client: Client, made: seq<Request>, r: Result<nat, Error>)
    requires |made| > 0 && EndsWith(r, client(|made| - 1), Overshoots(made[|made| - 1]))
    requires (r.Success? ==> r.value == |made| - 1) && r != Failure(AttemptsExhausted)
    requires r == Failure(TransportExhausted) && Retryable(client(|made| - 1)) ==>
      Setbacks(client, made, made[|made| - 1].step, Transport) == p.transportAttempts
    ensures Ends(r, made, client) && GivesUp(p, client, made, r)
  {
  }

  /** Where the last reply decides nothing, the call ends for another reason. */
  lemma Unfinished(p: Policy, client: Client, made: seq<Request>, step: nat, schema: nat, transport: nat, e: Error)
    requires Steady(p, client, made, step, schema, transport) && (e.Budget? || e == AttemptsExhausted)
    requires forall i :: 0 <= i < |made| ==> !Overshoots(made[i])
    requires e == AttemptsExhausted ==> schema + transport == 0 && (|made| < p.maxRequests ==> |made| > 0)
    ensures Ends(Failure(e), made, client) && GivesUp(p, client, made, Failure(e)) && Disciplined(p, client, made)
  {
    hide Disciplined, Setbacks;
  }

  /** No request is left. */
  lemma NoneLeft(p: Policy, client: Client, made: seq<Request>, step: nat, schema: nat, transport: nat)
    requires Steady(p, client, made, step, schema, transport) && |made| == p.maxRequests
    ensures Steady(p, client, made, step + 1, 0, 0)
  {
    hide Setbacks, Disciplined, Leaves, Stays;
    SteadyLeft(p, client, made, step);
  }

  /** Leaving the step, or having no request left. */
  lemma SteadyLeft(p: Policy, client: Client, made: seq<Request>, step: nat)
    requires Disciplined(p, client, made) && (forall i :: 0 <= i < |made| ==> made[i].step <= step)
    requires |made| > 0 ==> Leaves(p, client, made) || (|made| == p.maxRequests && Stays(client, made))
    ensures Steady(p, client, made, step + 1, 0, 0)
  {
    NoSetbacksYet(client, made, step + 1, Schema);
    NoSetbacksYet(client, made, step + 1, Transport);
    hide Setbacks, Disciplined, Leaves, Stays;
  }

  predicate Metered(reply: Reply) {
    reply.Answer? && reply.usage.Some? ==> reply.usage.value.Valid()
  }

  /** Requests so far, of which `here` at the current step and none at a later one. */
  ghost predicate Progress(p: Policy, prices: seq<Prices>, client: Client, inputBound: nat, caching: bool,
                           made: seq<Request>, step: nat, here: nat) {
    && Bounded(p, made) && StepByStep(made, |prices|)
      && Faithful(prices, client, inputBound, p.maxOutput, caching, made)
    && (forall i :: 0 <= i < |made| ==> !Overshoots(made[i]) && made[i].step <= step)
    && At(made, step) == here && (forall s: nat :: s > step ==> At(made, s) == 0)
  }

  /** One more request keeps the bounds; unless it overshot, the call may go on. */
  lemma Extended(p: Policy, prices: seq<Prices>, client: Client, inputBound: nat, caching: bool,
                 made: seq<Request>, q: Request, step: nat, here: nat)
    requires p.Valid() && Progress(p, prices, client, inputBound, caching, made, step, here)
    requires |made| < p.maxRequests && step < |prices| && here + 1 < p.schemaAttempts + p.transportAttempts
    requires q.step == step && q.maximum == Maximum(prices[step], inputBound, p.maxOutput, caching)
    requires q.settled == Settlement(prices[step], client(|made|)) && q.parsed == Parsed(client(|made|))
    requires if |made| == 0 then step == 0 else step - 1 <= made[|made| - 1].step <= step
    ensures var more := made + [q];
      && Bounded(p, more) && StepByStep(more, |prices|) && StopsAtOvershoot(more)
      && Faithful(prices, client, inputBound, p.maxOutput, caching, more)
      && (!Overshoots(q) ==> Progress(p, prices, client, inputBound, caching, more, step, here + 1))
  {
    AtAppend(made, q);
  }

  lemma NothingYet(p: Policy, limits: Budgets.Limits, task: Budgets.TaskId, rows: seq<Budgets.Usage>)
    ensures AllAccounted(limits, task, rows, []) && StopsAtOvershoot([]) && forall n: nat :: StepByStep([], n)
    ensures p.Valid() ==> Bounded(p, [])
  {
  }

  lemma NoRequests(p: Policy, client: Client)
    ensures Disciplined(p, client, [])
    ensures forall r: Result<nat, Error> :: r.Failure? ==> Ends(r, [], client)
    ensures forall r: Result<nat, Error> :: r != Failure(AttemptsExhausted) ==> GivesUp(p, client, [], r)
  {
  }

  lemma UsableModels(r: Router.Registry, limit: nat, route: seq<Router.Selection>, steps: seq<Router.Selection>)
    requires Router.LongestUsable(r, limit, route, steps)
    ensures |steps| > 0 && forall i :: 0 <= i < |steps| ==>
      steps[i].model in r.models && r.models[steps[i].model].enabled
  {
  }

  lemma Begun(p: Policy, prices: seq<Prices>, client: Client, inputBound: nat, caching: bool)
    requires p.Valid()
    ensures Progress(p, prices, client, inputBound, caching, [], 0, 0) && Steady(p, client, [], 0, 0, 0)
  {
  }

  /** Leaving a step for the next one. */
  lemma Escalated(p: Policy, prices: seq<Prices>, client: Client, inputBound: nat, caching: bool, made: seq<Request>,
      step: nat, here: nat)
    requires Progress(p, prices, client, inputBound, caching, made, step, here)
    ensures Progress(p, prices, client, inputBound, caching, made, step + 1, 0)
  {
  }

  lemma ProgressGives(p: Policy, prices: seq<Prices>, client: Client, inputBound: nat, caching: bool,
      made: seq<Request>, step: nat, here: nat)
    requires Progress(p, prices, client, inputBound, caching, made, step, here)
    ensures |made| <= p.maxRequests && Bounded(p, made) && StepByStep(made, |prices|) && StopsAtOvershoot(made)
    ensures Faithful(prices, client, inputBound, p.maxOutput, caching, made)
    ensures forall i :: 0 <= i < |made| ==> !Overshoots(made[i])
  {
  }

  lemma Recorded(limits: Budgets.Limits, task: Budgets.TaskId, before: seq<Budgets.Usage>, after: seq<Budgets.Usage>,
                 made: seq<Request>, q: Request)
    requires AllAccounted(limits, task, before, made) && |before| == |after| && q.id < |after|
    requires forall i :: 0 <= i < |made| ==> made[i].id < q.id
    requires forall id :: 0 <= id < |before| && id != q.id ==> after[id] == before[id]
    requires Accounted(limits, task, after, q)
    ensures AllAccounted(limits, task, after, made + [q])
  {
    var more := made + [q];
    forall i | 0 <= i < |more| ensures Accounted(limits, task, after, more[i]) {
      if i < |made| {
        assert Accounted(limits, task, before, made[i]);
      }
    }
  }

  /** With caching on and tokens within the admitted bounds no request costs more than it reserved. */
  lemma CachedCallsStayWithin(prices: seq<Prices>, client: Client, inputBound: nat, maxOutput: nat, made: seq<Request>)
    requires Faithful(prices, client, inputBound, maxOutput, true, made)
    requires forall i :: 0 <= i < |prices| ==> prices[i].Valid()
    requires forall n: nat :: client(n).Answer? && client(n).usage.Some? ==>
      Within(client(n).usage.value, inputBound, maxOutput)
    ensures forall n :: 0 <= n < |made| ==> !Overshoots(made[n])
  {
    forall n | 0 <= n < |made| ensures !Overshoots(made[n]) {
      hide EstimateCost;
      var p, reply := prices[made[n].step], client(n);
      CostNonnegative(p, TokenUsage(inputBound, 0, maxOutput, inputBound));
      if reply.Answer? && reply.usage.Some? {
        MaximumBoundsCachedCalls(p, reply.usage.value, inputBound, maxOutput);
      }
    }
  }
}
