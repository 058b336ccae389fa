/**
 Runs of browser effects: one execution at a time per lease, a crash or a lost lease possible between
 any two of its transactions, recovery at any time, adapters that answer anything.
 */
module BrowserRuns {
  import opened Wrappers
  import opened Json
  import opened Submission
  import opened Browser
  import opened QueueRuns
  import opened QueueLaws
  import Queue

  datatype Pc =
    | Confirming(e: Effect)                   // the row says SUCCEEDED: does the page still show it?
    | Reapplying(e: Effect)
    | Probing(e: Effect)                      // the row says EXECUTING or UNKNOWN_RESULT
    | Authorising(e: Effect)
    | Mutating(e: Effect, auth: nat)          // authorised as entry `auth` of the log: call `mutate`
    | Recording(e: Effect, status: ActionStatus)
    | Stopped

  datatype Exec = Exec(lease: Queue.Lease, pc: Pc)

  /** An authorisation: out of which status, and whether its mutation has been called. */
  datatype Auth = Auth(key: Key, approval: ApprovalId, from: ActionStatus, called: bool)

  /** `wins` logs entries into SUCCEEDED, `spent` the approvals that were consumed. */
  datatype World = World(t: Tables, issued: seq<Queue.Lease>, now: int, execs: map<Queue.Token, Exec>,
                         auths: seq<Auth>, calls: seq<Key>, wins: seq<Key>, spent: seq<ApprovalId>)

  const DAWN := World(Tables(Queue.EMPTY, map[], map[], map[]), [], 0, map[], [], [], [], [])

  datatype Event =
    | QueueStep(op: Op)
    | Decide(approval: ApprovalId, row: Approval)
    | WriteFile(path: Json, bytes: Bytes)
    | Begin(lease: Queue.Lease, e: Effect)
    | Proceed(exec: Queue.Token, yes: bool)
    | RecoverActions

  datatype At = At(now: int, event: Event)

  function QueueSys(w: World): Sys {
    Sys(w.t.queue, w.issued, w.now)
  }

  function Goto(w: World, tok: Queue.Token, pc: Pc): World
    requires tok in w.execs
  {
    w.(execs := w.execs[tok := w.execs[tok].(pc := pc)])
  }

  function BeginExec(w: World, l: Queue.Lease, e: Effect): World {
    var r := Admit(w.t, l, e, w.now);
    if r.Failure? then w.(execs := w.execs[l.worker := Exec(l, Stopped)]) else
    w.(t := r.value.0,
       execs := w.execs[l.worker := Exec(l, match r.value.1
                                            case Succeeded => Confirming(e)
                                            case Executing => Probing(e)
                                            case UnknownResult => Probing(e)
                                            case Planned => Authorising(e)
                                            case Failed => Authorising(e))])
  }

  /** One transaction or one adapter call; `yes` is what the adapter answers. */
  function StepExec(w: World, tok: Queue.Token, yes: bool): World
    requires tok in w.execs
  {
    var l := w.execs[tok].lease;
    match w.execs[tok].pc
    case Confirming(e) => Goto(w, tok, if yes then Stopped else Reapplying(e))
    case Reapplying(e) =>
      var r := Reapply(w.t, l, e, w.now);
      if r.Failure? then Goto(w, tok, Stopped) else
      Goto(w.(t := r.value, auths := w.auths + [Auth(e.key, e.approval, w.t.rows[e.key].status, false)]), tok,
           Mutating(e, |w.auths|))
    case Probing(e) => Goto(w, tok, Recording(e, if yes then Succeeded else UnknownResult))
    case Authorising(e) =>
      var r := Authorise(w.t, l, e, w.now);
      if r.Failure? then Goto(w, tok, Stopped) else
      Goto(w.(t := r.value, auths := w.auths + [Auth(e.key, e.approval, Planned, false)],
              spent := w.spent + if w.t.approvals[e.approval].status == Approved then [e.approval] else []), tok,
           Mutating(e, |w.auths|))
    case Mutating(e, n) =>
      if n >= |w.auths| then w else
      Goto(w.(auths := w.auths[n := w.auths[n].(called := true)], calls := w.calls + [e.key]), tok,
           Recording(e, if yes then Succeeded else UnknownResult))
    case Recording(e, status) =>
      var r := Browser.Record(w.t, l, e.key, status, w.now);
      if r.Failure? then Goto(w, tok, Stopped) else
      var won := status == Succeeded && w.t.rows[e.key].status != Succeeded;
      Goto(w.(t := r.value, wins := w.wins + if won then [e.key] else []), tok, Stopped)
    case Stopped => w
  }

  ghost function Happen(c: Queue.Config, w0: World, at: At): World {
    var w := w0.(now := at.now);
    match at.event
    case QueueStep(op) =>
      var sys := Apply(c, QueueSys(w0), Step(at.now, op));
      w.(t := w.t.(queue := sys.store), issued := sys.issued)
    case Decide(a, row) => w.(t := w.t.(approvals := w.t.approvals[a := row]))
    case WriteFile(path, bytes) => w.(t := w.t.(files := w.t.files[path := bytes]))
    case Begin(l, e) => BeginExec(w, l, e)
    case Proceed(tok, yes) => if tok in w.execs then StepExec(w, tok, yes) else w
    case RecoverActions => w.(t := Browser.Recover(w.t))
  }

  /** Elsewhere approvals may be created, decided, expired or revoked, but spending them is for this service. */
  ghost predicate May(w: World, at: At) {
    at.now >= w.now &&
    match at.event
    case QueueStep(op) => LegalOp(QueueSys(w), op, at.now)
    case Decide(a, row) =>
      row.status == Consumed <==> a in w.t.approvals && w.t.approvals[a].status == Consumed
    case Begin(l, _) => l in w.issued && (l.worker in w.execs ==> w.execs[l.worker].pc.Stopped?)
    case _ => true
  }

  /** The states of a run, and the events between them. */
  datatype Run = Run(worlds: seq<World>, events: seq<At>)

  ghost predicate EventAt(c: Queue.Config, r: Run, i: nat) {
    && i < |r.events| && i + 1 < |r.worlds|
    && May(r.worlds[i], r.events[i]) && r.worlds[i + 1] == Happen(c, r.worlds[i], r.events[i])
  }

  ghost predicate IsRun(c: Queue.Config, r: Run) {
    |r.worlds| == |r.events| + 1 && r.worlds[0] == DAWN && forall i :: 0 <= i < |r.events| ==> EventAt(c, r, i)
  }

  // ---------------------------------------------------------------- counting

  function Count(log: seq<Key>, key: Key): nat {
    if |log| == 0 then 0 else Count(log[..|log| - 1], key) + if log[|log| - 1] == key then 1 else 0
  }

  function Granted(auths: seq<Auth>, key: Key): nat {
    if |auths| == 0 then 0 else Granted(auths[..|auths| - 1], key) + if auths[|auths| - 1].key == key then 1 else 0
  }

  function Used(auths: seq<Auth>, key: Key): nat {
    if |auths| == 0 then 0 else
    Used(auths[..|auths| - 1], key) + if auths[|auths| - 1].key == key && auths[|auths| - 1].called then 1 else 0
  }

  lemma CountMore(log: seq<Key>, k: Key)
    ensures forall key :: Count(log + [k], key) == Count(log, key) + if k == key then 1 else 0
  {
    assert (log + [k])[..|log|] == log;
  }

  lemma GrantMore(auths: seq<Auth>, a: Auth)
    requires !a.called
    ensures forall key :: Granted(auths + [a], key) == Granted(auths, key) + if a.key == key then 1 else 0
    ensures forall key :: Used(auths + [a], key) == Used(auths, key)
  {
    assert (auths + [a])[..|auths|] == auths;
  }

  /** Using an authorisation counts one call and grants nothing. */
  lemma {:induction false} UseOne(auths: seq<Auth>, n: nat, key: Key)
    requires n < |auths| && !auths[n].called
    ensures var more := auths[n := auths[n].(called := true)];
      && Granted(more, key) == Granted(auths, key)
      && Used(more, key) == Used(auths, key) + if auths[n].key == key then 1 else 0
  {
    var more, last := auths[n := auths[n].(called := true)], |auths| - 1;
    if n < last {
      UseOne(auths[..last], n, key);
      assert more[..last] == auths[..last][n := auths[n].(called := true)];
    } else {
      assert more[..last] == auths[..last];
    }
  }

  lemma {:induction false} UsedAtMostGranted(auths: seq<Auth>, key: Key)
    ensures Used(auths, key) <= Granted(auths, key)
  {
    if |auths| > 0 {
      UsedAtMostGranted(auths[..|auths| - 1], key);
    }
  }

  // ---------------------------------------------------------------- the invariant

  predicate Undecided(s: ActionStatus) {
    s in {Executing, UnknownResult}
  }

  /** Authorisations and successes alternate: a row is ahead by one exactly while its outcome is open. */
  ghost predicate KeyOk(w: World, key: Key) {
    var granted, won := Granted(w.auths, key), Count(w.wins, key);
    && Count(w.calls, key) == Used(w.auths, key)
    && (key !in w.t.rows ==> granted == 0 && won == 0)
    && (key in w.t.rows ==>
          match w.t.rows[key].status
          case Planned => granted == 0 && won == 0
          case Succeeded => granted == won
          case Executing => granted == won + 1
          case UnknownResult => granted == won + 1
          case Failed => false)
  }

  predicate Fits(pc: Pc, s: ActionStatus) {
    match pc
    case Confirming(_) => s == Succeeded
    case Reapplying(_) => s == Succeeded
    case Probing(_) => Undecided(s)
    case Mutating(_, _) => Undecided(s)
    case Recording(_, status) => Undecided(s) && status in {Succeeded, UnknownResult}
    case _ => true
  }

  ghost predicate ExecOk(w: World, tok: Queue.Token, x: Exec) {
    && x.lease in w.issued && x.lease.worker == tok
    && (!x.pc.Stopped? ==>
          && x.pc.e.key in w.t.rows && w.t.rows[x.pc.e.key].task == x.lease.task
          && (Queue.Owns(w.t.queue, x.lease) ==> Fits(x.pc, w.t.rows[x.pc.e.key].status)))
    && (x.pc.Mutating? ==>
          x.pc.auth < |w.auths| && w.auths[x.pc.auth].key == x.pc.e.key && !w.auths[x.pc.auth].called)
  }

  /** No two executors hold one authorisation. */
  ghost predicate OneHolder(w: World) {
    forall a, b :: a in w.execs && b in w.execs && a != b && w.execs[a].pc.Mutating? && w.execs[b].pc.Mutating?
      ==> w.execs[a].pc.auth != w.execs[b].pc.auth
  }

  ghost predicate SpentOk(approvals: map<ApprovalId, Approval>, spent: seq<ApprovalId>) {
    && (forall i, j :: 0 <= i < j < |spent| ==> spent[i] != spent[j])
    && (forall i :: 0 <= i < |spent| ==> spent[i] in approvals && approvals[spent[i]].status == Consumed)
    && (forall a :: a in approvals && approvals[a].status == Consumed ==> a in spent)
  }

  ghost predicate FromOk(auths: seq<Auth>) {
    forall i :: 0 <= i < |auths| ==> auths[i].from in {Planned, Succeeded}
  }

  ghost predicate Safe(w: World) {
    && Inv(QueueSys(w)) && (forall key :: KeyOk(w, key))
    && (forall tok :: tok in w.execs ==> ExecOk(w, tok, w.execs[tok]))
    && OneHolder(w) && SpentOk(w.t.approvals, w.spent) && FromOk(w.auths)
  }

  // ---------------------------------------------------------------- every event keeps it

  /** Rows keep their task; only the row of `key` may change its status other than by recovery. */
  ghost predicate Calm(w: World, w2: World, key: Option<Key>) {
    && (forall l :: l in w.issued ==> l in w2.issued && (Queue.Owns(w2.t.queue, l) ==> Queue.Owns(w.t.queue, l)))
    && (forall k :: k in w.t.rows ==>
          && k in w2.t.rows && w2.t.rows[k].task == w.t.rows[k].task
          && (Some(k) != key ==>
                w2.t.rows[k].status == w.t.rows[k].status
                || (w.t.rows[k].status == Executing && w2.t.rows[k].status == UnknownResult)))
    && (forall n :: 0 <= n < |w.auths| ==> n < |w2.auths| && w2.auths[n].key == w.auths[n].key)
  }

  /** An executor stays consistent if it does not own the changed row and its authorisation stays unused. */
  lemma CarryExec(w: World, w2: World, key: Option<Key>, tok: Queue.Token, x: Exec)
    requires ExecOk(w, tok, x) && Calm(w, w2, key)
    requires !x.pc.Stopped? && Some(x.pc.e.key) == key ==> !Queue.Owns(w.t.queue, x.lease)
    requires x.pc.Mutating? && x.pc.auth < |w2.auths| ==> w2.auths[x.pc.auth].called == w.auths[x.pc.auth].called
    ensures ExecOk(w2, tok, x)
  {
  }

  /** Two executors that own the same task are the same executor. */
  lemma OneOwner(w: World, a: Queue.Token, b: Queue.Token)
    requires a in w.execs && b in w.execs && ExecOk(w, a, w.execs[a]) && ExecOk(w, b, w.execs[b])
    requires Queue.Owns(w.t.queue, w.execs[a].lease) && Queue.Owns(w.t.queue, w.execs[b].lease)
    requires w.execs[a].lease.task == w.execs[b].lease.task
    ensures a == b
  {
  }

  lemma EnvironmentKeeps(w: World, w2: World)
    requires Safe(w) && Calm(w, w2, None) && Inv(QueueSys(w2))
    requires w2 == w.(t := w2.t, issued := w2.issued, now := w2.now) && w2.t.rows.Keys == w.t.rows.Keys
    requires SpentOk(w2.t.approvals, w.spent)
    ensures Safe(w2)
  {
    hide Good, SpentOk, OneHolder;
    forall key ensures KeyOk(w2, key) {
      assert KeyOk(w, key);
    }
    assert OneHolder(w2) by {
      SameHolders(w, w2);
    }
    hide KeyOk;
    forall tok | tok in w2.execs ensures ExecOk(w2, tok, w2.execs[tok]) {
      CarryExec(w, w2, None, tok, w.execs[tok]);
    }
  }

  lemma SameHolders(w: World, w2: World)
    requires OneHolder(w) && w2.execs == w.execs
    ensures OneHolder(w2)
  {
  }

  /** The step of one executor: it changes at most its own row, its own position and the logs. */
  lemma OthersKeep(w: World, w2: World, tok: Queue.Token, key: Key)
    requires Safe(w) && tok in w.execs && !w.execs[tok].pc.Stopped? && w.execs[tok].pc.e.key == key
    requires Calm(w, w2, Some(key)) && (w2.t.rows == w.t.rows || Queue.Owns(w.t.queue, w.execs[tok].lease))
    requires tok in w2.execs && w2.execs == w.execs[tok := w2.execs[tok]]
    requires |w.auths| <= |w2.auths|
    requires forall n :: 0 <= n < |w.auths| && w2.auths[n] != w.auths[n] ==>
      w.execs[tok].pc.Mutating? && w.execs[tok].pc.auth == n
    ensures forall t :: t in w2.execs && t != tok ==> ExecOk(w2, t, w2.execs[t])
  {
    hide Good, KeyOk, SpentOk, FromOk;
    forall t | t in w2.execs && t != tok ensures ExecOk(w2, t, w2.execs[t]) {
      var x := w.execs[t];
      assert ExecOk(w, t, x) && ExecOk(w, tok, w.execs[tok]);
      if w2.t.rows == w.t.rows {
        CarryExec(w, w2, None, t, x);
      } else {
        if !x.pc.Stopped? && x.pc.e.key == key && Queue.Owns(w.t.queue, x.lease) {
          OneOwner(w, t, tok);
        }
        CarryExec(w, w2, Some(key), t, x);
      }
    }
  }

  lemma AdmitShape(t: Tables, l: Queue.Lease, e: Effect, now: int)
    ensures var r := Admit(t, l, e, now);
      r.Success? ==>
        var rows := r.value.0.rows;
        && Fenced(t.queue, l, now).Success?
        && e.key in rows && rows[e.key].task == l.task && rows[e.key].status == r.value.1
        && r.value.0 == t.(rows := rows)
        && (rows == t.rows || (e.key !in t.rows && r.value.1 == Planned && rows == t.rows[e.key := rows[e.key]]))
  {
    hide Fenced, Permits;
  }

  lemma BeginKeeps(w: World, l: Queue.Lease, e: Effect)
    requires Safe(w) && l in w.issued && (l.worker in w.execs ==> w.execs[l.worker].pc.Stopped?)
    ensures Safe(BeginExec(w, l, e))
  {
    hide Good, SpentOk, FromOk, Admit, Fenced;
    AdmitShape(w.t, l, e, w.now);
    var w2 := BeginExec(w, l, e);
    forall key ensures KeyOk(w2, key) {
      assert KeyOk(w, key);
    }
    assert KeyOk(w, e.key);
    hide KeyOk;
    forall t | t in w2.execs && t != l.worker ensures ExecOk(w2, t, w2.execs[t]) {
      CarryExec(w, w2, None, t, w.execs[t]);
    }
  }

  /** Moving on without touching tables or logs. */
  lemma GotoKeeps(w: World, tok: Queue.Token, pc: Pc)
    requires Safe(w) && tok in w.execs && !pc.Mutating? && ExecOk(w, tok, w.execs[tok].(pc := pc))
    ensures Safe(Goto(w, tok, pc))
  {
    hide Good, SpentOk, FromOk;
    var w2 := Goto(w, tok, pc);
    forall key ensures KeyOk(w2, key) {
      assert KeyOk(w, key);
    }
    hide KeyOk;
    forall t | t in w2.execs && t != tok ensures ExecOk(w2, t, w2.execs[t]) {
      CarryExec(w, w2, None, t, w.execs[t]);
    }
  }

  lemma StopKeeps(w: World, tok: Queue.Token)
    requires Safe(w) && tok in w.execs
    ensures Safe(Goto(w, tok, Stopped))
  {
    hide Good, KeyOk, SpentOk, FromOk;
    assert ExecOk(w, tok, w.execs[tok]);
    GotoKeeps(w, tok, Stopped);
  }

  /** One more authorisation for a row that is planned or confirmed. */
  lemma GrantKeeps(w: World, w2: World, tok: Queue.Token, e: Effect, from: ActionStatus)
    requires Safe(w) && tok in w.execs && !w.execs[tok].pc.Stopped? && w.execs[tok].pc.e == e
    requires Queue.Owns(w.t.queue, w.execs[tok].lease)
    requires e.key in w.t.rows && w.t.rows[e.key].status == from && from in {Planned, Succeeded}
    requires w2 == Goto(w.(t := w2.t, auths := w.auths + [Auth(e.key, e.approval, from, false)], spent := w2.spent),
                        tok, Mutating(e, |w.auths|))
    requires w2.t.queue == w.t.queue && w2.t.rows == w.t.rows[e.key := w.t.rows[e.key].(status := Executing)]
    requires SpentOk(w2.t.approvals, w2.spent)
    ensures Safe(w2)
  {
    hide Good, SpentOk;
    assert ExecOk(w, tok, w.execs[tok]);
    GrantMore(w.auths, Auth(e.key, e.approval, from, false));
    forall key ensures KeyOk(w2, key) {
      assert KeyOk(w, key);
    }
    hide KeyOk;
    forall t | t in w.execs && w.execs[t].pc.Mutating? ensures w.execs[t].pc.auth < |w.auths| {
      assert ExecOk(w, t, w.execs[t]);
    }
    OthersKeep(w, w2, tok, e.key);
  }

  lemma ReapplyingKeeps(w: World, tok: Queue.Token, yes: bool)
    requires Safe(w) && tok in w.execs && w.execs[tok].pc.Reapplying?
    ensures Safe(StepExec(w, tok, yes))
  {
    hide Good, KeyOk, SpentOk, FromOk, Fenced, Permits;
    assert ExecOk(w, tok, w.execs[tok]);
    var x := w.execs[tok];
    var r := Reapply(w.t, x.lease, x.pc.e, w.now);
    if r.Failure? {
      StopKeeps(w, tok);
    } else {
      FenceOwns(w.t.queue, x.lease, w.now);
      GrantKeeps(w, StepExec(w, tok, yes), tok, x.pc.e, Succeeded);
    }
  }

  lemma FenceOwns(q: Queue.Store, l: Queue.Lease, now: int)
    requires Fenced(q, l, now).Success?
    ensures Queue.Owns(q, l)
  {
  }

  lemma SpendKeeps(approvals: map<ApprovalId, Approval>, spent: seq<ApprovalId>, a: ApprovalId)
    requires SpentOk(approvals, spent) && a in approvals && approvals[a].status in {Approved, Consumed}
    ensures SpentOk(approvals[a := approvals[a].(status := Consumed)],
                    spent + if approvals[a].status == Approved then [a] else [])
  {
    var more := spent + if approvals[a].status == Approved then [a] else [];
    if approvals[a].status == Approved {
      assert more[|spent|] == a;
      assert a !in spent;
    }
    assert forall b :: b in spent ==> b in more;
  }

  lemma AuthorisingKeeps(w: World, tok: Queue.Token, yes: bool)
    requires Safe(w) && tok in w.execs && w.execs[tok].pc.Authorising?
    ensures Safe(StepExec(w, tok, yes))
  {
    hide Good, KeyOk, SpentOk, FromOk, Fenced;
    var x := w.execs[tok];
    var r := Authorise(w.t, x.lease, x.pc.e, w.now);
    if r.Failure? {
      StopKeeps(w, tok);
    } else {
      FenceOwns(w.t.queue, x.lease, w.now);
      SpendKeeps(w.t.approvals, w.spent, x.pc.e.approval);
      GrantKeeps(w, StepExec(w, tok, yes), tok, x.pc.e, Planned);
    }
  }

  lemma MutatingKeeps(w: World, tok: Queue.Token, yes: bool)
    requires Safe(w) && tok in w.execs && w.execs[tok].pc.Mutating?
    ensures Safe(StepExec(w, tok, yes))
  {
    hide Good, SpentOk;
    assert ExecOk(w, tok, w.execs[tok]);
    var w2, e, n := StepExec(w, tok, yes), w.execs[tok].pc.e, w.execs[tok].pc.auth;
    CountMore(w.calls, e.key);
    forall key ensures KeyOk(w2, key) {
      UseOne(w.auths, n, key);
      assert KeyOk(w, key);
    }
    hide KeyOk;
    OthersKeep(w, w2, tok, e.key);
  }

  lemma RecordingKeeps(w: World, tok: Queue.Token, yes: bool)
    requires Safe(w) && tok in w.execs && w.execs[tok].pc.Recording?
    ensures Safe(StepExec(w, tok, yes))
  {
    hide Good, SpentOk, Fenced, FromOk;
    assert ExecOk(w, tok, w.execs[tok]);
    var x := w.execs[tok];
    var r := Browser.Record(w.t, x.lease, x.pc.e.key, x.pc.status, w.now);
    if r.Failure? {
      StopKeeps(w, tok);
    } else {
      FenceOwns(w.t.queue, x.lease, w.now);
      var w2 := StepExec(w, tok, yes);
      CountMore(w.wins, x.pc.e.key);
      assert KeyOk(w, x.pc.e.key) && Fits(x.pc, w.t.rows[x.pc.e.key].status);
      assert w2.t.rows == w.t.rows[x.pc.e.key := w.t.rows[x.pc.e.key].(status := x.pc.status)];
      assert w2.wins == if x.pc.status == Succeeded then w.wins + [x.pc.e.key] else w.wins;
      forall key ensures KeyOk(w2, key) {
        assert KeyOk(w, key);
      }
      hide KeyOk;
      OthersKeep(w, w2, tok, x.pc.e.key);
    }
  }

  lemma AskingKeeps(w: World, tok: Queue.Token, yes: bool)
    requires Safe(w) && tok in w.execs && (w.execs[tok].pc.Confirming? || w.execs[tok].pc.Probing?)
    ensures Safe(StepExec(w, tok, yes))
  {
    hide Good, KeyOk, SpentOk, FromOk;
    assert ExecOk(w, tok, w.execs[tok]);
    match w.execs[tok].pc {
      case Confirming(e) => GotoKeeps(w, tok, if yes then Stopped else Reapplying(e));
      case Probing(e) => GotoKeeps(w, tok, Recording(e, if yes then Succeeded else UnknownResult));
    }
  }

  lemma HappenKeeps(c: Queue.Config, w0: World, at: At)
    requires Safe(w0) && May(w0, at)
    ensures Safe(Happen(c, w0, at))
  {
    hide Good, KeyOk, OneHolder, FromOk, Apply, LegalOp, StepExec, BeginExec, ExecOk, Queue.Owns, Queue.Passes;
    var w := w0.(now := at.now);
    EnvironmentKeeps(w0, w);
    match at.event {
      case QueueStep(op) =>
        ApplyKeeps(c, QueueSys(w0), Step(at.now, op));
        ApplyTame(c, QueueSys(w0), Step(at.now, op));
        EnvironmentKeeps(w0, Happen(c, w0, at));
      case Begin(l, e) => BeginKeeps(w, l, e);
      case Proceed(tok, yes) =>
        if tok in w.execs {
          StepKeeps(w, tok, yes);
        }
      case _ => EnvironmentKeeps(w, Happen(c, w0, at));
    }
  }

  lemma StepKeeps(w: World, tok: Queue.Token, yes: bool)
    requires Safe(w) && tok in w.execs
    ensures Safe(StepExec(w, tok, yes))
  {
    hide Safe;
    match w.execs[tok].pc {
      case Confirming(_) => AskingKeeps(w, tok, yes);
      case Probing(_) => AskingKeeps(w, tok, yes);
      case Reapplying(_) => ReapplyingKeeps(w, tok, yes);
      case Authorising(_) => AuthorisingKeeps(w, tok, yes);
      case Mutating(_, _) => MutatingKeeps(w, tok, yes);
      case Recording(_, _) => RecordingKeeps(w, tok, yes);
      case Stopped =>
    }
  }

  // ---------------------------------------------------------------- the laws of browser effects

  lemma {:induction false} RunSafe(c: Queue.Config, r: Run, n: nat)
    requires IsRun(c, r) && n <= |r.events|
    ensures Safe(r.worlds[n])
  {
    hide May, Happen;
    if n > 0 {
      RunSafe(c, r, n - 1);
      assert EventAt(c, r, n - 1);
      hide Safe;
      HappenKeeps(c, r.worlds[n - 1], r.events[n - 1]);
    }
  }

  /** Over any run an effect is applied at most once more often than it was confirmed. */
  lemma MutationsAreBounded(c: Queue.Config, r: Run, n: nat, key: Key)
    requires IsRun(c, r) && n <= |r.events|
    ensures var w := r.worlds[n];
      Count(w.calls, key) <= Granted(w.auths, key) <= Count(w.wins, key) + 1
  {
    RunSafe(c, r, n);
    var w := r.worlds[n];
    assert KeyOk(w, key);
    UsedAtMostGranted(w.auths, key);
  }

  /** No effect is ever authorised while its outcome is open, and no approval is spent twice. */
  lemma NeverAuthorisedUndecided(c: Queue.Config, r: Run, n: nat)
    requires IsRun(c, r) && n <= |r.events|
    ensures var w := r.worlds[n];
      && (forall i :: 0 <= i < |w.auths| ==> w.auths[i].from in {Planned, Succeeded})
      && (forall i, j :: 0 <= i < j < |w.spent| ==> w.spent[i] != w.spent[j])
      && (forall a :: a in w.t.approvals && w.t.approvals[a].status == Consumed <==> a in w.spent)
  {
    hide KeyOk, Inv, ExecOk, OneHolder;
    RunSafe(c, r, n);
  }

  ghost predicate Sanctioned(w: World, w2: World, tok: Queue.Token) {
    tok in w.execs && !w.execs[tok].pc.Stopped? &&
    var x := w.execs[tok];
    && Fenced(w.t.queue, x.lease, w.now).Success? && Permits(w.t, x.lease, x.pc.e, w.now)
    && |w2.auths| == |w.auths| + 1 && w2.auths[|w.auths|].key == x.pc.e.key
      && w2.auths[|w.auths|].approval == x.pc.e.approval
    && x.pc.e.approval in w2.t.approvals
    && (w2.auths[|w.auths|].from == Planned ==> w2.t.approvals[x.pc.e.approval].status == Consumed)
  }

  lemma StepIsSanctioned(c: Queue.Config, w0: World, at: At)
    requires Safe(w0) && May(w0, at)
    ensures var w, w2 := w0.(now := at.now), Happen(c, w0, at);
      |w2.auths| == |w.auths| || exists tok :: Sanctioned(w, w2, tok)
  {
    hide Safe, Apply, Fenced, Permits, Admit, Refusal;
    var w, w2 := w0.(now := at.now), Happen(c, w0, at);
    if at.event.Proceed? && at.event.exec in w.execs && |w2.auths| != |w.auths| {
      var tok := at.event.exec;
      var pc := w.execs[tok].pc;
      if pc.Reapplying? {
        OnlyClock(w0, at.now);
        Reapplied(w, tok, at.event.yes);
      } else if pc.Authorising? {
        assert Sanctioned(w, w2, tok);
      }
    }
  }

  /** Every authorisation happens under an unexpired approval of this very plan, in the same transaction. */
  lemma AuthorisationsAreSanctioned(c: Queue.Config, r: Run, n: nat)
    requires IsRun(c, r) && n < |r.events|
    ensures var w, w2 := r.worlds[n].(now := r.events[n].now), r.worlds[n + 1];
      |w2.auths| == |w.auths| || exists tok :: Sanctioned(w, w2, tok)
  {
    hide Safe, Happen, May, Sanctioned;
    RunSafe(c, r, n);
    assert EventAt(c, r, n);
    StepIsSanctioned(c, r.worlds[n], r.events[n]);
  }

  lemma OnlyClock(w: World, now: int)
    requires Safe(w)
    ensures Safe(w.(now := now))
  {
    hide KeyOk, OneHolder, FromOk, ExecOk, Good;
    EnvironmentKeeps(w, w.(now := now));
  }

  lemma Reapplied(w: World, tok: Queue.Token, yes: bool)
    requires Safe(w) && tok in w.execs && w.execs[tok].pc.Reapplying?
    requires Reapply(w.t, w.execs[tok].lease, w.execs[tok].pc.e, w.now).Success?
    ensures exists t :: Sanctioned(w, StepExec(w, tok, yes), t)
  {
    hide Fenced, KeyOk, OneHolder, FromOk, Good, SpentOk;
    assert ExecOk(w, tok, w.execs[tok]);
    FenceOwns(w.t.queue, w.execs[tok].lease, w.now);
    assert Sanctioned(w, StepExec(w, tok, yes), tok);
  }
}
