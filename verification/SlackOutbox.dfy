/**
 The Slack outbox: notifications are planned once per deduplication key, taken by one deliverer under
 an owner token, posted without a transaction, and finished only by a deliverer that still owns them.
 */
module SlackOutbox {
  import opened Wrappers
  import opened Json
  import opened Submission

  type Key = string
  type Owner = nat

  datatype Message = Message(channel: string, task: nat, body: Json)

  function Digest(m: Message): Json {
    Hash(Canonical(Obj(map["channel" := Str(m.channel), "task" := Id(m.task), "body" := m.body])))
  }

  /** A row of the ledger; `expiresAt` means something only while it is EXECUTING. */
  datatype Row = Row(id: nat, createdAt: int, sha: Json, message: Message, status: ActionStatus,
                     owner: Option<Owner>, expiresAt: int, receipt: Option<string>)

  datatype Error = ChannelNotAllowed | DedupeConflict | Mismatch | HashMismatch

  /** What the adapter's `post` ends in. */
  datatype Outcome = Posted(channel: string, ts: string) | Refused(unknown: bool) | Crashed

  type Rows = map<Key, Row>

  /** `plan`; `correlated` says whether the message's task and approval are as the message claims. */
  function Plan(rows: Rows, allowed: set<string>, key: Key, m: Message, correlated: bool, id: nat,
      now: int): Result<Rows, Error> {
    if m.channel !in allowed then Failure(ChannelNotAllowed)
    else if key in rows then
      if rows[key].sha == Digest(m) then Success(rows) else Failure(DedupeConflict)
    else if !correlated then Failure(Mismatch)
    else Success(rows[key := Row(id, now / 1000, Digest(m), m, Planned, None, 0, None)])
  }

  /** The oldest planned row, ties broken by id. */
  ghost predicate Oldest(rows: Rows, key: Key) {
    && key in rows && rows[key].status == Planned
    && forall o :: o in rows && rows[o].status == Planned ==>
         rows[key].createdAt < rows[o].createdAt
           || (rows[key].createdAt == rows[o].createdAt && rows[key].id <= rows[o].id)
  }

  /** The first transaction of `deliver_one`. */
  function Take(rows: Rows, allowed: set<string>, key: Key, owner: Owner, now: int): Result<Rows, Error>
    requires key in rows
  {
    var row := rows[key];
    if Digest(row.message) != row.sha then Failure(HashMismatch)
    else if row.message.channel !in allowed then Failure(ChannelNotAllowed)
    else Success(rows[key := row.(status := Executing, owner := Some(owner), expiresAt := (now + 60_000_000) / 1000)])
  }

  /** The last transaction of `deliver_one`; a row that is no longer this owner's is left alone. */
  function Finish(rows: Rows, key: Key, owner: Owner, outcome: Outcome): Rows
    requires key in rows
  {
    var row := rows[key];
    if row.status != Executing || row.owner != Some(owner) then rows else
    rows[key := match outcome
                case Posted(channel, ts) =>
                  if channel != row.message.channel then row.(status := UnknownResult)
                  else row.(status := Succeeded, receipt := Some(ts))
                case Refused(unknown) => row.(status := if unknown then UnknownResult else Failed)
                case Crashed => row.(status := UnknownResult)]
  }

  predicate Abandoned(row: Row, now: int) {
    row.status == Executing && row.expiresAt <= now / 1000
  }

  function Recover(rows: Rows, now: int): Rows {
    map k | k in rows :: if Abandoned(rows[k], now) then rows[k].(status := UnknownResult) else rows[k]
  }

  // ---------------------------------------------------------------- runs

  datatype Pc = Posting | Finishing(outcome: Outcome) | Done

  datatype Deliverer = Deliverer(key: Key, pc: Pc)

  datatype World = World(rows: Rows, allowed: set<string>, deliverers: map<Owner, Deliverer>, calls: seq<Key>)

  datatype Event =
    | PlanMessage(key: Key, m: Message, correlated: bool, id: nat)
    | TakeOldest(key: Key, owner: Owner)
    | Post(owner: Owner, outcome: Outcome)
    | FinishOne(owner: Owner)
    | RecoverRows
    | Reconfigure(allowed: set<string>)

  datatype At = At(now: int, event: Event)

  function Happen(w: World, at: At): World {
    match at.event
    case PlanMessage(key, m, correlated, id) =>
      var r := Plan(w.rows, w.allowed, key, m, correlated, id, at.now);
      if r.Success? then w.(rows := r.value) else w
    case TakeOldest(key, owner) =>
      if key !in w.rows then w else
      var r := Take(w.rows, w.allowed, key, owner, at.now);
      if r.Failure? then w else
      w.(rows := r.value, deliverers := w.deliverers[owner := Deliverer(key, Posting)])
    case Post(owner, outcome) =>
      if owner in w.deliverers && w.deliverers[owner].pc.Posting? then
        w.(calls := w.calls + [w.deliverers[owner].key],
           deliverers := w.deliverers[owner := Deliverer(w.deliverers[owner].key, Finishing(outcome))])
      else w
    case FinishOne(owner) =>
      if owner in w.deliverers && w.deliverers[owner].pc.Finishing? && w.deliverers[owner].key in w.rows then
        var d := w.deliverers[owner];
        w.(rows := Finish(w.rows, d.key, owner, d.pc.outcome),
          deliverers := w.deliverers[owner := Deliverer(d.key, Done)])
      else w
    case RecoverRows => w.(rows := Recover(w.rows, at.now))
    case Reconfigure(allowed) => w.(allowed := allowed)
  }

  /** Owner tokens are fresh; the query takes the oldest planned row.  The clock may do anything. */
  ghost predicate May(w: World, at: At) {
    at.event.TakeOldest? ==> Oldest(w.rows, at.event.key) && at.event.owner !in w.deliverers
  }

  const DAWN := World(map[], {}, map[], [])

  /** The states of a run, and the events between them. */
  datatype Run = Run(worlds: seq<World>, events: seq<At>)

  ghost predicate EventAt(r: Run, i: nat) {
    && i < |r.events| && i + 1 < |r.worlds|
    && May(r.worlds[i], r.events[i]) && r.worlds[i + 1] == Happen(r.worlds[i], r.events[i])
  }

  ghost predicate IsRun(r: Run) {
    |r.worlds| == |r.events| + 1 && r.worlds[0] == DAWN && forall i :: 0 <= i < |r.events| ==> EventAt(r, i)
  }

  predicate RowOk(w: World, key: Key)
    requires key in w.rows
  {
    var row := w.rows[key];
    && row.sha == Digest(row.message)
    && (row.owner.None? <==> row.status == Planned)
    && (row.owner.Some? ==> row.owner.value in w.deliverers && w.deliverers[row.owner.value].key == key)
    && (row.status == Succeeded ==> row.receipt.Some? && key in w.calls)
  }

  predicate DelivererOk(w: World, o: Owner)
    requires o in w.deliverers
  {
    var d := w.deliverers[o];
    d.key in w.rows && w.rows[d.key].owner == Some(o) && (d.pc.Posting? <==> d.key !in w.calls)
  }

  ghost predicate CallsOk(rows: Rows, calls: seq<Key>) {
    && (forall key :: key in calls ==> key in rows && rows[key].owner.Some?)
    && (forall i, j :: 0 <= i < j < |calls| ==> calls[i] != calls[j])
  }

  ghost predicate Safe(w: World) {
    && (forall key :: key in w.rows ==> RowOk(w, key))
    && (forall o :: o in w.deliverers ==> DelivererOk(w, o))
    && CallsOk(w.rows, w.calls)
  }

  predicate Final(s: ActionStatus) {
    s in {Succeeded, Failed, UnknownResult}
  }

  /** What one event does to the rows: a final row never changes, and an owner is set once. */
  ghost predicate RowsAge(w: World, w2: World) {
    forall key :: key in w.rows ==>
      && key in w2.rows && (Final(w.rows[key].status) ==> w2.rows[key] == w.rows[key])
      && (w.rows[key].owner.Some? ==> w2.rows[key].owner == w.rows[key].owner)
  }

  lemma HappenKeeps(w: World, at: At)
    requires Safe(w) && May(w, at)
    ensures Safe(Happen(w, at)) && RowsAge(w, Happen(w, at))
  {
    hide Safe, Happen, RowsAge;
    match at.event {
      case PlanMessage(_, _, _, _) => PlanKeeps(w, at);
      case TakeOldest(_, _) => TakeKeeps(w, at);
      case Post(_, _) => PostKeeps(w, at);
      case FinishOne(_) => FinishKeeps(w, at);
      case _ => RestKeeps(w, at);
    }
  }

  lemma RestKeeps(w: World, at: At)
    requires Safe(w) && (at.event.RecoverRows? || at.event.Reconfigure?)
    ensures Safe(Happen(w, at)) && RowsAge(w, Happen(w, at))
  {
    hide Digest;
    var w2 := Happen(w, at);
    forall k | k in w2.rows ensures RowOk(w2, k) {
      assert RowOk(w, k);
    }
    forall p | p in w2.deliverers ensures DelivererOk(w2, p) {
      assert DelivererOk(w, p);
    }
  }

  lemma PlanKeeps(w: World, at: At)
    requires Safe(w) && at.event.PlanMessage?
    ensures Safe(Happen(w, at)) && RowsAge(w, Happen(w, at))
  {
    hide Digest;
    var w2 := Happen(w, at);
    forall k | k in w2.rows ensures RowOk(w2, k) {
      assert k in w.rows ==> RowOk(w, k);
    }
    forall o | o in w2.deliverers ensures DelivererOk(w2, o) {
      assert DelivererOk(w, o);
    }
  }

  lemma TakeKeeps(w: World, at: At)
    requires Safe(w) && May(w, at) && at.event.TakeOldest?
    ensures Safe(Happen(w, at)) && RowsAge(w, Happen(w, at))
  {
    hide Digest;
    var w2, key := Happen(w, at), at.event.key;
    assert RowOk(w, key) && key !in w.calls;
    forall k | k in w2.rows ensures RowOk(w2, k) {
      assert RowOk(w, k);
    }
    forall o | o in w2.deliverers ensures DelivererOk(w2, o) {
      assert o in w.deliverers ==> DelivererOk(w, o);
    }
  }

  lemma PostKeeps(w: World, at: At)
    requires Safe(w) && at.event.Post?
    ensures Safe(Happen(w, at)) && RowsAge(w, Happen(w, at))
  {
    hide Digest;
    var w2, o := Happen(w, at), at.event.owner;
    if w2 != w {
      var key := w.deliverers[o].key;
      assert DelivererOk(w, o);
      assert forall k :: k in w2.calls <==> k in w.calls || k == key;
      forall k | k in w2.rows ensures RowOk(w2, k) {
        assert RowOk(w, k);
      }
      forall p | p in w2.deliverers ensures DelivererOk(w2, p) {
        assert DelivererOk(w, p);
      }
    }
  }

  lemma FinishKeeps(w: World, at: At)
    requires Safe(w) && at.event.FinishOne?
    ensures Safe(Happen(w, at)) && RowsAge(w, Happen(w, at))
  {
    hide Digest;
    var w2, o := Happen(w, at), at.event.owner;
    if w2 != w {
      assert DelivererOk(w, o);
      forall k | k in w2.rows ensures RowOk(w2, k) {
        assert RowOk(w, k);
      }
      forall p | p in w2.deliverers ensures DelivererOk(w2, p) {
        assert DelivererOk(w, p);
      }
    }
  }

  lemma {:induction false} RunSafe(r: Run, n: nat)
    requires IsRun(r) && n <= |r.events|
    ensures Safe(r.worlds[n])
  {
    hide May, Happen;
    if n > 0 {
      RunSafe(r, n - 1);
      assert EventAt(r, n - 1);
      hide Safe;
      HappenKeeps(r.worlds[n - 1], r.events[n - 1]);
    }
  }

  /** Over any run each notification is posted at most once, and a confirmed one was posted. */
  lemma PostedAtMostOnce(r: Run, n: nat)
    requires IsRun(r) && n <= |r.events|
    ensures var w := r.worlds[n];
      && (forall i, j :: 0 <= i < j < |w.calls| ==> w.calls[i] != w.calls[j])
      && (forall key :: key in w.rows && w.rows[key].status == Succeeded ==> key in w.calls)
      && (forall key :: key in w.rows && w.rows[key].status == Planned ==> key !in w.calls)
  {
    RunSafe(r, n);
    var w := r.worlds[n];
    forall key | key in w.rows ensures RowOk(w, key) {
    }
  }

  /** An unknown, failed or confirmed notification stays as it is for ever: it is not sent again. */
  lemma {:induction false} OutcomesAreFinal(r: Run, m: nat, n: nat, key: Key)
    requires IsRun(r) && m <= n <= |r.events| && key in r.worlds[m].rows && Final(r.worlds[m].rows[key].status)
    ensures key in r.worlds[n].rows && r.worlds[n].rows[key] == r.worlds[m].rows[key]
  {
    if m < n {
      OutcomesAreFinal(r, m, n - 1, key);
      RunSafe(r, n - 1);
      assert EventAt(r, n - 1);
      hide Safe, May, Happen;
      HappenKeeps(r.worlds[n - 1], r.events[n - 1]);
    }
  }

  /** A deliverer that comes back after recovery took its row changes nothing. */
  lemma LateFinisherChangesNothing(w: World, owner: Owner, outcome: Outcome, now: int)
    requires Safe(w) && owner in w.deliverers && Abandoned(w.rows[w.deliverers[owner].key], now)
    ensures var rows := Recover(w.rows, now); Finish(rows, w.deliverers[owner].key, owner, outcome) == rows
  {
  }

  /** A replayed plan with the same message returns the earlier row, another message is refused. */
  lemma PlanIsIdempotent(rows: Rows, allowed: set<string>, key: Key, m: Message, m2: Message, id: nat, id2: nat,
      now: int, later: int)
    requires Plan(rows, allowed, key, m, true, id, now).Success? && m2.channel in allowed
    ensures var once := Plan(rows, allowed, key, m, true, id, now).value;
      Plan(once, allowed, key, m2, true, id2, later) == if m2 == m then Success(once) else Failure(DedupeConflict)
  {
    if Digest(m) == Digest(m2) {
      DigestInjective(m, m2);
    }
  }

  lemma DigestInjective(m: Message, n: Message)
    requires Digest(m) == Digest(n)
    ensures m == n
  {
    var a := map["channel" := Str(m.channel), "task" := Id(m.task), "body" := m.body];
    var b := map["channel" := Str(n.channel), "task" := Id(n.task), "body" := n.body];
    assert a == b;
    assert a["channel"] == b["channel"] && a["task"] == b["task"] && a["body"] == b["body"];
  }
}
