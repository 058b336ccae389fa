/**
 Checkpoints live in a second database.  The saver holds the main database's writer reservation, and
 so the lease fence, while the second database commits; the two commits are not one transaction.
 */
module Checkpoints {
  import opened Wrappers
  import opened Json
  import opened Queue
  import opened QueueRuns
  import opened QueueLaws

  datatype Write = Write(lease: Lease, body: Json)

  /** Who holds the writer reservation for a checkpoint, if anyone. */
  datatype Fence = Free | Held(lease: Lease)

  datatype World = World(sys: Sys, writes: seq<Write>, fence: Fence)

  /** `Leave` also stands for a crash of the holder: the reservation goes, the saved write stays. */
  datatype Move =
    | QueueMove(step: Step)
    | Tick(now: int)
    | Enter(lease: Lease, thread: TaskId)
    | Commit(body: Json)
    | Leave

  ghost function Advance(c: Config, w: World, m: Move): World {
    match m
    case QueueMove(step) => w.(sys := Apply(c, w.sys, step))
    case Tick(now) => w.(sys := w.sys.(now := now))
    case Enter(l, thread) =>
      if thread == l.task && Passes(w.sys.store, l, w.sys.now) then w.(fence := Held(l)) else w
    case Commit(body) => if w.fence.Held? then w.(writes := w.writes + [Write(w.fence.lease, body)]) else w
    case Leave => w.(fence := Free)
  }

  /** The fence is taken exactly for the lease's own thread while the lease passes; only a holder's write is saved. */
  lemma FenceIsTakenIff(c: Config, w: World, l: Lease, thread: TaskId, body: Json)
    requires w.fence.Free?
    ensures Advance(c, w, Enter(l, thread))
         == if thread == l.task && Passes(w.sys.store, l, w.sys.now) then w.(fence := Held(l)) else w
    ensures Advance(c, w, Commit(body)) == w && Advance(c, w, Leave) == w
    ensures var w2 := w.(fence := Held(l));
      && Advance(c, w2, Commit(body)) == w2.(writes := w.writes + [Write(l, body)])
      && Advance(c, w2, Leave) == w
  {
  }

  /** SQLite has one writer: queue transactions and other fences wait while a fence is held. */
  ghost predicate Allowed(w: World, m: Move) {
    match m
    case QueueMove(step) => w.fence.Free? && Legal(w.sys, step)
    case Tick(now) => now >= w.sys.now
    case Enter(l, _) => w.fence.Free? && l in w.sys.issued
    case Commit(_) => w.fence.Held?
    case Leave => w.fence.Held?
  }

  const OPENING := World(START, [], Free)

  /** The states of both databases, and the moves between them. */
  datatype Run = Run(worlds: seq<World>, moves: seq<Move>)

  ghost predicate MoveAt(c: Config, r: Run, i: nat) {
    && i < |r.moves| && i + 1 < |r.worlds|
    && Allowed(r.worlds[i], r.moves[i]) && r.worlds[i + 1] == Advance(c, r.worlds[i], r.moves[i])
  }

  ghost predicate IsRun(c: Config, r: Run) {
    |r.worlds| == |r.moves| + 1 && r.worlds[0] == OPENING && forall i :: 0 <= i < |r.moves| ==> MoveAt(c, r, i)
  }

  /** Saved writes of one task come in the order in which their leases were claimed. */
  ghost predicate Ordered(issued: seq<Lease>, writes: seq<Write>) {
    forall i, j, a, b :: 0 <= i <= j < |writes| && 0 <= a < |issued| && 0 <= b < |issued|
      && writes[i].lease == issued[a] && writes[j].lease == issued[b] && issued[a].task == issued[b].task
      ==> a <= b
  }

  ghost predicate Sound(w: World) {
    && Inv(w.sys)
    && (w.fence.Held? ==> w.fence.lease in w.sys.issued && Owns(w.sys.store, w.fence.lease))
    && (forall i :: 0 <= i < |w.writes| ==> w.writes[i].lease in w.sys.issued)
    && Ordered(w.sys.issued, w.writes)
  }

  /** The holder is the task's latest claim, so its write may only follow writes of earlier claims. */
  lemma CommitKeepsOrder(w: World, body: Json)
    requires Sound(w) && w.fence.Held?
    ensures Ordered(w.sys.issued, w.writes + [Write(w.fence.lease, body)])
  {
    var l, issued := w.fence.lease, w.sys.issued;
    OwnerIsLatest(w.sys, l);
    var k :| LatestClaim(issued, l.task, k) && issued[k] == l;
    var more := w.writes + [Write(l, body)];
    forall i, j, a, b | 0 <= i <= j < |more| && 0 <= a < |issued| && 0 <= b < |issued|
      && more[i].lease == issued[a] && more[j].lease == issued[b] && issued[a].task == issued[b].task
      ensures a <= b
    {
      if j == |w.writes| {
        assert b == k by {
          assert !(b < k) && !(k < b);
        }
      }
    }
  }

  /** Claims only append to the list of leases, so the order of old writes is not disturbed. */
  lemma QueueKeepsOrder(c: Config, w: World, step: Step)
    requires Sound(w) && Legal(w.sys, step)
    ensures Ordered(Apply(c, w.sys, step).issued, w.writes)
  {
    hide Good, Apply, TokensOk;
    ApplyKeeps(c, w.sys, step);
    var s, s2 := w.sys, Apply(c, w.sys, step);
    IssuedGrows(c, s, step);
    TokensUnique(s2);
    StillOrdered(s.issued, s2.issued, w.writes);
  }

  lemma IssuedGrows(c: Config, s: Sys, step: Step)
    ensures s.issued <= Apply(c, s, step).issued
  {
  }

  lemma TokensUnique(s: Sys)
    requires Inv(s)
    ensures forall i, j :: 0 <= i < j < |s.issued| ==> s.issued[i].worker != s.issued[j].worker
  {
  }

  lemma StillOrdered(issued: seq<Lease>, more: seq<Lease>, writes: seq<Write>)
    requires issued <= more && Ordered(issued, writes)
    requires forall i :: 0 <= i < |writes| ==> writes[i].lease in issued
    requires forall i, j :: 0 <= i < j < |more| ==> more[i].worker != more[j].worker
    ensures Ordered(more, writes)
  {
    forall i, j, a, b | 0 <= i <= j < |writes| && 0 <= a < |more| && 0 <= b < |more|
      && writes[i].lease == more[a] && writes[j].lease == more[b] && more[a].task == more[b].task
      ensures a <= b
    {
      OldIndex(issued, more, writes[i].lease, a);
      OldIndex(issued, more, writes[j].lease, b);
    }
  }

  lemma OldIndex(issued: seq<Lease>, more: seq<Lease>, l: Lease, a: nat)
    requires issued <= more && l in issued && a < |more| && more[a] == l
    requires forall i, j :: 0 <= i < j < |more| ==> more[i].worker != more[j].worker
    ensures a < |issued| && issued[a] == l
  {
    var k :| 0 <= k < |issued| && issued[k] == l;
    assert more[k] == l;
    assert !(k < a) && !(a < k);
  }

  lemma AdvanceKeeps(c: Config, w: World, m: Move)
    requires Sound(w) && Allowed(w, m)
    ensures Sound(Advance(c, w, m))
  {
    match m {
      case QueueMove(step) =>
        ApplyKeeps(c, w.sys, step);
        ApplyTame(c, w.sys, step);
        QueueKeepsOrder(c, w, step);
      case Commit(body) => CommitKeepsOrder(w, body);
      case _ =>
    }
  }

  lemma {:induction false} RunKeeps(c: Config, r: Run, n: nat)
    requires IsRun(c, r) && n <= |r.moves|
    ensures Sound(r.worlds[n])
  {
    if n > 0 {
      RunKeeps(c, r, n - 1);
      assert MoveAt(c, r, n - 1);
      AdvanceKeeps(c, r.worlds[n - 1], r.moves[n - 1]);
    }
  }

  // ---------------------------------------------------------------- the fencing laws

  /** In every run the writes of a task are ordered by claim, expiries and crashes included. */
  lemma WritesFollowClaims(c: Config, r: Run, n: nat, i: nat, j: nat, a: nat, b: nat)
    requires IsRun(c, r) && n <= |r.moves|
    requires var w := r.worlds[n];
      && i <= j < |w.writes| && a < |w.sys.issued| && b < |w.sys.issued|
      && w.writes[i].lease == w.sys.issued[a] && w.writes[j].lease == w.sys.issued[b]
      && w.sys.issued[a].task == w.sys.issued[b].task
    ensures a <= b
  {
    RunKeeps(c, r, n);
  }

  /** While a fence is held nobody can take the task over, however far the clock moves. */
  lemma HolderKeepsOwnership(c: Config, r: Run, n: nat)
    requires IsRun(c, r) && n <= |r.moves| && r.worlds[n].fence.Held?
    ensures Owns(r.worlds[n].sys.store, r.worlds[n].fence.lease)
  {
    RunKeeps(c, r, n);
  }

  ghost predicate Superseded(issued: seq<Lease>, l: Lease) {
    exists a, b :: 0 <= a < b < |issued| && issued[a] == l && issued[b].task == l.task
  }

  /** A superseded lease does not own its task. */
  lemma SupersededOwnsNothing(sys: Sys, l: Lease)
    requires Inv(sys) && Superseded(sys.issued, l)
    ensures !Owns(sys.store, l)
  {
    var issued := sys.issued;
    var a, b :| 0 <= a < b < |issued| && issued[a] == l && issued[b].task == l.task;
    if Owns(sys.store, l) {
      OwnerIsLatest(sys, l);
      assert false;
    }
  }

  /**
   Once a later claim of a task has been committed, no further write of the earlier lease is ever
   saved, and nothing already saved is lost.
   */
  lemma {:induction false} NoLateWrite(c: Config, r: Run, m: nat, n: nat, l: Lease)
    requires IsRun(c, r) && m <= n <= |r.moves| && Superseded(r.worlds[m].sys.issued, l)
    ensures var w, w2 := r.worlds[m], r.worlds[n];
      && Superseded(w2.sys.issued, l) && w.writes <= w2.writes
      && forall k :: |w.writes| <= k < |w2.writes| ==> w2.writes[k].lease != l
  {
    hide Superseded;
    if m < n {
      NoLateWrite(c, r, m, n - 1, l);
      RunKeeps(c, r, n - 1);
      assert MoveAt(c, r, n - 1);
      hide Allowed, Advance, Sound;
      StaysSuperseded(c, r.worlds[n - 1], r.moves[n - 1], l);
      StepWritesNothing(c, r.worlds[n - 1], r.moves[n - 1], l);
      assert r.worlds[m].writes <= r.worlds[n - 1].writes <= r.worlds[n].writes;
    }
  }

  lemma StepWritesNothing(c: Config, w: World, m: Move, l: Lease)
    requires Sound(w) && Allowed(w, m) && Superseded(w.sys.issued, l)
    ensures var w2 := Advance(c, w, m);
      w2.writes == w.writes || exists x :: w2.writes == w.writes + [x] && x.lease != l
  {
    SupersededOwnsNothing(w.sys, l);
    if m.Commit? {
      assert Advance(c, w, m).writes == w.writes + [Write(w.fence.lease, m.body)];
    }
  }

  lemma StaysSuperseded(c: Config, w: World, m: Move, l: Lease)
    requires Superseded(w.sys.issued, l)
    ensures Superseded(Advance(c, w, m).sys.issued, l)
  {
    var issued, more := w.sys.issued, Advance(c, w, m).sys.issued;
    var a, b :| 0 <= a < b < |issued| && issued[a] == l && issued[b].task == l.task;
    assert more[a] == l && more[b].task == l.task;
  }

  // ---------------------------------------------------------------- the saver

  datatype SaveError = WrongThread | NotOwner | SaverFailed

  /** One lease's saver over the two databases. */
  class FencedSaver {
    const lease: Lease
    var main: Store
    var fence: Fence
    var writes: seq<Write>

    constructor (lease: Lease, main: Store, writes: seq<Write>)
      ensures this.lease == lease && this.main == main && fence == Free && this.writes == writes
    {
      this.lease, this.main, fence, this.writes := lease, main, Free, writes;
    }

    /** `fence.__enter__`. */
    method Acquire(now: int) returns (ok: bool)
      requires fence == Free
      modifies this`fence
      ensures ok == Passes(main, lease, now) && fence == (if ok then Held(lease) else Free)
    {
      ok := Passes(main, lease, now);
      if ok {
        fence := Held(lease);
      }
    }

    /**
     `_fenced`: the write is saved exactly if the thread is the lease's task and the lease passed,
     unless the saver itself raises; the queue's tables never change and the fence is always left.
     */
    method Fenced(thread: TaskId, body: Json, raises: bool, now: int) returns (r: Result<(), SaveError>)
      requires fence == Free
      modifies this
      ensures main == old(main) && fence == Free
      ensures r.Success? <==> thread == lease.task && Passes(main, lease, now) && !raises
      ensures writes == old(writes) + if r.Success? then [Write(lease, body)] else []
      ensures thread != lease.task ==> r == Failure(WrongThread)
      ensures r == Failure(NotOwner) <==> thread == lease.task && !Passes(main, lease, now)
    {
      if thread != lease.task {
        return Failure(WrongThread);
      }
      var entered := Acquire(now);
      if !entered {
        return Failure(NotOwner);
      }
      if raises {
        r := Failure(SaverFailed);
      } else {
        writes := writes + [Write(lease, body)];
        r := Success(());
      }
      fence := Free;
    }
  }
}
