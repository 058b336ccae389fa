/** Runs of scans, publications and reviews: any interleaving, with evidence files changing at any time. */
module CatalogRuns {
  import opened Wrappers
  import opened Json
  import opened Scanner
  import opened Catalog

  /** A manifest that some scan stored, with the listing it saw and the file map it compared with. */
  datatype Scan = Scan(snapshot: Snapshot, listing: seq<Entry>, previous: Files)

  datatype World = World(db: Db, scans: seq<Scan>)

  const DAWN := World(Db([], map[], map[], map[], []), [])

  datatype Event =
    | ScanOnce(head: Head, listing: seq<Entry>)
    | PublishOne(scan: nat, order: seq<string>)
    | ProposeOne(claim: Claim)
    | DecideOne(id: FactId, status: Verification, expected: Verification)
    | EditDisk(disk: Disk)

  /** A scan reads the project's manifest, reuses what it can, and stores its own manifest. */
  function Scanned(w: World, head: Head, listing: seq<Entry>): Scan {
    var past := FilesOf(w.db, head.repository);
    var files := ReusedFiles(Chosen(listing), past);
    Scan(Snapshot(CommitOf(w.db, head.repository), head, files, ChangesOf(past, files), |listing|), listing, past)
  }

  function Happen(c: Config, w: World, e: Event): World {
    match e
    case ScanOnce(head, listing) => w.(scans := w.scans + [Scanned(w, head, listing)])
    case PublishOne(n, order) =>
      if n >= |w.scans| then w else
      var r := Publish(c, w.db, w.scans[n].snapshot, order);
      if r.Success? then w.(db := r.value) else w
    case ProposeOne(cl) =>
      var r := Propose(w.db.facts, cl);
      if r.Success? then w.(db := w.db.(facts := r.value)) else w
    case DecideOne(id, status, expected) =>
      var r := Decide(c, w.db, id, status, expected);
      if r.Success? then w.(db := r.value) else w
    case EditDisk(disk) => w.(db := w.db.(disk := disk))
  }

  /** The states of a run, and the events between them. */
  datatype Run = Run(worlds: seq<World>, events: seq<Event>)

  ghost predicate EventAt(c: Config, r: Run, i: nat) {
    i < |r.events| && i + 1 < |r.worlds| && r.worlds[i + 1] == Happen(c, r.worlds[i], r.events[i])
  }

  ghost predicate IsRun(c: Config, r: Run) {
    |r.worlds| == |r.events| + 1 && r.worlds[0] == DAWN && forall i :: 0 <= i < |r.events| ==> EventAt(c, r, i)
  }

  // ---------------------------------------------------------------- the invariant

  ghost predicate ScanOk(s: Scan) {
    && s.snapshot.files == FullFiles(Chosen(s.listing)) && Faithful(s.snapshot.files)
    && s.snapshot.changes == ChangesOf(s.previous, s.snapshot.files) && Faithful(s.previous)
  }

  /** A verified fact of a project is one of the published commit. */
  ghost predicate VerifiedAtCommit(facts: seq<Fact>, projects: map<string, Project>) {
    forall i :: 0 <= i < |facts| && facts[i].status == Verified ==> AtCommit(projects, facts[i].claim)
  }

  function LastCommit(published: seq<Publication>, repository: string): Option<string> {
    if |published| == 0 then None
    else if published[|published| - 1].repository == repository then Some(published[|published| - 1].commit)
    else LastCommit(published[..|published| - 1], repository)
  }

  /** Each publication is based on the previous one of its repository. */
  ghost predicate Linear(published: seq<Publication>) {
    forall i :: 0 <= i < |published| ==> published[i].base == LastCommit(published[..i], published[i].repository)
  }

  ghost predicate CommitsOk(db: Db) {
    forall repo :: CommitOf(db, repo) == LastCommit(db.published, repo)
  }

  ghost predicate ManifestsOk(db: Db) {
    forall repo :: Faithful(FilesOf(db, repo))
  }

  ghost predicate Safe(w: World) {
    && (forall i :: 0 <= i < |w.scans| ==> ScanOk(w.scans[i]))
    && VerifiedAtCommit(w.db.facts, w.db.projects) && Linear(w.db.published) && CommitsOk(w.db) && ManifestsOk(w.db)
  }

  lemma RefreshKeeps(c: Config, db: Db, scans: seq<Scan>)
    requires Safe(World(db, scans))
    ensures Safe(World(Refreshed(c, db), scans))
  {
    hide Linear, ScanOk, ProjectFacts, SkillFacts, SkillStatus, SkillNames, Faithful;
    var db2 := Refreshed(c, db);
    forall i | 0 <= i < |db2.facts| && db2.facts[i].status == Verified
      ensures AtCommit(db2.projects, db2.facts[i].claim) {
      assert AtCommit(db.projects, db.facts[i].claim);
    }
    forall repo ensures CommitOf(db2, repo) == LastCommit(db2.published, repo) {
      assert CommitOf(db, repo) == LastCommit(db.published, repo);
    }
    forall repo ensures Faithful(FilesOf(db2, repo)) {
      assert Faithful(FilesOf(db, repo));
    }
  }

  /** Proposals are appended unverified. */
  lemma {:induction false} ProposalsAppend(facts: seq<Fact>, claims: seq<Claim>)
    ensures var r := ProposeAll(facts, claims);
      r.Success? ==> facts <= r.value && forall i :: |facts| <= i < |r.value| ==> r.value[i].status == Unverified
  {
    if |claims| > 0 {
      ProposalsAppend(facts, claims[..|claims| - 1]);
    }
  }

  lemma PublishKeeps(c: Config, w: World, n: nat, order: seq<string>)
    requires Safe(w) && n < |w.scans|
    ensures Safe(Happen(c, w, PublishOne(n, order)))
  {
    hide Linear, ScanOk, CommitsOk, ManifestsOk, Refreshed, Held, Faithful, ClaimsOf;
    var s := w.scans[n].snapshot;
    var repo := s.head.repository;
    var r := Publish(c, w.db, s, order);
    if r.Success? && r.value != w.db {
      var claims := ClaimsOf(c, w.db.disk, s, order);
      var demoted := Demoted(w.db.facts, repo, s.head.commit);
      ProposalsAppend(demoted, claims);
      var facts := ProposeAll(demoted, claims).value;
      var db2 := Moved(w.db, s, facts);
      assert VerifiedAtCommit(facts, db2.projects);
      PublicationsKeep(w, n, facts);
      RefreshKeeps(c, db2, w.scans);
    }
  }

  lemma PublicationsKeep(w: World, n: nat, facts: seq<Fact>)
    requires Safe(w) && n < |w.scans| && CommitOf(w.db, w.scans[n].snapshot.head.repository) == w.scans[n].snapshot.base
    ensures var db2 := Moved(w.db, w.scans[n].snapshot, facts);
      Linear(db2.published) && CommitsOk(db2) && ManifestsOk(db2)
  {
    hide Faithful, VerifiedAtCommit;
    var s := w.scans[n].snapshot;
    var db2, repo := Moved(w.db, s, facts), s.head.repository;
    var more := db2.published;
    assert more[..|w.db.published|] == w.db.published;
    assert CommitOf(w.db, repo) == LastCommit(w.db.published, repo);
    forall i | 0 <= i < |more| ensures more[i].base == LastCommit(more[..i], more[i].repository) {
      if i < |w.db.published| {
        assert more[..i] == w.db.published[..i];
      }
    }
    forall r ensures CommitOf(db2, r) == LastCommit(more, r) {
      assert CommitOf(w.db, r) == LastCommit(w.db.published, r);
    }
    forall r ensures Faithful(FilesOf(db2, r)) {
      assert Faithful(FilesOf(w.db, r));
      assert ScanOk(w.scans[n]);
    }
  }

  lemma DecideKeeps(c: Config, w: World, id: FactId, status: Verification, expected: Verification)
    requires Safe(w)
    ensures Safe(Happen(c, w, DecideOne(id, status, expected)))
  {
    hide Linear, ScanOk, CommitsOk, ManifestsOk, Refreshed, Faithful;
    var r := Decide(c, w.db, id, status, expected);
    if r.Success? && r.value != w.db {
      var db2 := w.db.(facts := w.db.facts[id := w.db.facts[id].(status := status)]);
      assert CommitsOk(db2) && ManifestsOk(db2) by {
        SameProjects(w.db, db2);
      }
      RefreshKeeps(c, db2, w.scans);
    }
  }

  lemma SameProjects(db: Db, db2: Db)
    requires CommitsOk(db) && ManifestsOk(db) && db2.projects == db.projects && db2.published == db.published
    ensures CommitsOk(db2) && ManifestsOk(db2)
  {
    hide Faithful;
    forall r ensures CommitOf(db2, r) == LastCommit(db2.published, r) && Faithful(FilesOf(db2, r)) {
      assert CommitOf(db, r) == LastCommit(db.published, r) && Faithful(FilesOf(db, r));
    }
  }

  lemma HappenKeeps(c: Config, w: World, e: Event)
    requires Safe(w)
    ensures Safe(Happen(c, w, e))
  {
    match e {
      case PublishOne(n, order) =>
        if n < |w.scans| {
          PublishKeeps(c, w, n, order);
        }
      case DecideOne(id, status, expected) => DecideKeeps(c, w, id, status, expected);
      case ScanOnce(head, listing) =>
        hide Linear, CommitsOk, VerifiedAtCommit, ReusedFiles, FullFiles, Faithful;
        assert Faithful(FilesOf(w.db, head.repository));
        IncrementalIsFull(Chosen(listing), FilesOf(w.db, head.repository));
      case ProposeOne(cl) =>
        hide Linear, CommitsOk, ManifestsOk, ScanOk;
        SameProjects(w.db, Happen(c, w, e).db);
      case EditDisk(disk) =>
        hide Linear, CommitsOk, ManifestsOk, ScanOk;
        SameProjects(w.db, Happen(c, w, e).db);
    }
  }

  lemma {:induction false} RunSafe(c: Config, r: Run, n: nat)
    requires IsRun(c, r) && n <= |r.events|
    ensures Safe(r.worlds[n])
  {
    hide Happen;
    if n > 0 {
      RunSafe(c, r, n - 1);
      assert EventAt(c, r, n - 1);
      hide Safe;
      HappenKeeps(c, r.worlds[n - 1], r.events[n - 1]);
    }
  }

  // ---------------------------------------------------------------- the laws of scanning and verification

  /**
   Along any sequence of scans and publications every manifest is what a scan that fetched everything
   would have stored, and its changes turn the file map it was compared with into its own.
   */
  lemma ScansAreFull(c: Config, r: Run, n: nat, i: nat)
    requires IsRun(c, r) && n <= |r.events| && i < |r.worlds[n].scans|
    ensures var s := r.worlds[n].scans[i];
      && s.snapshot.files == FullFiles(Chosen(s.listing))
      && Transformed(s.previous, s.snapshot.changes, s.snapshot.files) == s.snapshot.files
      && forall p :: p in s.snapshot.changes.modified <==>
           p in s.previous && p in s.snapshot.files && s.snapshot.files[p] != s.previous[p]
  {
    RunSafe(c, r, n);
    var s := r.worlds[n].scans[i];
    assert ScanOk(s);
    ChangesAreExact(s.previous, s.snapshot.files);
  }

  /** Publications of a repository form a linear chain that ends in its current commit. */
  lemma PublicationsAreLinear(c: Config, r: Run, n: nat, repo: string)
    requires IsRun(c, r) && n <= |r.events|
    ensures var db := r.worlds[n].db; Linear(db.published) && CommitOf(db, repo) == LastCommit(db.published, repo)
  {
    hide Linear, LastCommit, CommitOf;
    RunSafe(c, r, n);
  }

  /** In every reachable state a verified fact that names a project carries the project's published commit. */
  lemma VerifiedFactsAreCurrent(c: Config, r: Run, n: nat, i: FactId)
    requires IsRun(c, r) && n <= |r.events|
    requires var db := r.worlds[n].db;
      i < |db.facts| && db.facts[i].status == Verified && db.facts[i].claim.project.Some?
    ensures var db := r.worlds[n].db; var cl := db.facts[i].claim;
      cl.project.value in db.projects && db.projects[cl.project.value].commit == cl.commit
  {
    RunSafe(c, r, n);
    assert AtCommit(r.worlds[n].db.projects, r.worlds[n].db.facts[i].claim);
  }

  lemma StepFollows(c: Config, w: World, e: Event)
    requires e.PublishOne? || e.DecideOne?
    requires Happen(c, w, e).db != w.db
    ensures Derived(c, Happen(c, w, e).db) && Refreshed(c, Happen(c, w, e).db) == Happen(c, w, e).db
  {
    hide Refreshed, Derived, Held, ClaimsOf, Current;
    match e {
      case PublishOne(n, order) =>
        var s := w.scans[n].snapshot;
        var facts := ProposeAll(Demoted(w.db.facts, s.head.repository, s.head.commit),
          ClaimsOf(c, w.db.disk, s, order)).value;
        RefreshIsExact(c, Moved(w.db, s, facts));
      case DecideOne(id, status, _) =>
        RefreshIsExact(c, w.db.(facts := w.db.facts[id := w.db.facts[id].(status := status)]));
    }
  }

  /** After every publication and every change of standing the catalogs equal a recomputation from scratch. */
  lemma CatalogsFollow(c: Config, r: Run, n: nat)
    requires IsRun(c, r) && n < |r.events| && (r.events[n].PublishOne? || r.events[n].DecideOne?)
    requires r.worlds[n + 1].db != r.worlds[n].db
    ensures Derived(c, r.worlds[n + 1].db)
  {
    hide Happen, Derived, Refreshed;
    assert EventAt(c, r, n);
    StepFollows(c, r.worlds[n], r.events[n]);
  }
}
