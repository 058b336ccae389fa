/**
 Candidate facts and the catalogs derived from them.  A fact is proposed with cited evidence, verified
 by a human only while its source is current, and loses that standing when its repository moves on.
 */
module Catalog {
  import opened Wrappers
  import opened Json
  import opened Scanner

  type FactId = nat    // facts are numbered in the order of their insertion

  datatype Verification = Unverified | Verified | Rejected

  datatype Cite = Cite(path: Json, sha: Json, line: nat, quote: string)

  /** What a fact says and where it comes from; it never changes.  A project is named by its repository. */
  datatype Claim = Claim(kind: string, key: Json, source: Json, statement: string, skill: Option<string>,
                         project: Option<string>, commit: Option<string>, cite: Cite)

  datatype Fact = Fact(claim: Claim, status: Verification)

  datatype Project = Project(commit: Option<string>, manifest: Option<Snapshot>, verified: set<FactId>)

  datatype Skill = Skill(ids: set<FactId>, status: Verification)

  datatype Publication = Publication(repository: string, base: Option<string>, commit: string)

  datatype Db = Db(facts: seq<Fact>, projects: map<string, Project>, skills: map<string, Skill>, disk: Disk,
                   published: seq<Publication>)

  datatype Item = Item(line: nat, skill: Option<string>, statement: string, quote: string)

  /** `quoted` says whether a content has the cited quote; `observe` is what extraction finds in a file. */
  datatype Config = Config(quoted: (Bytes, Cite) -> bool, observe: (string, Bytes) -> seq<Item>)

  // ---------------------------------------------------------------- what is current

  predicate EvidenceHolds(c: Config, disk: Disk, e: Cite) {
    e.path in disk && Hash(disk[e.path]) == e.sha && c.quoted(disk[e.path], e)
  }

  /** A fact of a project is current only at the project's published commit. */
  predicate AtCommit(projects: map<string, Project>, cl: Claim) {
    cl.project.Some? ==> cl.project.value in projects && projects[cl.project.value].commit == cl.commit
  }

  predicate Current(c: Config, db: Db, f: Fact) {
    AtCommit(db.projects, f.claim) && EvidenceHolds(c, db.disk, f.claim.cite)
  }

  predicate IsVerified(c: Config, db: Db, i: FactId)
    requires i < |db.facts|
  {
    db.facts[i].status == Verified && Current(c, db, db.facts[i])
  }

  // ---------------------------------------------------------------- the derived catalogs, from scratch

  function ProjectFacts(c: Config, db: Db, repository: string): set<FactId> {
    set i | 0 <= i < |db.facts| && IsVerified(c, db, i) && db.facts[i].claim.project == Some(repository)
  }

  function SkillFacts(c: Config, db: Db, name: string): set<FactId> {
    set i | 0 <= i < |db.facts| && db.facts[i].claim.skill == Some(name) && Current(c, db, db.facts[i])
  }

  function SkillNames(c: Config, db: Db): set<string> {
    set i | 0 <= i < |db.facts| && db.facts[i].claim.skill.Some? && Current(c, db, db.facts[i]) ::
      db.facts[i].claim.skill.value
  }

  function SkillStatus(c: Config, db: Db, name: string): Verification {
    if exists i :: i in SkillFacts(c, db, name) && i < |db.facts| && IsVerified(c, db, i) then Verified else Unverified
  }

  /** `refresh`: every project's fact list and every skill, recomputed from the facts. */
  function Refreshed(c: Config, db: Db): Db {
    db.(projects := map p | p in db.projects :: db.projects[p].(verified := ProjectFacts(c, db, p)),
        skills := map n | n in db.skills.Keys + SkillNames(c, db) :: Skill(SkillFacts(c, db, n), SkillStatus(c, db, n)))
  }

  /** The catalogs agree with the facts. */
  ghost predicate Derived(c: Config, db: Db) {
    && (forall p :: p in db.projects ==> db.projects[p].verified == ProjectFacts(c, db, p))
    && (forall n :: n in db.skills ==> db.skills[n] == Skill(SkillFacts(c, db, n), SkillStatus(c, db, n)))
    && SkillNames(c, db) <= db.skills.Keys
  }

  /** Only facts, commits and files decide what is current; the catalogs themselves do not. */
  lemma CatalogsDecideNothing(c: Config, db: Db, db2: Db)
    requires db2.facts == db.facts && db2.disk == db.disk && db2.projects.Keys == db.projects.Keys
    requires forall p :: p in db.projects ==> db2.projects[p].commit == db.projects[p].commit
    ensures forall i :: 0 <= i < |db.facts| ==> Current(c, db2, db.facts[i]) == Current(c, db, db.facts[i])
    ensures forall n :: SkillFacts(c, db2, n) == SkillFacts(c, db, n) && SkillStatus(c, db2, n) == SkillStatus(c, db, n)
    ensures forall p :: ProjectFacts(c, db2, p) == ProjectFacts(c, db, p)
    ensures SkillNames(c, db2) == SkillNames(c, db)
  {
    forall i | 0 <= i < |db.facts|
      ensures Current(c, db2, db.facts[i]) == Current(c, db, db.facts[i])
        && IsVerified(c, db2, i) == IsVerified(c, db, i)
    {
    }
    forall n ensures SkillFacts(c, db2, n) == SkillFacts(c, db, n) && SkillStatus(c, db2, n) == SkillStatus(c, db, n) {
      hide Current, IsVerified;
      assert SkillFacts(c, db2, n) == SkillFacts(c, db, n);
    }
    forall p ensures ProjectFacts(c, db2, p) == ProjectFacts(c, db, p) {
    }
  }

  /** Refreshing makes the catalogs agree with the facts, and refreshing again changes nothing. */
  lemma RefreshIsExact(c: Config, db: Db)
    ensures Derived(c, Refreshed(c, db)) && Refreshed(c, Refreshed(c, db)) == Refreshed(c, db)
  {
    var once := Refreshed(c, db);
    CatalogsDecideNothing(c, db, once);
    hide Current, SkillFacts, SkillStatus, ProjectFacts, SkillNames;
    var twice := Refreshed(c, once);
    assert twice.projects == once.projects;
    assert twice.skills == once.skills;
  }

  /** Catalogs that agree with the facts are left alone. */
  lemma RefreshKeepsDerived(c: Config, db: Db)
    requires Derived(c, db)
    ensures Refreshed(c, db) == db
  {
    hide SkillFacts, SkillStatus, ProjectFacts, SkillNames;
    var once := Refreshed(c, db);
    assert once.projects == db.projects;
    assert once.skills == db.skills;
  }

  // ---------------------------------------------------------------- proposing and deciding

  function FindClaim(facts: seq<Fact>, key: Json, source: Json): (i: Option<FactId>)
    ensures i.Some? ==> i.value < |facts| && facts[i.value].claim.key == key && facts[i.value].claim.source == source
    ensures i.None? ==> forall k :: 0 <= k < |facts| ==> facts[k].claim.key != key || facts[k].claim.source != source
  {
    if |facts| == 0 then None
    else if facts[|facts| - 1].claim.key == key && facts[|facts| - 1].claim.source == source then Some(|facts| - 1)
    else FindClaim(facts[..|facts| - 1], key, source)
  }

  /** `add`: propose a claim, or find the identical earlier one. */
  function Propose(facts: seq<Fact>, cl: Claim): Result<seq<Fact>, Error> {
    var found := FindClaim(facts, cl.key, cl.source);
    if found.None? then Success(facts + [Fact(cl, Unverified)])
    else if facts[found.value].claim == cl then Success(facts)
    else Failure(IdentityConflict)
  }

  function ProposeAll(facts: seq<Fact>, claims: seq<Claim>): Result<seq<Fact>, Error> {
    if |claims| == 0 then Success(facts) else
    var front :- ProposeAll(facts, claims[..|claims| - 1]);
    Propose(front, claims[|claims| - 1])
  }

  /** `decide`. */
  function Decide(c: Config, db: Db, id: FactId, status: Verification, expected: Verification): Result<Db, Error> {
    if id >= |db.facts| then Failure(Missing)
    else if db.facts[id].status != expected then Failure(StatusChanged)
    else if status == Verified && !Current(c, db, db.facts[id]) then Failure(NotCurrent)
    else if db.facts[id].status == status then Success(db)
    else Success(Refreshed(c, db.(facts := db.facts[id := db.facts[id].(status := status)])))
  }

  // ---------------------------------------------------------------- publishing a scan

  /** Verified facts of the project at another commit lose their standing. */
  predicate Outdated(f: Fact, repository: string, commit: string) {
    f.status == Verified && f.claim.project == Some(repository) && f.claim.commit != Some(commit)
  }

  function Demoted(facts: seq<Fact>, repository: string, commit: string): (out: seq<Fact>)
    ensures |out| == |facts|
    ensures forall i :: 0 <= i < |facts| ==>
      out[i] == if Outdated(facts[i], repository, commit) then facts[i].(status := Unverified) else facts[i]
  {
    if |facts| == 0 then [] else
    var f := facts[|facts| - 1];
    Demoted(facts[..|facts| - 1], repository, commit)
      + [if Outdated(f, repository, commit) then f.(status := Unverified) else f]
  }

  function ClaimOf(head: Head, path: string, e: Evidence, item: Item): Claim {
    var skill := if item.skill.Some? then Str(item.skill.value) else Null;
    var key := Hash(Canonical(Arr([Str(head.repository), Str(path), Id(item.line), skill, Str(item.statement)])));
    var source := Arr([Str(head.repository), Str(head.commit), Str(path), Id(item.line)]);
    Claim(if item.skill.Some? then "PROJECT_SKILL" else "PROJECT_OBSERVATION", key, source, item.statement, item.skill,
          Some(head.repository), Some(head.commit), Cite(e.path, e.sha, item.line, item.quote))
  }

  function ClaimsOfFile(head: Head, path: string, e: Evidence, items: seq<Item>): seq<Claim> {
    seq(|items|, i requires 0 <= i < |items| => ClaimOf(head, path, e, items[i]))
  }

  /** The claims of a snapshot, its files taken in the order in which the manifest lists them. */
  function ClaimsOf(c: Config, disk: Disk, s: Snapshot, order: seq<string>): seq<Claim> {
    if |order| == 0 then [] else
    var p := order[|order| - 1];
    ClaimsOf(c, disk, s, order[..|order| - 1])
    + if p in s.files && s.files[p].path in disk
      then ClaimsOfFile(s.head, p, s.files[p], c.observe(p, disk[s.files[p].path])) else []
  }

  function CommitOf(db: Db, repository: string): Option<string> {
    if repository in db.projects then db.projects[repository].commit else None
  }

  function FilesOf(db: Db, repository: string): Files {
    if repository in db.projects && db.projects[repository].manifest.Some?
    then db.projects[repository].manifest.value.files else map[]
  }

  /** The project row after a publication, before the catalogs are refreshed. */
  function Moved(db: Db, s: Snapshot, facts: seq<Fact>): Db {
    var repo := s.head.repository;
    var verified := if repo in db.projects then db.projects[repo].verified else {};
    db.(facts := facts,
        projects := db.projects[repo := Project(Some(s.head.commit), Some(s), verified)],
        published := db.published + [Publication(repo, s.base, s.head.commit)])
  }

  /** `_publish`: compare-and-swap on the commit the scan was based on. */
  function Publish(c: Config, db: Db, s: Snapshot, order: seq<string>): Result<Db, Error> {
    var repo := s.head.repository;
    if repo in db.projects && db.projects[repo].manifest == Some(s) then Success(db)
    else if CommitOf(db, repo) != s.base then Failure(ConcurrentChange)
    else if !Held(db.disk, s.files) then Failure(EvidenceMismatch)
    else
      var facts :- ProposeAll(Demoted(db.facts, repo, s.head.commit), ClaimsOf(c, db.disk, s, order));
      Success(Refreshed(c, Moved(db, s, facts)))
  }
}
