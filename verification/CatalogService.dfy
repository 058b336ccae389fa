/**
 The catalog repository as it runs: dictionaries filled in one pass over the facts, then rows written only where
 they differ.
 */
module CatalogService {
  import opened Wrappers
  import opened Json
  import opened Scanner
  import opened Catalog
  import CatalogRuns

  function Get(m: map<string, set<FactId>>, k: string): set<FactId> {
    if k in m then m[k] else {}
  }

  function Added(m: map<string, set<FactId>>, k: string, i: FactId): (out: map<string, set<FactId>>)
    ensures forall n :: Get(out, n) == Get(m, n) + if n == k then {i} else {}
    ensures out.Keys == m.Keys + {k}
  {
    m[k := Get(m, k) + {i}]
  }

  // ---------------------------------------------------------------- the first n facts

  function VerifiedAmong(c: Config, db: Db, n: nat): set<FactId>
    requires n <= |db.facts|
  {
    set k | 0 <= k < n && IsVerified(c, db, k)
  }

  function ProjectAmong(c: Config, db: Db, p: string, n: nat): set<FactId>
    requires n <= |db.facts|
  {
    set k | 0 <= k < n && IsVerified(c, db, k) && db.facts[k].claim.project == Some(p)
  }

  function SkillAmong(c: Config, db: Db, name: string, n: nat): set<FactId>
    requires n <= |db.facts|
  {
    set k | 0 <= k < n && db.facts[k].claim.skill == Some(name) && Current(c, db, db.facts[k])
  }

  function NamesAmong(c: Config, db: Db, n: nat): set<string>
    requires n <= |db.facts|
  {
    set k | 0 <= k < n && db.facts[k].claim.skill.Some? && Current(c, db, db.facts[k]) :: db.facts[k].claim.skill.value
  }

  lemma OneMoreFact(c: Config, db: Db, n: nat)
    requires n < |db.facts|
    ensures var f := db.facts[n]; var current := Current(c, db, f);
      && VerifiedAmong(c, db, n + 1) == VerifiedAmong(c, db, n) + (if current && f.status == Verified then {n} else {})
      && (forall p :: ProjectAmong(c, db, p, n + 1)
            == ProjectAmong(c, db, p, n)
              + (if current && f.status == Verified && f.claim.project == Some(p) then {n} else {}))
      && (forall s ::
        SkillAmong(c, db, s, n + 1) == SkillAmong(c, db, s, n)
          + (if current && f.claim.skill == Some(s) then {n} else {}))
      && NamesAmong(c, db, n + 1) == NamesAmong(c, db, n)
        + (if current && f.claim.skill.Some? then {f.claim.skill.value} else {})
  {
    hide Current;
  }

  lemma NoFacts(c: Config, db: Db)
    ensures VerifiedAmong(c, db, 0) == {} && NamesAmong(c, db, 0) == {}
    ensures forall s :: ProjectAmong(c, db, s, 0) == {} && SkillAmong(c, db, s, 0) == {}
  {
  }

  lemma AllFacts(c: Config, db: Db)
    ensures VerifiedAmong(c, db, |db.facts|) == set i | 0 <= i < |db.facts| && IsVerified(c, db, i)
    ensures NamesAmong(c, db, |db.facts|) == SkillNames(c, db)
    ensures forall s :: ProjectAmong(c, db, s, |db.facts|) == ProjectFacts(c, db, s)
    ensures forall s :: SkillAmong(c, db, s, |db.facts|) == SkillFacts(c, db, s)
  {
    hide Current, IsVerified;
  }

  /** What a skill row should say. */
  function RowOf(bySkill: map<string, set<FactId>>, verified: set<FactId>, n: string): Skill {
    Skill(Get(bySkill, n), if exists i :: i in Get(bySkill, n) && i in verified then Verified else Unverified)
  }

  /** Skill rows while the names in `rest` still wait to be written. */
  ghost predicate HalfWritten(before: map<string, Skill>, skills: map<string, Skill>, names: set<string>,
      rest: set<string>,
                              bySkill: map<string, set<FactId>>, verified: set<FactId>)
  {
    && (forall n :: n in skills <==> n in before || (n in names && n !in rest))
    && (forall n :: n in before && n in rest ==> skills[n] == before[n])
    && (forall n :: n in names && n !in rest ==> skills[n] == RowOf(bySkill, verified, n))
  }

  lemma NothingWritten(before: map<string, Skill>, names: set<string>, bySkill: map<string, set<FactId>>,
      verified: set<FactId>)
    requires before.Keys <= names
    ensures HalfWritten(before, before, names, names, bySkill, verified)
  {
  }

  /** Writing one more row; a row that differs makes the table differ from then on. */
  lemma OneWritten(before: map<string, Skill>, skills: map<string, Skill>, names: set<string>, rest: set<string>,
                   bySkill: map<string, set<FactId>>, verified: set<FactId>, n: string)
    requires HalfWritten(before, skills, names, rest, bySkill, verified) && n in rest && rest <= names
      && before.Keys <= names
    ensures var row := RowOf(bySkill, verified, n);
      && HalfWritten(before, skills[n := row], names, rest - {n}, bySkill, verified)
      && (n in skills && skills[n] == row ==> skills[n := row] == skills)
      && (!(n in skills && skills[n] == row) ==> skills[n := row] != before)
      && (skills != before ==> skills[n := row] != before)
  {
    hide RowOf;
    var row := RowOf(bySkill, verified, n);
    var more := skills[n := row];
    assert n in skills ==> n in before;
    if !(n in skills && skills[n] == row) {
      assert n !in before || before[n] != row;
      assert more[n] == row && more != before;
    } else {
      assert more == skills;
    }
    assert forall k :: k in rest - {n} <==> k in rest && k != n;
  }

  lemma AllWritten(before: map<string, Skill>, skills: map<string, Skill>, names: set<string>,
                   bySkill: map<string, set<FactId>>, verified: set<FactId>)
    requires HalfWritten(before, skills, names, {}, bySkill, verified) && before.Keys <= names
    ensures skills.Keys == names && forall n :: n in skills ==> skills[n] == RowOf(bySkill, verified, n)
  {
    hide RowOf;
  }

  class CatalogService {
    const config: Config
    var facts: seq<Fact>
    var projects: map<string, Project>
    var skills: map<string, Skill>
    var disk: Disk
    var published: seq<Publication>
    var writes: nat
    ghost var world: CatalogRuns.World    // the run that this object is part of

    ghost function State(): Db
      reads this
    {
      Db(facts, projects, skills, disk, published)
    }

    /** The tables are those of a run. */
    ghost predicate Valid()
      reads this
    {
      CatalogRuns.Safe(world) && world.db == State()
    }

    constructor (config: Config, db: Db, ghost start: CatalogRuns.World)
      ensures this.config == config && State() == db && writes == 0 && world == start
      ensures start.db == db && CatalogRuns.Safe(start) ==> Valid()
    {
      this.config := config;
      facts, projects, skills, disk, published, writes := db.facts, db.projects, db.skills, db.disk, db.published, 0;
      world := start;
    }

    /** Every event keeps the invariant; the methods below say which event each of them is. */
    ghost method Follow(e: CatalogRuns.Event)
      modifies this`world
      ensures world == CatalogRuns.Happen(config, old(world), e)
      ensures old(CatalogRuns.Safe(world)) ==> CatalogRuns.Safe(world)
    {
      hide CatalogRuns.Safe, CatalogRuns.Happen;
      if CatalogRuns.Safe(world) {
        CatalogRuns.HappenKeeps(config, world, e);
      }
      world := CatalogRuns.Happen(config, world, e);
    }

    /** Of this object too: publications of a repository form a chain that ends in its current commit. */
    lemma OneChain(repo: string)
      requires Valid()
      ensures forall i :: 0 <= i < |published| ==>
        published[i].base == CatalogRuns.LastCommit(published[..i], published[i].repository)
      ensures (if repo in projects then projects[repo].commit else None) == CatalogRuns.LastCommit(published, repo)
    {
      assert CommitOf(State(), repo) == CatalogRuns.LastCommit(published, repo);
    }

    /** Of this object too: a verified fact that names a project carries its published commit. */
    lemma FactsAreCurrent(i: FactId)
      requires Valid() && i < |facts| && facts[i].status == Verified && facts[i].claim.project.Some?
      ensures var cl := facts[i].claim;
        cl.project.value in projects && projects[cl.project.value].commit == cl.commit
    {
      assert AtCommit(projects, facts[i].claim);
    }

    /** A scan of the project stores its manifest, which can then be published. */
    ghost method NoteScan(head: Head, listing: seq<Entry>)
      modifies this`world
      ensures world.scans == old(world.scans) + [CatalogRuns.Scanned(old(world), head, listing)]
      ensures old(Valid()) ==> Valid()
    {
      hide CatalogRuns.Safe;
      Follow(CatalogRuns.ScanOnce(head, listing));
    }

    /** Evidence files change outside. */
    method EditDisk(disk: Disk)
      modifies this`disk, this`world
      ensures this.disk == disk && (old(Valid()) ==> Valid())
    {
      hide CatalogRuns.Safe;
      this.disk := disk;
      Follow(CatalogRuns.EditDisk(disk));
    }

    /** `add`. */
    method ProposeOne(cl: Claim) returns (r: Result<(), Error>)
      modifies this`facts, this`world
      ensures var spec := Propose(old(facts), cl);
        if r.Success? then spec == Success(facts) else spec == Failure(r.error) && facts == old(facts)
      ensures old(Valid()) ==> Valid()
    {
      hide CatalogRuns.Safe;
      Follow(CatalogRuns.ProposeOne(cl));
      var proposed := Propose(facts, cl);
      if proposed.Failure? {
        return Failure(proposed.error);
      }
      facts := proposed.value;
      return Success(());
    }

    method IsCurrent(f: Fact) returns (ok: bool)
      ensures ok == Current(config, State(), f)
    {
      var cl := f.claim;
      if cl.project.Some? && (cl.project.value !in projects || projects[cl.project.value].commit != cl.commit) {
        return false;
      }
      return cl.cite.path in disk && Hash(disk[cl.cite.path]) == cl.cite.sha
        && config.quoted(disk[cl.cite.path], cl.cite);
    }

    /** One pass over the facts: the verified ones, and the facts of each project and skill. */
    method Gather()
        returns (verified: set<FactId>, byProject: map<string, set<FactId>>, bySkill: map<string, set<FactId>>)
      ensures verified == set i | 0 <= i < |facts| && IsVerified(config, State(), i)
      ensures forall p :: Get(byProject, p) == ProjectFacts(config, State(), p)
      ensures bySkill.Keys == SkillNames(config, State())
        && forall n :: Get(bySkill, n) == SkillFacts(config, State(), n)
    {
      hide Current, VerifiedAmong, ProjectAmong, SkillAmong, NamesAmong;
      verified, byProject, bySkill := {}, map[], map[];
      ghost var db := State();
      NoFacts(config, db);
      for i := 0 to |facts|
        invariant verified == VerifiedAmong(config, db, i)
        invariant forall p :: Get(byProject, p) == ProjectAmong(config, db, p, i)
        invariant bySkill.Keys == NamesAmong(config, db, i)
          && forall n :: Get(bySkill, n) == SkillAmong(config, db, n, i)
      {
        OneMoreFact(config, db, i);
        var fact := facts[i];
        var current := IsCurrent(fact);
        if current && fact.status == Verified {
          verified := verified + {i};
          if fact.claim.project.Some? {
            byProject := Added(byProject, fact.claim.project.value, i);
          }
        }
        if current && fact.claim.skill.Some? {
          bySkill := Added(bySkill, fact.claim.skill.value, i);
        }
      }
      AllFacts(config, db);
    }

    /** Project rows whose fact list differs are rewritten. */
    method WriteProjects(byProject: map<string, set<FactId>>)
      modifies this`projects, this`writes
      ensures projects == map p | p in old(projects) :: old(projects)[p].(verified := Get(byProject, p))
      ensures writes >= old(writes) && (writes == old(writes) <==> projects == old(projects))
    {
      ghost var before := projects;
      var rest := projects.Keys;
      while rest != {}
        invariant rest <= before.Keys && projects.Keys == before.Keys
        invariant forall p :: p in projects ==>
          projects[p] == if p in rest then before[p] else before[p].(verified := Get(byProject, p))
        invariant writes >= old(writes)
          && (writes == old(writes) <==> forall p :: p in projects && p !in rest ==> projects[p] == before[p])
        decreases |rest|
      {
        var p :| p in rest;
        if projects[p].verified != Get(byProject, p) {
          projects := projects[p := projects[p].(verified := Get(byProject, p))];
          writes := writes + 1;
        }
        rest := rest - {p};
      }
    }

    /** One skill row, written only where it differs. */
    method WriteSkill(n: string, row: Skill)
      modifies this`skills, this`writes
      ensures skills == old(skills)[n := row]
      ensures writes == old(writes) + if n in old(skills) && old(skills)[n] == row then 0 else 1
    {
      if n !in skills || skills[n] != row {
        skills := skills[n := row];
        writes := writes + 1;
      }
    }

    /** Skill rows are created or rewritten where evidence or status differ. */
    method WriteSkills(verified: set<FactId>, bySkill: map<string, set<FactId>>)
      modifies this`skills, this`writes
      ensures skills.Keys == old(skills).Keys + bySkill.Keys
      ensures forall n :: n in skills ==> skills[n] == RowOf(bySkill, verified, n)
      ensures writes >= old(writes) && (writes == old(writes) <==> skills == old(skills))
    {
      hide RowOf, Get, HalfWritten;
      ghost var before, names := skills, skills.Keys + bySkill.Keys;
      var rest := skills.Keys + bySkill.Keys;
      NothingWritten(before, names, bySkill, verified);
      while rest != {}
        invariant rest <= names && HalfWritten(before, skills, names, rest, bySkill, verified)
        invariant writes >= old(writes) && (writes == old(writes) <==> skills == before)
        decreases |rest|
      {
        var n :| n in rest;
        OneWritten(before, skills, names, rest, bySkill, verified, n);
        WriteSkill(n, RowOf(bySkill, verified, n));
        rest := rest - {n};
      }
      AllWritten(before, skills, names, bySkill, verified);
    }

    /** `refresh`: the catalogs become what the facts say, and nothing is written where they already were. */
    method Refresh()
      modifies this`projects, this`skills, this`writes
      ensures State() == Refreshed(config, old(State()))
      ensures writes == old(writes) <==> State() == old(State())
    {
      hide Current;
      var verified, byProject, bySkill := Gather();
      ghost var db := State();
      WriteProjects(byProject);
      WriteSkills(verified, bySkill);
      assert projects == Refreshed(config, db).projects;
      forall n | n in skills ensures skills[n] == Refreshed(config, db).skills[n] {
        assert RowOf(bySkill, verified, n) == Skill(SkillFacts(config, db, n), SkillStatus(config, db, n));
      }
      assert skills == Refreshed(config, db).skills;
    }

    /** A changed standing also leaves the catalogs as recomputed from the facts. */
    method DecideOne(id: FactId, status: Verification, expected: Verification) returns (r: Result<(), Error>)
      modifies this
      ensures var spec := Decide(config, old(State()), id, status, expected);
        if r.Success? then spec == Success(State()) else spec == Failure(r.error) && State() == old(State())
      ensures old(Valid()) ==> Valid() && (State() != old(State()) ==> Derived(config, State()))
    {
      hide CatalogRuns.Safe, Decide, Derived;
      ghost var before := world;
      r := DecideFact(id, status, expected);
      Follow(CatalogRuns.DecideOne(id, status, expected));
      if State() != old(State()) && before.db == old(State()) {
        CatalogRuns.StepFollows(config, before, CatalogRuns.DecideOne(id, status, expected));
      }
    }

    method DecideFact(id: FactId, status: Verification, expected: Verification) returns (r: Result<(), Error>)
      modifies this`facts, this`projects, this`skills, this`writes
      ensures var spec := Decide(config, old(State()), id, status, expected);
        if r.Success? then spec == Success(State()) else spec == Failure(r.error) && State() == old(State())
    {
      if id >= |facts| {
        return Failure(Missing);
      }
      if facts[id].status != expected {
        return Failure(StatusChanged);
      }
      if status == Verified {
        var current := IsCurrent(facts[id]);
        if !current {
          return Failure(NotCurrent);
        }
      }
      if facts[id].status == status {
        return Success(());
      }
      facts := facts[id := facts[id].(status := status)];
      Refresh();
      return Success(());
    }

    /** The demotion loop of `_publish`. */
    method Demote(repository: string, commit: string)
      modifies this`facts
      ensures facts == Demoted(old(facts), repository, commit)
    {
      ghost var before := facts;
      for i := 0 to |facts|
        invariant |facts| == |before|
        invariant forall k :: 0 <= k < |facts| ==>
          facts[k] == if k < i && Outdated(before[k], repository, commit) then before[k].(status := Unverified)
            else before[k]
      {
        if facts[i].status == Verified && facts[i].claim.project == Some(repository)
          && facts[i].claim.commit != Some(commit) {
          facts := facts[i := facts[i].(status := Unverified)];
        }
      }
      assert facts == Demoted(before, repository, commit);
    }

    /** The manifest of the run's scan `scan`. */
    ghost predicate IsScan(scan: nat, s: Snapshot)
      reads this
    {
      scan < |world.scans| && world.scans[scan].snapshot == s
    }

    /**
     `_publish`, where `order` is the manifest's listing of its files.  A publication of a manifest that some
     scan stored also leaves the catalogs as recomputed from the facts.
     */
    method PublishOne(s: Snapshot, order: seq<string>, ghost scan: nat) returns (r: Result<(), Error>)
      modifies this
      ensures var spec := Publish(config, old(State()), s, order);
        if r.Success? then spec == Success(State()) else spec == Failure(r.error) && State() == old(State())
      ensures old(Valid() && IsScan(scan, s)) ==> Valid() && (State() != old(State()) ==> Derived(config, State()))
    {
      hide CatalogRuns.Safe, Publish, Derived;
      ghost var before := world;
      r := PublishSnapshot(s, order);
      Follow(CatalogRuns.PublishOne(scan, order));
      if State() != old(State()) && before.db == old(State()) && scan < |before.scans|
         && before.scans[scan].snapshot == s {
        CatalogRuns.StepFollows(config, before, CatalogRuns.PublishOne(scan, order));
      }
    }

    method PublishSnapshot(s: Snapshot, order: seq<string>) returns (r: Result<(), Error>)
      modifies this`facts, this`projects, this`published, this`skills, this`writes
      ensures var spec := Publish(config, old(State()), s, order);
        if r.Success? then spec == Success(State()) else spec == Failure(r.error) && State() == old(State())
    {
      hide Current, ClaimsOf, ClaimOf, Refreshed;
      var repo := s.head.repository;
      if repo in projects && projects[repo].manifest == Some(s) {
        return Success(());
      }
      var current := if repo in projects then projects[repo].commit else None;
      if current != s.base {
        return Failure(ConcurrentChange);
      }
      if !Held(disk, s.files) {
        return Failure(EvidenceMismatch);
      }
      var before := facts;
      Demote(repo, s.head.commit);
      var claims := ClaimsOf(config, disk, s, order);
      for i := 0 to |claims|
        invariant ProposeAll(Demoted(before, repo, s.head.commit), claims[..i]) == Success(facts)
        invariant State() == old(State()).(facts := facts)
      {
        assert claims[..i + 1][..i] == claims[..i];
        var one := Propose(facts, claims[i]);
        if one.Failure? {
          RefusedEarly(Demoted(before, repo, s.head.commit), claims, i + 1);
          facts := before;
          return Failure(one.error);
        }
        facts := one.value;
      }
      assert claims[..|claims|] == claims;
      var verified := if repo in projects then projects[repo].verified else {};
      projects := projects[repo := Project(Some(s.head.commit), Some(s), verified)];
      published := published + [Publication(repo, s.base, s.head.commit)];
      Refresh();
      return Success(());
    }
  }

  /** A conflict among the first claims refuses them all. */
  lemma {:induction false} RefusedEarly(facts: seq<Fact>, claims: seq<Claim>, n: nat)
    requires n <= |claims| && ProposeAll(facts, claims[..n]).Failure?
    ensures ProposeAll(facts, claims) == ProposeAll(facts, claims[..n])
  {
    if n < |claims| {
      var front := claims[..|claims| - 1];
      assert front[..n] == claims[..n];
      RefusedEarly(facts, front, n);
    } else {
      assert claims[..n] == claims;
    }
  }
}
