/** What scans, publications and decisions mean for files, facts and catalogs. */
module CatalogMeaning {
  import opened Wrappers
  import opened Json
  import opened Scanner
  import opened Catalog

  // ---------------------------------------------------------------- scanning

  /** Entry `i` is the last of the listing with its path. */
  predicate LastOfPath(entries: seq<Entry>, i: nat) {
    i < |entries| && forall k :: i < k < |entries| ==> entries[k].path != entries[i].path
  }

  /** The files are those of the listing, and no others. */
  lemma {:induction false} FilesAreListed(entries: seq<Entry>)
    ensures forall p :: p in FullFiles(entries) <==> exists i :: 0 <= i < |entries| && entries[i].path == p
  {
    if |entries| > 0 {
      var n := |entries| - 1;
      var front := entries[..n];
      FilesAreListed(front);
      assert forall i :: 0 <= i < n ==> front[i] == entries[i];
      forall p ensures p in FullFiles(entries) <==> exists i :: 0 <= i < |entries| && entries[i].path == p {
        assert p in FullFiles(entries) <==> p in FullFiles(front) || p == entries[n].path;
        if i :| 0 <= i < |front| && front[i].path == p {
          assert entries[i].path == p;
        }
      }
    }
  }

  /** Each of them has the content of its last entry, stored under that content's digest. */
  lemma {:induction false} FileIsItsLastEntry(entries: seq<Entry>, i: nat)
    requires LastOfPath(entries, i)
    ensures var files := FullFiles(entries);
      && entries[i].path in files && files[entries[i].path].blob == entries[i].blob
      && files[entries[i].path].sha == Hash(entries[i].blob.content)
      && files[entries[i].path].path == Arr([Str("blobs"), Hash(entries[i].blob.content)])
  {
    var n := |entries| - 1;
    if i < n {
      assert entries[n].path != entries[i].path;
      FileIsItsLastEntry(entries[..n], i);
    }
  }

  /** At most forty files are taken, the first ones of the listing. */
  lemma ChosenAreTheFirst(listing: seq<Entry>)
    ensures Chosen(listing) <= listing && |Chosen(listing)| == (if |listing| < 40 then |listing| else 40)
  {
  }

  /** What a snapshot reports: its base and head, how many files there were, and what changed since the past. */
  lemma SnapshotReports(base: Option<string>, past: Files, head: Head, listing: seq<Entry>)
    ensures var s := SnapshotOf(base, past, head, listing);
      && s.base == base && s.head == head && s.eligible == |listing| && s.files == FullFiles(Chosen(listing))
      && (forall p :: p in s.changes.added <==> p in s.files && p !in past)
      && (forall p :: p in s.changes.removed <==> p in past && p !in s.files)
      && (forall p :: p in s.changes.modified <==> p in s.files && p in past && s.files[p].blob != past[p].blob)
  {
  }

  // ---------------------------------------------------------------- what is current, and what the catalogs say

  /** The project is at the fact's commit, and the cited file still has its digest and the quote. */
  ghost predicate Holds(c: Catalog.Config, db: Db, cl: Claim) {
    && (cl.project.Some? ==> cl.project.value in db.projects && db.projects[cl.project.value].commit == cl.commit)
    && cl.cite.path in db.disk && Hash(db.disk[cl.cite.path]) == cl.cite.sha
    && c.quoted(db.disk[cl.cite.path], cl.cite)
  }

  lemma HoldsIsCurrent(c: Catalog.Config, db: Db, i: FactId)
    requires i < |db.facts|
    ensures Holds(c, db, db.facts[i].claim) == Current(c, db, db.facts[i])
  {
  }

  /** A refresh rewrites the catalogs only; afterwards every project lists exactly its verified facts that hold. */
  lemma ProjectsSay(c: Catalog.Config, db: Db, p: string, i: FactId)
    requires i < |db.facts|
    ensures var db2, f := Refreshed(c, db), db.facts[i];
      && db2.facts == db.facts && db2.published == db.published && db2.disk == db.disk
      && db2.projects.Keys == db.projects.Keys
      && (p in db.projects ==>
            && db2.projects[p].commit == db.projects[p].commit && db2.projects[p].manifest == db.projects[p].manifest
            && (i in db2.projects[p].verified <==>
                  f.status == Verified && f.claim.project == Some(p) && Holds(c, db, f.claim)))
  {
    HoldsIsCurrent(c, db, i);
    hide Holds, Current, SkillFacts, SkillNames, SkillStatus;
  }

  /** And every skill exactly its facts that hold; it is verified exactly if one of them is. */
  lemma SkillsSay(c: Catalog.Config, db: Db, n: string, i: FactId)
    requires i < |db.facts|
    ensures var skills, f := Refreshed(c, db).skills, db.facts[i];
      && (f.claim.skill == Some(n) && Holds(c, db, f.claim) ==> n in skills)
      && (n in skills ==>
            && (i in skills[n].ids <==> f.claim.skill == Some(n) && Holds(c, db, f.claim))
            && (f.status == Verified && i in skills[n].ids ==> skills[n].status == Verified)
            && (skills[n].status == Verified ==>
                  exists k :: 0 <= k < |db.facts| && k in skills[n].ids && db.facts[k].status == Verified)
            && skills[n].status in {Verified, Unverified})
  {
    HoldsIsCurrent(c, db, i);
    hide Holds, Current, ProjectFacts;
    var skills := Refreshed(c, db).skills;
    assert n in skills ==> skills[n] == Skill(SkillFacts(c, db, n), SkillStatus(c, db, n));
    if n in skills && skills[n].status == Verified {
      var k :| k in SkillFacts(c, db, n) && k < |db.facts| && IsVerified(c, db, k);
      assert k in skills[n].ids && db.facts[k].status == Verified;
    }
  }

  /** A standing is changed exactly from the expected one, to VERIFIED only while the fact holds. */
  lemma DecideIff(c: Catalog.Config, db: Db, id: FactId, status: Verification, expected: Verification)
    requires id < |db.facts|
    ensures var r := Decide(c, db, id, status, expected);
      && (r.Success? <==>
            db.facts[id].status == expected && (status == Verified ==> Holds(c, db, db.facts[id].claim)))
      && (r.Success? ==> r.value.facts == db.facts[id := db.facts[id].(status := status)])
      && (r.Success? && status == expected ==> r.value == db)
      && (r.Success? && status != expected ==>
            r.value == Refreshed(c, db.(facts := db.facts[id := db.facts[id].(status := status)])))
  {
    if db.facts[id].status == status {
      assert db.facts[id := db.facts[id].(status := status)] == db.facts;
    }
  }

  // ---------------------------------------------------------------- proposing and publishing

  /** Among facts of different identity a claim is new, or it is the very claim that is there, or it is refused. */
  lemma ProposeIff(facts: seq<Fact>, cl: Claim)
    requires forall i, j :: 0 <= i < j < |facts| ==>
      facts[i].claim.key != facts[j].claim.key || facts[i].claim.source != facts[j].claim.source
    ensures var r := Propose(facts, cl);
      && (r.Failure? <==> exists i :: 0 <= i < |facts| && facts[i].claim.key == cl.key
                                       && facts[i].claim.source == cl.source && facts[i].claim != cl)
      && (r.Success? ==> r.value == if (exists i :: 0 <= i < |facts| && facts[i].claim == cl) then facts
                                    else facts + [Fact(cl, Unverified)])
  {
    var found := FindClaim(facts, cl.key, cl.source);
    if found.Some? {
      assert facts[found.value].claim.key == cl.key && facts[found.value].claim.source == cl.source;
    }
  }

  /** After proposals every claim is there, in its own words, and what was there is there unchanged. */
  lemma {:induction false} AllProposedAreThere(facts: seq<Fact>, claims: seq<Claim>)
    ensures var r := ProposeAll(facts, claims);
      r.Success? ==>
        && facts <= r.value
        && (forall i :: |facts| <= i < |r.value| ==> r.value[i].status == Unverified && r.value[i].claim in claims)
        && (forall k :: 0 <= k < |claims| ==> IsThere(r.value, claims[k]))
  {
    if |claims| > 0 {
      var n := |claims| - 1;
      AllProposedAreThere(facts, claims[..n]);
      var front := ProposeAll(facts, claims[..n]);
      if front.Success? && Propose(front.value, claims[n]).Success? {
        var all := Propose(front.value, claims[n]).value;
        ProposedIsThere(front.value, claims[n]);
        forall k | 0 <= k < |claims| ensures IsThere(all, claims[k]) {
          if k < n {
            assert IsThere(front.value, claims[..n][k]);
            var i :| 0 <= i < |front.value| && front.value[i].claim == claims[k];
            assert all[i].claim == claims[k];
          }
        }
      }
    }
  }

  ghost predicate IsThere(facts: seq<Fact>, cl: Claim) {
    exists i :: 0 <= i < |facts| && facts[i].claim == cl
  }

  lemma ProposedIsThere(facts: seq<Fact>, cl: Claim)
    ensures var r := Propose(facts, cl); r.Success? ==> facts <= r.value && IsThere(r.value, cl)
  {
    var found := FindClaim(facts, cl.key, cl.source);
    if found.None? {
      assert (facts + [Fact(cl, Unverified)])[|facts|].claim == cl;
    }
  }

  /** Two observations of a repository are one claim exactly if they are the same statement at the same place. */
  lemma SameClaimIff(h: Head, path: string, e: Evidence, x: Item, h2: Head, path2: string, e2: Evidence, y: Item)
    ensures ClaimOf(h, path, e, x).key == ClaimOf(h2, path2, e2, y).key <==>
      h.repository == h2.repository && path == path2 && x.line == y.line && x.skill == y.skill
      && x.statement == y.statement
    ensures ClaimOf(h, path, e, x).source == ClaimOf(h2, path2, e2, y).source <==>
      h.repository == h2.repository && h.commit == h2.commit && path == path2 && x.line == y.line
  {
    var a, b := ClaimOf(h, path, e, x), ClaimOf(h2, path2, e2, y);
    if a.key == b.key {
      assert a.key.content.value.items[0] == b.key.content.value.items[0];
      assert a.key.content.value.items[1] == b.key.content.value.items[1];
      assert a.key.content.value.items[2] == b.key.content.value.items[2];
      assert a.key.content.value.items[3] == b.key.content.value.items[3];
      assert a.key.content.value.items[4] == b.key.content.value.items[4];
    }
    if a.source == b.source {
      assert a.source.items[0] == b.source.items[0] && a.source.items[1] == b.source.items[1];
      assert a.source.items[2] == b.source.items[2] && a.source.items[3] == b.source.items[3];
    }
  }

  /** A claim cites the line it was observed at, in the stored evidence, at the commit of the scan. */
  lemma ClaimCites(h: Head, path: string, e: Evidence, x: Item)
    ensures var cl := ClaimOf(h, path, e, x);
      && cl.statement == x.statement && cl.skill == x.skill && cl.project == Some(h.repository)
      && cl.commit == Some(h.commit) && cl.cite == Cite(e.path, e.sha, x.line, x.quote)
      && cl.kind == (if x.skill.Some? then "PROJECT_SKILL" else "PROJECT_OBSERVATION")
  {
  }

  /** Every observation in every listed file of the snapshot is claimed, in the order of the listing. */
  lemma {:induction false} EveryObservationIsClaimed(c: Catalog.Config, disk: Disk, s: Snapshot, order: seq<string>,
      k: nat, i: nat)
    requires k < |order| && order[k] in s.files && s.files[order[k]].path in disk
    requires i < |c.observe(order[k], disk[s.files[order[k]].path])|
    ensures ClaimOf(s.head, order[k], s.files[order[k]], c.observe(order[k], disk[s.files[order[k]].path])[i])
         in ClaimsOf(c, disk, s, order)
  {
    var n := |order| - 1;
    if k < n {
      assert order[..n][k] == order[k];
      EveryObservationIsClaimed(c, disk, s, order[..n], k, i);
    } else {
      var p := order[n];
      var made := ClaimsOfFile(s.head, p, s.files[p], c.observe(p, disk[s.files[p].path]));
      assert made[i] == ClaimOf(s.head, p, s.files[p], c.observe(p, disk[s.files[p].path])[i]);
      assert made[i] in made;
    }
  }

  /** Publishing compares the base with the current commit, needs the evidence on disk, and refuses nothing else. */
  lemma PublishRefuses(c: Catalog.Config, db: Db, s: Snapshot, order: seq<string>)
    ensures var r, repo := Publish(c, db, s, order), s.head.repository;
      var same := repo in db.projects && db.projects[repo].manifest == Some(s);
      && (same ==> r == Success(db))
      && (r == Failure(ConcurrentChange) <==>
            !same && (if repo in db.projects then db.projects[repo].commit else None) != s.base)
      && (r.Success? && !same ==>
            forall p :: p in s.files ==> s.files[p].path in db.disk && Hash(db.disk[s.files[p].path]) == s.files[p].sha)
  {
    hide Refreshed, ClaimsOf;
    ErrorsOfProposing(Demoted(db.facts, s.head.repository, s.head.commit), ClaimsOf(c, db.disk, s, order));
  }

  lemma {:induction false} ErrorsOfProposing(facts: seq<Fact>, claims: seq<Claim>)
    ensures ProposeAll(facts, claims).Failure? ==> ProposeAll(facts, claims).error == IdentityConflict
  {
    if |claims| > 0 {
      ErrorsOfProposing(facts, claims[..|claims| - 1]);
    }
  }

  /**
   A publication makes the scan's commit and manifest current, takes their standing from the project's verified
   facts of other commits and from no others, and records every observation of the scan.
   */
  lemma PublishLeaves(c: Catalog.Config, db: Db, s: Snapshot, order: seq<string>)
    requires Publish(c, db, s, order).Success? && Publish(c, db, s, order).value != db
    ensures var db2, repo := Publish(c, db, s, order).value, s.head.repository;
      && repo in db2.projects && db2.projects[repo].commit == Some(s.head.commit)
      && db2.projects[repo].manifest == Some(s) && db2.projects.Keys == db.projects.Keys + {repo}
      && db2.published == db.published + [Publication(repo, s.base, s.head.commit)] && db2.disk == db.disk
      && |db2.facts| >= |db.facts|
      && (forall i :: 0 <= i < |db.facts| ==>
            && db2.facts[i].claim == db.facts[i].claim
            && db2.facts[i].status == (
                 if db.facts[i].status == Verified && db.facts[i].claim.project == Some(repo)
                    && db.facts[i].claim.commit != Some(s.head.commit) then Unverified else db.facts[i].status))
      && (forall k :: 0 <= k < |ClaimsOf(c, db.disk, s, order)| ==>
            IsThere(db2.facts, ClaimsOf(c, db.disk, s, order)[k]))
      && (forall i :: |db.facts| <= i < |db2.facts| ==>
            db2.facts[i].status == Unverified && db2.facts[i].claim in ClaimsOf(c, db.disk, s, order))
  {
    hide ClaimsOf, ProjectFacts, SkillFacts, SkillNames, SkillStatus, Held;
    AllProposedAreThere(Demoted(db.facts, s.head.repository, s.head.commit), ClaimsOf(c, db.disk, s, order));
  }
}
