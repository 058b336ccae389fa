/**
 The incremental repository scan: files whose blob did not change keep their stored evidence, all
 others are fetched, checked against their identity and stored by content.
 */
module Scanner {
  import opened Wrappers
  import opened Json

  /** Git names a blob by a digest of its content, and a fetched blob is checked against its name. */
  datatype BlobId = Blob(content: Bytes)

  /** One selected entry of the tree listing. */
  datatype Entry = Entry(path: string, blob: BlobId)

  /** Where a file's content is kept, under which digest, and for which blob. */
  datatype Evidence = Evidence(path: Json, sha: Json, blob: BlobId)

  type Files = map<string, Evidence>

  type Disk = map<Json, Bytes>

  datatype Changes = Changes(added: set<string>, removed: set<string>, modified: set<string>)

  datatype Head = Head(repository: string, commit: string, tree: string, about: Json)

  /** A manifest; it is stored under the digest of its content, so its pointer stands for the value itself. */
  datatype Snapshot = Snapshot(base: Option<string>, head: Head, files: Files, changes: Changes, eligible: nat)

  datatype Error = Corrupt | FetchFailed | ConcurrentChange | EvidenceMismatch | IdentityConflict | Missing
                 | StatusChanged | NotCurrent

  const LIMIT := 40

  /** `store_evidence`: content-addressed. */
  function StorePath(content: Bytes): Json {
    Arr([Str("blobs"), Hash(content)])
  }

  function Stored(content: Bytes): Evidence {
    Evidence(StorePath(content), Hash(content), Blob(content))
  }

  function Chosen(listing: seq<Entry>): seq<Entry> {
    if |listing| > LIMIT then listing[..LIMIT] else listing
  }

  /** The file map of a scan that fetches everything. */
  function FullFiles(chosen: seq<Entry>): Files {
    if |chosen| == 0 then map[]
    else var last := chosen[|chosen| - 1]; FullFiles(chosen[..|chosen| - 1])[last.path := Stored(last.blob.content)]
  }

  predicate Unmodified(past: Files, e: Entry) {
    e.path in past && past[e.path].blob == e.blob
  }

  /** The file map of a scan that reuses unmodified entries. */
  function ReusedFiles(chosen: seq<Entry>, past: Files): Files {
    if |chosen| == 0 then map[]
    else
      var last := chosen[|chosen| - 1];
      ReusedFiles(chosen[..|chosen| - 1], past)[last.path := if Unmodified(past, last) then past[last.path]
        else Stored(last.blob.content)]
  }

  /** Every file is the stored content of its blob. */
  predicate Faithful(files: Files) {
    forall p :: p in files ==> files[p] == Stored(files[p].blob.content)
  }

  /** Incremental equals full, as long as the previous manifest was faithful. */
  lemma {:induction false} IncrementalIsFull(chosen: seq<Entry>, past: Files)
    requires Faithful(past)
    ensures ReusedFiles(chosen, past) == FullFiles(chosen) && Faithful(FullFiles(chosen))
  {
    if |chosen| > 0 {
      IncrementalIsFull(chosen[..|chosen| - 1], past);
    }
  }

  function ChangesOf(past: Files, files: Files): Changes {
    Changes(set p | p in files && p !in past, set p | p in past && p !in files,
            set p | p in files && p in past && files[p].blob != past[p].blob)
  }

  /**
   What remains of the previous map once its removed and modified paths are gone, overwritten by the listed new
   files.
   */
  function Transformed(past: Files, ch: Changes, files: Files): Files {
    map p | p in (past.Keys - ch.removed) + (ch.added * files.Keys) ::
      if p in ch.added + ch.modified && p in files then files[p] else if p in past then past[p] else files[p]
  }

  /** Added, removed and modified turn the previous file map into the new one, and list nothing else. */
  lemma ChangesAreExact(past: Files, files: Files)
    requires Faithful(past) && Faithful(files)
    ensures var ch := ChangesOf(past, files);
      && Transformed(past, ch, files) == files
      && (forall p :: p in ch.modified <==> p in past && p in files && files[p] != past[p])
      && ch.added !! ch.removed && ch.added !! ch.modified && ch.removed !! ch.modified
  {
    var ch := ChangesOf(past, files);
    assert Transformed(past, ch, files).Keys == files.Keys;
    forall p | p in past && p in files && files[p].blob == past[p].blob ensures files[p] == past[p] {
    }
  }

  function SnapshotOf(base: Option<string>, past: Files, head: Head, listing: seq<Entry>): Snapshot {
    var files := FullFiles(Chosen(listing));
    Snapshot(base, head, files, ChangesOf(past, files), |listing|)
  }

  /** What a store of evidence must hold for a file map to be usable. */
  predicate Held(disk: Disk, files: Files) {
    forall p :: p in files ==> files[p].path in disk && Hash(disk[files[p].path]) == files[p].sha
  }

  class GitHubScanner {
    var disk: Disk

    constructor (disk: Disk)
      ensures this.disk == disk
    {
      this.disk := disk;
    }

    /**
     The loop of `scan` over the chosen entries.  `reachable` says which fetches succeed.  On success the
     result is that of a full scan, and every file of it is on disk with its digest.
     */
    method ScanFiles(chosen: seq<Entry>, past: Files, reachable: nat -> bool) returns (r: Result<Files, Error>)
      requires Faithful(past)
      modifies this
      ensures r.Success? ==> r.value == FullFiles(chosen) && Held(disk, r.value)
      ensures r == Failure(FetchFailed) ==>
        exists i :: 0 <= i < |chosen| && !Unmodified(past, chosen[i]) && !reachable(i)
      ensures r == Failure(Corrupt) ==>
        exists i :: 0 <= i < |chosen| && Unmodified(past, chosen[i])
                    && (past[chosen[i].path].path !in disk
                      || Hash(disk[past[chosen[i].path].path]) != past[chosen[i].path].sha)
      ensures r.Failure? ==> r.error in {Corrupt, FetchFailed}
    {
      var files: Files := map[];
      for i := 0 to |chosen|
        invariant files == ReusedFiles(chosen[..i], past) && Faithful(files) && Held(disk, files)
      {
        var entry := chosen[i];
        assert chosen[..i + 1][..i] == chosen[..i];
        if Unmodified(past, entry) {
          var kept := past[entry.path];
          if kept.path !in disk || Hash(disk[kept.path]) != kept.sha {
            return Failure(Corrupt);
          }
          files := files[entry.path := kept];
        } else {
          if !reachable(i) {
            return Failure(FetchFailed);
          }
          var raw := entry.blob.content;
          disk := disk[StorePath(raw) := raw];
          files := files[entry.path := Stored(raw)];
        }
      }
      assert chosen[..|chosen|] == chosen;
      IncrementalIsFull(chosen, past);
      return Success(files);
    }

    /** The scan itself, once the listing is known: build the files, compare, and describe the result. */
    method BuildSnapshot(base: Option<string>, previous: Files, head: Head, listing: seq<Entry>, reachable: nat -> bool)
      returns (r: Result<Snapshot, Error>)
      requires Faithful(previous)
      modifies this
      ensures r.Success? ==> r.value == SnapshotOf(base, previous, head, listing) && Held(disk, r.value.files)
    {
      var files :- ScanFiles(Chosen(listing), previous, reachable);
      var changes := Changes(files.Keys - previous.Keys, previous.Keys - files.Keys,
                             set p | p in files && p in previous && files[p].blob != previous[p].blob);
      assert changes == ChangesOf(previous, files);
      return Success(Snapshot(base, head, files, changes, |listing|));
    }
  }
}
