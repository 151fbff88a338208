/**
 When a hit can be stale. In general it can bring an entry of any command on any list; where keys tell entries apart, a
 command finds only what it stored itself on the same list, and it is the depfile that decides.
 */
module StaleHits {
  import opened Prelude
  import opened Graphs
  import opened Cache
  import opened World
  import opened CachedEdges

  // ------------------------------------------------------------------------------------------
  // Hits and runs
  // ------------------------------------------------------------------------------------------

  /** Every hit leaves exactly what a run would leave: file, log entry, record. */
  ghost predicate EveryHitIsARun(t: Tools)
  {
    forall y: Command, q, seen: Contents, now, d, d', k ::
      Placeable(t, y) && Occurring(t, seen) && Accountable(t, d) && Hits(t, y, seen, now, d, d', q, k) ==>
        d' == RunEffect(t, y, seen, now, d)
  }

  /** A disk on which `y` is about to hit. */
  function AboutToHit(t: Tools, q: Path, record: seq<Path>, k: nat, content: Content): Disk
  {
    Disk(map[], map[], map[q := record], 0, AfterStore(t.contentHash, NO_CACHE, k, content, Smooth))
  }

  lemma AboutToHitIsAccountable(t: Tools, q: Path, record: seq<Path>, k: nat, content: Content)
    requires RecordFor(t, q, record) && Genuine(t, k, content)
    ensures Accountable(t, AboutToHit(t, q, record, k, content))
  {
    EmptyCacheIsOk(t);
    hide RecordFor, Genuine, CacheOk, AfterStore;
    StoredOneMore(t, NO_CACHE, k, content, Smooth);
    assert ContentsOf(map[]) == map[];
  }

  lemma HitHappens(t: Tools, y: Command, q: Path, record: seq<Path>, d: Contents, k: nat, content: Content)
    requires Finds(t, y, q, record, d, k)
    ensures var before := AboutToHit(t, q, record, k, content);
      Hits(t, y, d, 1, before,
           Disk(map[q := File(content, 1)], map[q := t.hash(y)], before.deps, 1, before.cache), q, k)
  {
    hide Placeable, Occurring, RecordFor, Snapshot;
    var before := AboutToHit(t, q, record, k, content);
    assert map[][q := File(content, 1)] == map[q := File(content, 1)];
    assert map[][q := t.hash(y)] == map[q := t.hash(y)];
    assert before.deps[q] == record;
  }

  /** The state after the hit is that of a run only if output and record are. */
  lemma HitShows(t: Tools, y: Command, q: Path, record: seq<Path>, d: Contents, k: nat, content: Content)
    requires OwnTargets(t) && Finds(t, y, q, record, d, k)
    requires var before := AboutToHit(t, q, record, k, content);
      Disk(map[q := File(content, 1)], map[q := t.hash(y)], before.deps, 1, before.cache) ==
      RunEffect(t, y, d, 1, before)
    ensures content == t.output(y, q, d) && record == t.deps(y, d)
  {
    hide Placeable, Occurring, RecordFor, KeyIs, AfterStore;
    var before := AboutToHit(t, q, record, k, content);
    var ran := RunEffect(t, y, d, 1, before);
    assert t.depTarget(y).value in t.outputs(y);
    assert ran.deps[q] == t.deps(y, d) && before.deps[q] == record;
    assert q in t.outputs(y);
    assert ran.files[q] == File(t.output(y, q, d), 1);
  }

  /** The cache is transparent exactly if neither what it hands out nor the record it leaves can be stale. */
  lemma HitsAreRunsIff(t: Tools)
    requires Deterministic(t) && OwnTargets(t)
    ensures EveryHitIsARun(t) <==> NoStaleHits(t) && NoStaleLists(t)
  {
    hide Stores, Finds, Hits, Deterministic, OwnTargets, Accountable, RunEffect, Placeable, Occurring;
    if NoStaleHits(t) && NoStaleLists(t) {
      hide NoStaleHits, NoStaleLists;
      forall y: Command, q, seen: Contents, now, d, d', k |
        Placeable(t, y) && Occurring(t, seen) && Accountable(t, d) && Hits(t, y, seen, now, d, d', q, k)
        ensures d' == RunEffect(t, y, seen, now, d)
      {
        HitIsRun(t, y, seen, now, d, d', q, k);
        hide RanLike;
        SuccessIsExactlyRun(t, y, seen, now, d, d');
        HitKeepsCache(t, y, seen, now, d, d', q, k);
        RunKeepsCache(t, y, seen, now, d);
      }
    }
    if EveryHitIsARun(t) {
      forall x: Command, o, c: Contents, y: Command, q, record, d: Contents, k |
        Stores(t, x, o, c, k) && Finds(t, y, q, record, d, k)
        ensures t.output(y, q, d) == t.output(x, o, c) && record == t.deps(y, d)
      {
        FoundIsRun(t, x, o, c, y, q, record, d, k);
      }
    }
  }

  lemma FoundIsRun(t: Tools, x: Command, o: Path, c: Contents, y: Command, q: Path, record: seq<Path>, d: Contents,
                   k: nat)
    requires OwnTargets(t) && EveryHitIsARun(t) && Stores(t, x, o, c, k) && Finds(t, y, q, record, d, k)
    ensures t.output(y, q, d) == t.output(x, o, c) && record == t.deps(y, d)
  {
    var content := t.output(x, o, c);
    assert Placeable(t, y) && Occurring(t, d) && RecordFor(t, q, record);
    assert Genuine(t, k, content);
    hide *;
    AboutToHitIsAccountable(t, q, record, k, content);
    HitHappens(t, y, q, record, d, k, content);
    var before := AboutToHit(t, q, record, k, content);
    HitIsPlain(t, y, q, d, 1, before,
               Disk(map[q := File(content, 1)], map[q := t.hash(y)], before.deps, 1, before.cache), k);
    HitShows(t, y, q, record, d, k, content);
  }

  lemma HitIsPlain(t: Tools, y: Command, q: Path, seen: Contents, now: int, d: Disk, d': Disk, k: nat)
    requires EveryHitIsARun(t) && Placeable(t, y) && Occurring(t, seen) && Accountable(t, d)
    requires Hits(t, y, seen, now, d, d', q, k)
    ensures d' == RunEffect(t, y, seen, now, d)
  {
    hide Hits, Accountable, RunEffect, Placeable, Occurring;
  }

  lemma HitKeepsCache(t: Tools, y: Command, seen: Contents, now: int, d: Disk, d': Disk, q: Path, k: nat)
    requires Hits(t, y, seen, now, d, d', q, k)
    ensures d'.cache == d.cache
  {
    hide HasKey, Verified;
  }

  lemma RunKeepsCache(t: Tools, y: Command, seen: Contents, now: int, d: Disk)
    ensures RunEffect(t, y, seen, now, d).cache == d.cache
  {
  }

  // ------------------------------------------------------------------------------------------
  // Keys that tell entries apart
  // ------------------------------------------------------------------------------------------

  /** What a command finds was stored by itself, for the same list and the same contents. */
  ghost predicate KeysTellApart(t: Tools)
  {
    forall x: Command, o, c: Contents, y: Command, q, record, d: Contents, k ::
      Stores(t, x, o, c, k) && Finds(t, y, q, record, d, k) ==>
        x == y && Snapshot(t.deps(x, c), c) == Snapshot(record, d)
  }

  /** What the depfile of a run lists decides the output: while none of it changes, the output would be the same. */
  ghost predicate HitsAreTrue(t: Tools, x: Command, o: Path)
  {
    forall c: Contents, d: Contents :: Unnoticed(t, x, c, d) ==> t.output(x, o, d) == t.output(x, o, c)
  }

  /** ... and the list itself. */
  ghost predicate ListsAreTrue(t: Tools, x: Command)
  {
    forall c: Contents, d: Contents :: Unnoticed(t, x, c, d) ==> t.deps(x, d) == t.deps(x, c)
  }

  /** Two states of the history that show all that a run of `x` on the first one lists, and show it alike. */
  ghost predicate Unnoticed(t: Tools, x: Command, c: Contents, d: Contents)
  {
    && Occurring(t, c) && Occurring(t, d)
    && Snapshot(t.deps(x, c), c).Some? && Agree(c, d, Elems(t.deps(x, c)))
  }

  /** A run on `c` was stored, and its entry is found for its record and `d`. */
  ghost predicate FoundAgain(t: Tools, x: Command, o: Path, c: Contents, d: Contents)
  {
    exists k :: Stores(t, x, o, c, k) && Finds(t, x, o, t.deps(x, c), d, k)
  }

  lemma StoredUnder(t: Tools, x: Command, o: Path, c: Contents) returns (k: nat)
    requires OwnTargets(t) && Placeable(t, x) && Cacheable(t, x, o) && Occurring(t, c)
    requires Snapshot(t.deps(x, c), c).Some?
    ensures Stores(t, x, o, c, k) && RecordFor(t, o, t.deps(x, c))
  {
    hide Placeable, Occurring, Snapshot;
    k := t.key(t.identity(x).value, x, Snapshot(t.deps(x, c), c).value);
    assert t.depTarget(x).value in t.outputs(x);
    ReportIsRecord(t, x, o, c);
  }

  /** What a run stored is found again exactly when nothing that it listed has changed. */
  lemma FoundIffUnchanged(t: Tools, x: Command, o: Path, c: Contents, d: Contents)
    requires OwnTargets(t) && KeysTellApart(t) && Placeable(t, x) && Cacheable(t, x, o)
    ensures FoundAgain(t, x, o, c, d) <==> Unnoticed(t, x, c, d)
  {
    hide KeysTellApart, Placeable, Occurring, Snapshot, Agree;
    if Unnoticed(t, x, c, d) {
      var k := StoredUnder(t, x, o, c);
      AgreeingSnapshots(t.deps(x, c), c, d);
      hide OwnTargets;
      assert Finds(t, x, o, t.deps(x, c), d, k);
    }
    if FoundAgain(t, x, o, c, d) {
      FoundIsUnnoticed(t, x, o, c, d);
    }
  }

  lemma FoundIsUnnoticed(t: Tools, x: Command, o: Path, c: Contents, d: Contents)
    requires KeysTellApart(t) && FoundAgain(t, x, o, c, d)
    ensures Unnoticed(t, x, c, d)
  {
    var k :| Stores(t, x, o, c, k) && Finds(t, x, o, t.deps(x, c), d, k);
    hide Placeable, Cacheable, RecordFor, Snapshot, Occurring;
    SameSnapshot(t.deps(x, c), c, t.deps(x, c), d);
  }

  /** The states differ at `p`, by content or by presence, and nowhere else. */
  ghost predicate DiffersAt(c: Contents, d: Contents, p: Path)
  {
    (forall q :: q != p ==> SameThere(c, d, q)) && !SameThere(c, d, p)
  }

  lemma DifferenceAt(c: Contents, d: Contents, p: Path, paths: seq<Path>)
    requires DiffersAt(c, d, p)
    ensures Agree(c, d, Elems(paths)) <==> p !in paths
  {
    if p in paths {
      assert p in Elems(paths) && !SameThere(c, d, p);
    } else {
      forall q | q in Elems(paths)
        ensures SameThere(c, d, q)
      {
        assert q in paths && q != p;
      }
    }
  }

  /** So a change of one file is noticed exactly when the record lists the file. */
  lemma ChangeIsNoticedIffListed(t: Tools, x: Command, o: Path, c: Contents, d: Contents, p: Path)
    requires OwnTargets(t) && KeysTellApart(t) && Placeable(t, x) && Cacheable(t, x, o)
    requires Occurring(t, c) && Occurring(t, d) && Snapshot(t.deps(x, c), c).Some? && DiffersAt(c, d, p)
    ensures !FoundAgain(t, x, o, c, d) <==> p in t.deps(x, c)
  {
    FoundIffUnchanged(t, x, o, c, d);
    hide OwnTargets, KeysTellApart, Placeable, Cacheable, Occurring, Snapshot, FoundAgain;
    DifferenceAt(c, d, p, t.deps(x, c));
  }

  /** Every file whose change alone changes what `x` writes is listed by the depfile of the run before. */
  ghost predicate ListsWhatMatters(t: Tools, x: Command, o: Path)
  {
    forall c: Contents, d: Contents, p :: Matters(t, x, o, c, d, p) ==> p in t.deps(x, c)
  }

  ghost predicate Matters(t: Tools, x: Command, o: Path, c: Contents, d: Contents, p: Path)
  {
    && Occurring(t, c) && Occurring(t, d) && Snapshot(t.deps(x, c), c).Some?
    && DiffersAt(c, d, p) && t.output(x, o, d) != t.output(x, o, c)
  }

  /** The change of `p` alone makes the command find its old output, and it would write another one. */
  ghost predicate StaleAfter(t: Tools, x: Command, o: Path, c: Contents, d: Contents, p: Path)
  {
    DiffersAt(c, d, p) && FoundAgain(t, x, o, c, d) && t.output(x, o, d) != t.output(x, o, c)
  }

  /** Exactly the commands whose depfiles miss a file that matters can get a stale hit from the change of one file. */
  lemma StaleHitsIffUnlisted(t: Tools, x: Command, o: Path)
    requires OwnTargets(t) && KeysTellApart(t) && Placeable(t, x) && Cacheable(t, x, o)
    ensures (exists c: Contents, d: Contents, p :: StaleAfter(t, x, o, c, d, p)) <==> !ListsWhatMatters(t, x, o)
  {
    hide OwnTargets, KeysTellApart, Placeable, Cacheable, Snapshot, DiffersAt, Occurring, FoundAgain, Agree;
    forall c: Contents, d: Contents, p
      ensures StaleAfter(t, x, o, c, d, p) <==> Matters(t, x, o, c, d, p) && p !in t.deps(x, c)
    {
      FoundIffUnchanged(t, x, o, c, d);
      if Matters(t, x, o, c, d, p) {
        ChangeIsNoticedIffListed(t, x, o, c, d, p);
      }
    }
    hide StaleAfter, Matters;
  }

  /** Where keys tell entries apart, no hit can be stale exactly if depfiles of cacheable commands decide outputs. */
  lemma NoStaleHitsIffDecided(t: Tools)
    requires OwnTargets(t) && KeysTellApart(t)
    ensures NoStaleHits(t) <==> forall x: Command, o :: Placeable(t, x) && Cacheable(t, x, o) ==> HitsAreTrue(t, x, o)
  {
    hide Placeable, Cacheable, KeysTellApart, OwnTargets, Unnoticed, Stores, Finds;
    if NoStaleHits(t) {
      forall x: Command, o, c: Contents, d: Contents |
        Placeable(t, x) && Cacheable(t, x, o) && Unnoticed(t, x, c, d)
        ensures t.output(x, o, d) == t.output(x, o, c)
      {
        FoundIffUnchanged(t, x, o, c, d);
        var k :| Stores(t, x, o, c, k) && Finds(t, x, o, t.deps(x, c), d, k);
      }
    }
    if forall x: Command, o :: Placeable(t, x) && Cacheable(t, x, o) ==> HitsAreTrue(t, x, o) {
      forall x: Command, o, c: Contents, y: Command, q, record, d: Contents, k |
        Stores(t, x, o, c, k) && Finds(t, y, q, record, d, k)
        ensures t.output(y, q, d) == t.output(x, o, c)
      {
        FindsItsOwn(t, x, o, c, y, q, record, d, k);
      }
    }
  }

  /** The same for records. */
  lemma NoStaleListsIffDecided(t: Tools)
    requires OwnTargets(t) && KeysTellApart(t)
    ensures NoStaleLists(t) <==> forall x: Command, o :: Placeable(t, x) && Cacheable(t, x, o) ==> ListsAreTrue(t, x)
  {
    hide Placeable, Cacheable, KeysTellApart, OwnTargets, Unnoticed, Stores, Finds;
    if NoStaleLists(t) {
      forall x: Command, o, c: Contents, d: Contents |
        Placeable(t, x) && Cacheable(t, x, o) && Unnoticed(t, x, c, d)
        ensures t.deps(x, d) == t.deps(x, c)
      {
        FoundIffUnchanged(t, x, o, c, d);
        var k :| Stores(t, x, o, c, k) && Finds(t, x, o, t.deps(x, c), d, k);
      }
    }
    if forall x: Command, o :: Placeable(t, x) && Cacheable(t, x, o) ==> ListsAreTrue(t, x) {
      forall x: Command, o, c: Contents, y: Command, q, record, d: Contents, k |
        Stores(t, x, o, c, k) && Finds(t, y, q, record, d, k)
        ensures record == t.deps(y, d)
      {
        FindsItsOwn(t, x, o, c, y, q, record, d, k);
      }
    }
  }

  lemma FindsItsOwn(t: Tools, x: Command, o: Path, c: Contents, y: Command, q: Path, record: seq<Path>, d: Contents,
                    k: nat)
    requires KeysTellApart(t) && Stores(t, x, o, c, k) && Finds(t, y, q, record, d, k)
    ensures x == y && o == q && record == t.deps(x, c) && Unnoticed(t, x, c, d)
    ensures Placeable(t, x) && Cacheable(t, x, o)
  {
    assert x == y && Snapshot(t.deps(x, c), c) == Snapshot(record, d);
    assert o in t.outputs(x);
    hide Placeable, RecordFor, Snapshot, Occurring, KeysTellApart;
    SameSnapshot(t.deps(x, c), c, record, d);
  }

  /** Reading only what the depfile lists is enough for both. */
  lemma ReadingDepsIsEnough(t: Tools, x: Command, o: Path)
    requires Deterministic(t) && ReadsItsDeps(t, x)
    ensures HitsAreTrue(t, x, o) && ListsAreTrue(t, x)
  {
    hide Snapshot, Deterministic, Agree, Occurring;
    forall c: Contents, d: Contents | Unnoticed(t, x, c, d)
      ensures SameRun(t, x, c, d)
    {
      SeesAgree(t, x, c, d);
    }
    hide Unnoticed;
  }

  /** A command that reads nothing but what its depfile lists. */
  ghost predicate ReadsItsDeps(t: Tools, x: Command)
  {
    forall c: Contents :: t.sees(x, c) <= Elems(t.deps(x, c))
  }

  lemma SeesAgree(t: Tools, x: Command, c: Contents, d: Contents)
    requires Deterministic(t) && ReadsItsDeps(t, x) && Agree(c, d, Elems(t.deps(x, c)))
    ensures SameRun(t, x, c, d)
  {
    assert t.sees(x, c) <= Elems(t.deps(x, c));
    assert Agree(c, d, t.sees(x, c));
  }
}
