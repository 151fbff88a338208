/**
 `execute_edge` with the cache, as a relation between disks: a hit, or a run followed by a store. If no command can get
 a stale hit, the cache does not show in any output, whatever the keys are made of.
 */
module CachedEdges {
  import opened Prelude
  import opened Graphs
  import opened Cache
  import opened World

  /** The path and content of every dependency, in the order of the record; nothing when a file is missing. */
  function Snapshot(paths: seq<Path>, c: Contents): Option<seq<(Path, Content)>>
  {
    if paths == [] then Some([])
    else
      var last := |paths| - 1;
      var before := Snapshot(paths[..last], c);
      if before.None? || paths[last] !in c then None else Some(before.value + [(paths[last], c[paths[last]])])
  }

  /** Only edges with a depfile, one output `o` and a known compiler use the cache. */
  ghost predicate Cacheable(t: Tools, x: Command, o: Path)
  {
    t.depTarget(x).Some? && t.outputs(x) == {o} && t.identity(x).Some?
  }

  /** Some valid manifest has an edge with command `x`: it never depends on its own outputs. */
  ghost predicate Placeable(t: Tools, x: Command)
  {
    && t.known(x) && t.outputs(x) != {} && t.inputs(x) !! t.outputs(x)
    && forall c: Contents :: Discovered(t, x, c) !! t.outputs(x)
  }

  /** The key of command `x` under this record and these files. */
  ghost predicate KeyIs(t: Tools, x: Command, record: seq<Path>, c: Contents, k: nat)
  {
    && t.identity(x).Some? && Snapshot(record, c).Some?
    && k == t.key(t.identity(x).value, x, Snapshot(record, c).value)
  }

  ghost predicate HasKey(t: Tools, x: Command, o: Path, deps: map<Path, seq<Path>>, c: Contents, k: nat)
  {
    Cacheable(t, x, o) && o in deps && KeyIs(t, x, deps[o], c, k)
  }

  /** A hit writes the output, logs it, and leaves the record that led to it. */
  ghost predicate Hits(t: Tools, x: Command, seen: Contents, now: int, d: Disk, d': Disk, o: Path, k: nat)
  {
    && HasKey(t, x, o, d.deps, seen, k) && Verified(t.contentHash, d.cache, k)
    && d' == Disk(d.files[o := File(d.cache.objects[k], now)], d.log[o := t.hash(x)], d.deps, now, d.cache)
  }

  /** The output as it is now, under the key of the record and the files as they are now. */
  ghost predicate Filed(t: Tools, x: Command, d: Disk, o: Path, k: nat)
  {
    HasKey(t, x, o, d.deps, ContentsOf(d.files), k) && o in d.files
  }

  /** After a run its result is stored, however that ends, if the edge uses the cache and can make its key. */
  ghost predicate Deposits(t: Tools, x: Command, ran: Disk, mid: Cache, cache: Cache)
  {
    if exists o, k :: Filed(t, x, ran, o, k)
    then exists o, k, fate ::
      Filed(t, x, ran, o, k) && cache == AfterStore(t.contentHash, mid, k, ran.files[o].content, fate)
    else cache == mid
  }

  /** A run may throw an entry away before it starts, and stores its result after it ended. */
  ghost predicate Runs(t: Tools, x: Command, seen: Contents, now: int, d: Disk, d': Disk, mid: Cache)
  {
    var ran := RunEffect(t, x, seen, now, d);
    && Pruned(t.contentHash, d.cache, mid)
    && d' == ran.(cache := d'.cache) && Deposits(t, x, ran, mid, d'.cache)
  }

  /** A successful `execute_edge` of command `x` that saw the files `seen` and wrote at time `now`. */
  ghost predicate EdgeSucceeds(t: Tools, x: Command, seen: Contents, now: int, d: Disk, d': Disk)
  {
    || (exists mid :: Runs(t, x, seen, now, d, d', mid))
    || (exists o, k :: Hits(t, x, seen, now, d, d', o, k))
  }

  ghost predicate SameEntries(cache: Cache, cache': Cache)
  {
    cache'.objects == cache.objects && cache'.metas == cache.metas
  }

  /** A run whose store gets nowhere, or that has nothing to store, changes no file of the cache. */
  lemma PlainRunSucceeds(t: Tools, x: Command, seen: Contents, now: int, d: Disk) returns (d': Disk)
    ensures EdgeSucceeds(t, x, seen, now, d, d')
    ensures d' == RunEffect(t, x, seen, now, d).(cache := d'.cache) && SameEntries(d.cache, d'.cache)
  {
    var ran := RunEffect(t, x, seen, now, d);
    hide Filed, RunEffect, Hits;
    d' := ran.(cache := d.cache);
    if o, k :| Filed(t, x, ran, o, k) {
      FiledIsThere(t, x, ran, o, k);
      d' := ran.(cache := AfterStore(t.contentHash, d.cache, k, ran.files[o].content, StopsBeforeObject));
    }
    assert Runs(t, x, seen, now, d, d', d.cache);
  }

  lemma FiledIsThere(t: Tools, x: Command, d: Disk, o: Path, k: nat)
    requires Filed(t, x, d, o, k)
    ensures o in d.files
  {
    hide HasKey;
  }

  // ------------------------------------------------------------------------------------------
  // Stale hits
  // ------------------------------------------------------------------------------------------

  /** A run of `x` on the files `c` stores its output under `k`. */
  ghost predicate Stores(t: Tools, x: Command, o: Path, c: Contents, k: nat)
  {
    Placeable(t, x) && Cacheable(t, x, o) && Occurring(t, c) && KeyIs(t, x, t.deps(x, c), c, k)
  }

  /** A run of `z` on the files `b` leaves a record under `q`. */
  ghost predicate Reports(t: Tools, z: Command, q: Path, b: Contents)
  {
    Placeable(t, z) && t.depTarget(z) == Some(q) && Occurring(t, b)
  }

  /** A record that some run, of whatever command, leaves under `q`. */
  ghost predicate RecordFor(t: Tools, q: Path, record: seq<Path>)
  {
    exists z: Command, b: Contents :: Reports(t, z, q, b) && record == t.deps(z, b)
  }

  /** Command `y` looks under `k` when it comes upon the files `d` and this record. */
  ghost predicate Finds(t: Tools, y: Command, q: Path, record: seq<Path>, d: Contents, k: nat)
  {
    && Placeable(t, y) && Cacheable(t, y, q) && Occurring(t, d)
    && RecordFor(t, q, record) && KeyIs(t, y, record, d, k)
  }

  /** Whatever is found is what a run would write instead. */
  ghost predicate NoStaleHits(t: Tools)
  {
    forall x: Command, o, c: Contents, y: Command, q, record, d: Contents, k ::
      Stores(t, x, o, c, k) && Finds(t, y, q, record, d, k) ==> t.output(y, q, d) == t.output(x, o, c)
  }

  /** Wherever something is found, the record is what a run would report instead. */
  ghost predicate NoStaleLists(t: Tools)
  {
    forall x: Command, o, c: Contents, y: Command, q, record, d: Contents, k ::
      Stores(t, x, o, c, k) && Finds(t, y, q, record, d, k) ==> record == t.deps(y, d)
  }

  /** What an entry of the cache is worth: some run stores this content under this key. */
  ghost predicate Genuine(t: Tools, k: nat, content: Content)
  {
    exists x: Command, o, c: Contents :: Stores(t, x, o, c, k) && content == t.output(x, o, c)
  }

  ghost predicate AllGenuine(t: Tools, stored: set<(nat, Content)>)
  {
    forall e :: e in stored ==> Genuine(t, e.0, e.1)
  }

  /** What may be believed about the files of the cache. */
  ghost predicate CacheOk(t: Tools, cache: Cache)
  {
    Authentic(t.contentHash, cache) && AllGenuine(t, cache.stored)
  }

  /** Every record is one that some run leaves. */
  ghost predicate RecordsKnown(t: Tools, deps: map<Path, seq<Path>>)
  {
    forall q :: q in deps ==> RecordFor(t, q, deps[q])
  }

  /** All that is on disk comes from the history: contents, records, entries of the cache. */
  ghost predicate Accountable(t: Tools, d: Disk)
  {
    Occurring(t, ContentsOf(d.files)) && RecordsKnown(t, d.deps) && CacheOk(t, d.cache)
  }

  lemma EmptyCacheIsOk(t: Tools)
    ensures CacheOk(t, NO_CACHE)
  {
  }

  // ------------------------------------------------------------------------------------------
  // Snapshots
  // ------------------------------------------------------------------------------------------

  lemma {:induction false} SnapshotTells(paths: seq<Path>, c: Contents)
    ensures Snapshot(paths, c).Some? <==> forall k :: 0 <= k < |paths| ==> paths[k] in c
    ensures Snapshot(paths, c).Some? ==> |Snapshot(paths, c).value| == |paths|
    ensures Snapshot(paths, c).Some? ==>
              forall k :: 0 <= k < |paths| ==> Snapshot(paths, c).value[k] == (paths[k], c[paths[k]])
    decreases |paths|
  {
    if paths != [] {
      var last := |paths| - 1;
      SnapshotTells(paths[..last], c);
      assert forall k :: 0 <= k < last ==> paths[..last][k] == paths[k];
    }
  }

  /** Equal snapshots: the same paths, and states that agree on them. */
  lemma SameSnapshot(paths: seq<Path>, c: Contents, others: seq<Path>, d: Contents)
    requires Snapshot(paths, c).Some? && Snapshot(paths, c) == Snapshot(others, d)
    ensures paths == others && Agree(c, d, Elems(paths))
  {
    SnapshotTells(paths, c);
    SnapshotTells(others, d);
    var s := Snapshot(paths, c).value;
    hide Snapshot;
    forall k | 0 <= k < |paths|
      ensures paths[k] == others[k] && paths[k] in c && paths[k] in d && c[paths[k]] == d[paths[k]]
    {
      assert s[k].0 == paths[k] && s[k].0 == others[k];
    }
  }

  /** And conversely. */
  lemma {:induction false} AgreeingSnapshots(paths: seq<Path>, c: Contents, d: Contents)
    requires Agree(c, d, Elems(paths))
    ensures Snapshot(paths, c) == Snapshot(paths, d)
    decreases |paths|
  {
    if paths != [] {
      var last := |paths| - 1;
      assert paths == paths[..last] + [paths[last]];
      ElemsAppend(paths[..last], paths[last]);
      AgreeingSnapshots(paths[..last], c, d);
      assert paths[last] in Elems(paths);
    }
  }

  // ------------------------------------------------------------------------------------------
  // A hit tells the truth
  // ------------------------------------------------------------------------------------------

  /** What is found under the key of a command, a record and some files is what the command would write on them. */
  lemma HitIsTrue(t: Tools, k: nat, content: Content, y: Command, q: Path, record: seq<Path>, d: Contents)
    requires NoStaleHits(t) && Genuine(t, k, content) && Finds(t, y, q, record, d, k)
    ensures content == t.output(y, q, d)
  {
    hide Stores, Finds;
    var x: Command, o, c: Contents :| Stores(t, x, o, c, k) && content == t.output(x, o, c);
  }

  /** As far as `x` may see the files of the record, they are the same. */
  ghost predicate SeenAlike(t: Tools, x: Command, record: seq<Path>, b: Contents, c: Contents)
  {
    forall p :: p in record && MaySee(t, x, p) ==> SameThere(b, c, p)
  }

  /** On files like these an entry was found under the record, and what it was found for has not changed for `x`. */
  ghost predicate Vouched(t: Tools, x: Command, q: Path, record: seq<Path>, b: Contents, k: nat, content: Content)
  {
    Finds(t, x, q, record, b, k) && Genuine(t, k, content)
  }

  /**
   The record is what `x` would report on the files `c`, or one under which an entry was found when the files of the
   record were, for `x`, as they are now. A hit leaves records of the second kind.
   */
  ghost predicate Backed(t: Tools, x: Command, record: seq<Path>, c: Contents)
  {
    record == t.deps(x, c) || exists q, b: Contents, k, content :: StillBacked(t, x, q, record, b, c, k, content)
  }

  ghost predicate StillBacked(t: Tools, x: Command, q: Path, record: seq<Path>, b: Contents, c: Contents, k: nat,
                              content: Content)
  {
    Vouched(t, x, q, record, b, k, content) && SeenAlike(t, x, record, b, c)
  }

  /** `c`, but on `paths` as in `b`. */
  function Overlay(c: Contents, b: Contents, paths: seq<Path>): Contents
  {
    map p | p in c.Keys + b.Keys && (if p in paths then p in b else p in c) :: if p in paths then b[p] else c[p]
  }

  lemma OverlayShows(c: Contents, b: Contents, paths: seq<Path>, p: Path)
    ensures SameThere(Overlay(c, b, paths), if p in paths then b else c, p)
  {
  }

  lemma OverlayOccurs(t: Tools, c: Contents, b: Contents, paths: seq<Path>)
    requires Occurring(t, c) && Occurring(t, b)
    ensures Occurring(t, Overlay(c, b, paths))
  {
  }

  /** Files that show the record as `b` does, and the rest as `c` does, give the key of `b` and the run of `c`. */
  lemma FoundOnOverlay(t: Tools, x: Command, q: Path, record: seq<Path>, b: Contents, c: Contents, k: nat)
    requires Deterministic(t) && Occurring(t, c)
    requires Finds(t, x, q, record, b, k) && SeenAlike(t, x, record, b, c)
    ensures Finds(t, x, q, record, Overlay(c, b, record), k) && SameRun(t, x, c, Overlay(c, b, record))
  {
    var m := Overlay(c, b, record);
    OverlayOccurs(t, c, b, record);
    hide Placeable, Cacheable, RecordFor, Snapshot, SameRun, Overlay, Occurring, Deterministic, SameThere;
    forall p | MaySee(t, x, p)
      ensures SameThere(c, m, p)
    {
      OverlayShows(c, b, record, p);
      SameThereTurns(c, b, m, p);
    }
    AlikeRunsAlike(t, x, c, m);
    OverlayAgrees(c, b, record);
    AgreeingSnapshots(record, b, m);
  }

  lemma OverlayAgrees(c: Contents, b: Contents, paths: seq<Path>)
    ensures Agree(b, Overlay(c, b, paths), Elems(paths))
  {
  }

  lemma SameThereTurns(c: Contents, b: Contents, m: Contents, p: Path)
    ensures SameThere(m, c, p) ==> SameThere(c, m, p)
    ensures SameThere(m, b, p) && SameThere(b, c, p) ==> SameThere(c, m, p)
  {
  }

  /** So the entry is still what `x` would write ... */
  lemma VouchedIsTrue(t: Tools, x: Command, q: Path, record: seq<Path>, b: Contents, c: Contents, k: nat,
                      content: Content)
    requires NoStaleHits(t) && Deterministic(t) && Occurring(t, c)
    requires StillBacked(t, x, q, record, b, c, k, content)
    ensures content == t.output(x, q, c)
  {
    hide NoStaleHits, Deterministic, Occurring, Finds, Genuine, Overlay, SeenAlike;
    FoundOnOverlay(t, x, q, record, b, c, k);
    HitIsTrue(t, k, content, x, q, record, Overlay(c, b, record));
  }

  /** ... and, without stale lists, the record what it would report. */
  lemma VouchedIsExact(t: Tools, x: Command, q: Path, record: seq<Path>, b: Contents, c: Contents, k: nat,
                       content: Content)
    requires NoStaleLists(t) && Deterministic(t) && Occurring(t, c)
    requires StillBacked(t, x, q, record, b, c, k, content)
    ensures record == t.deps(x, c)
  {
    hide Deterministic, Occurring, Finds, Overlay, SeenAlike, Stores;
    FoundOnOverlay(t, x, q, record, b, c, k);
    var x': Command, o, c': Contents :| Stores(t, x', o, c', k) && content == t.output(x', o, c');
    assert Finds(t, x, q, record, Overlay(c, b, record), k);
  }

  lemma BackedIsExact(t: Tools, x: Command, record: seq<Path>, c: Contents)
    requires NoStaleLists(t) && Deterministic(t) && Occurring(t, c) && Backed(t, x, record, c)
    ensures record == t.deps(x, c)
  {
    hide Deterministic, Occurring, NoStaleLists, StillBacked;
    if q, b: Contents, k, content :| StillBacked(t, x, q, record, b, c, k, content) {
      VouchedIsExact(t, x, q, record, b, c, k, content);
    }
  }

  /** A backed record stays backed while `x` sees the same. */
  lemma BackedStays(t: Tools, x: Command, record: seq<Path>, c: Contents, d: Contents)
    requires Deterministic(t) && Alike(t, x, c, d) && Backed(t, x, record, c)
    ensures Backed(t, x, record, d)
  {
    hide Vouched, MaySee;
    if record == t.deps(x, c) {
      hide Deterministic;
      AlikeRunsAlike(t, x, c, d);
    } else {
      hide Deterministic;
      var q, b: Contents, k, content :| StillBacked(t, x, q, record, b, c, k, content);
      assert StillBacked(t, x, q, record, b, d, k, content);
    }
  }

  // ------------------------------------------------------------------------------------------
  // A successful edge leaves what a plain run leaves
  // ------------------------------------------------------------------------------------------

  /** Files, log and clock of a plain run of `x` on `seen`, and a record that is backed. */
  ghost predicate RanLike(t: Tools, x: Command, seen: Contents, now: int, d: Disk, d': Disk)
  {
    && d' == RunEffect(t, x, seen, now, d).(deps := d'.deps, cache := d'.cache)
    && match t.depTarget(x)
       case None => d'.deps == d.deps
       case Some(o) => o in d'.deps && d'.deps == d.deps[o := d'.deps[o]] && Backed(t, x, d'.deps[o], seen)
  }

  lemma OneWritten(t: Tools, x: Command, o: Path, c: Contents, now: int)
    requires t.outputs(x) == {o}
    ensures WriteOutputs(t, x, c, now) == map[o := File(t.output(x, o, c), now)]
    ensures (map q | q in t.outputs(x) :: t.hash(x)) == map[o := t.hash(x)]
  {
  }

  lemma UpdateIsSum<V>(m: map<Path, V>, o: Path, v: V)
    ensures m[o := v] == m + map[o := v]
  {
  }

  lemma SameEntry<V>(m: map<Path, V>, o: Path)
    requires o in m
    ensures m[o := m[o]] == m
  {
  }

  lemma HitFinds(t: Tools, x: Command, seen: Contents, deps: map<Path, seq<Path>>, o: Path, k: nat)
    requires OwnTargets(t) && Placeable(t, x) && Occurring(t, seen) && RecordsKnown(t, deps)
    requires HasKey(t, x, o, deps, seen, k)
    ensures Finds(t, x, o, deps[o], seen, k) && t.depTarget(x) == Some(o) && t.outputs(x) == {o}
  {
    hide RecordFor, Snapshot, Occurring;
    assert t.depTarget(x).value in t.outputs(x);
  }

  lemma HitIsRun(t: Tools, x: Command, seen: Contents, now: int, d: Disk, d': Disk, o: Path, k: nat)
    requires OwnTargets(t) && Placeable(t, x) && Occurring(t, seen)
    requires NoStaleHits(t) && Accountable(t, d) && Hits(t, x, seen, now, d, d', o, k)
    ensures RanLike(t, x, seen, now, d, d')
  {
    var content := d.cache.objects[k];
    HitWasGenuine(t, d.cache, k);
    HitFinds(t, x, seen, d.deps, o, k);
    hide CacheOk, Verified, RecordsKnown, HasKey, Finds, Genuine, Placeable, NoStaleHits, Occurring;
    HitIsTrue(t, k, content, x, o, d.deps[o], seen);
    assert Backed(t, x, d.deps[o], seen) by {
      assert StillBacked(t, x, o, d.deps[o], seen, seen, k, content);
    }
    hide Backed, Accountable;
    OneWritten(t, x, o, seen, now);
    SameEntry(d.deps, o);
    hide WriteOutputs;
    UpdateIsSum(d.files, o, File(content, now));
    UpdateIsSum(d.log, o, t.hash(x));
  }

  lemma HitWasGenuine(t: Tools, cache: Cache, k: nat)
    requires CacheOk(t, cache) && Verified(t.contentHash, cache, k)
    ensures Genuine(t, k, cache.objects[k])
  {
    hide Genuine;
    var e := (k, cache.objects[k]);
    assert e in cache.stored;
  }

  /** Hit or no hit, a successful edge leaves the files and the log of a plain run of its command. */
  lemma SuccessIsRun(t: Tools, x: Command, seen: Contents, now: int, d: Disk, d': Disk)
    requires OwnTargets(t) && Placeable(t, x) && Occurring(t, seen)
    requires NoStaleHits(t) && Accountable(t, d) && EdgeSucceeds(t, x, seen, now, d, d')
    ensures RanLike(t, x, seen, now, d, d')
  {
    hide NoStaleHits, Accountable, Hits, RanLike, Placeable, Occurring, OwnTargets;
    if o, k :| Hits(t, x, seen, now, d, d', o, k) {
      HitIsRun(t, x, seen, now, d, d', o, k);
    } else {
      var mid :| Runs(t, x, seen, now, d, d', mid);
      PlainIsRanLike(t, x, seen, now, d, d'.cache);
    }
  }

  lemma PlainIsRanLike(t: Tools, x: Command, seen: Contents, now: int, d: Disk, cache: Cache)
    ensures RanLike(t, x, seen, now, d, RunEffect(t, x, seen, now, d).(cache := cache))
  {
    hide StillBacked, WriteOutputs;
  }

  /** Without stale lists it leaves the record of a plain run, too: only the cache can tell the difference. */
  lemma SuccessIsExactlyRun(t: Tools, x: Command, seen: Contents, now: int, d: Disk, d': Disk)
    requires Deterministic(t) && NoStaleLists(t) && Occurring(t, seen) && RanLike(t, x, seen, now, d, d')
    ensures d' == RunEffect(t, x, seen, now, d).(cache := d'.cache)
  {
    hide Deterministic, NoStaleLists, Occurring, Backed, WriteOutputs;
    if t.depTarget(x).Some? {
      BackedIsExact(t, x, d'.deps[t.depTarget(x).value], seen);
    }
  }

  // ------------------------------------------------------------------------------------------
  // And keeps everything accountable
  // ------------------------------------------------------------------------------------------

  /** What is filed after a run is genuine, if the run would do on its own outcome what it did on what it saw. */
  lemma FiledIsGenuine(t: Tools, x: Command, seen: Contents, now: int, d: Disk, o: Path, k: nat)
    requires OwnTargets(t) && Placeable(t, x)
    requires Occurring(t, ContentsOf(RunEffect(t, x, seen, now, d).files))
    requires SameRun(t, x, seen, ContentsOf(RunEffect(t, x, seen, now, d).files))
    requires Filed(t, x, RunEffect(t, x, seen, now, d), o, k)
    ensures Genuine(t, k, RunEffect(t, x, seen, now, d).files[o].content)
  {
    hide Snapshot, Placeable, Occurring;
    var ran := RunEffect(t, x, seen, now, d);
    var c := ContentsOf(ran.files);
    assert t.depTarget(x) == Some(o);
    assert ran.deps[o] == t.deps(x, c) && ran.files[o].content == t.output(x, o, c);
    assert Stores(t, x, o, c, k);
  }

  lemma StoredOneMore(t: Tools, cache: Cache, k: nat, content: Content, fate: StoreFate)
    requires CacheOk(t, cache) && Genuine(t, k, content)
    ensures CacheOk(t, AfterStore(t.contentHash, cache, k, content, fate))
  {
    StoreKeepsAuthentic(t.contentHash, cache, k, content, fate);
    hide Authentic, Genuine;
  }

  lemma DecayKeepsOk(t: Tools, cache: Cache, cache': Cache)
    requires CacheOk(t, cache) && Decayed(t.contentHash, cache, cache')
    ensures CacheOk(t, cache')
  {
    DecayKeepsAuthentic(t.contentHash, cache, cache');
    hide Authentic, Genuine;
  }

  lemma PruningKeepsOk(t: Tools, cache: Cache, cache': Cache)
    requires CacheOk(t, cache) && Pruned(t.contentHash, cache, cache')
    ensures CacheOk(t, cache')
  {
    hide AllGenuine, Pruned, Decayed;
    PruningIsDecay(t.contentHash, cache, cache');
    DecayKeepsOk(t, cache, cache');
  }

  /** A successful edge files nothing that is not genuine. */
  lemma SuccessKeepsCache(t: Tools, x: Command, seen: Contents, now: int, d: Disk, d': Disk)
    requires OwnTargets(t) && Placeable(t, x) && CacheOk(t, d.cache)
    requires Occurring(t, ContentsOf(RunEffect(t, x, seen, now, d).files))
    requires SameRun(t, x, seen, ContentsOf(RunEffect(t, x, seen, now, d).files))
    requires EdgeSucceeds(t, x, seen, now, d, d')
    ensures CacheOk(t, d'.cache)
  {
    hide OwnTargets, CacheOk, RunEffect, HasKey, Pruned, AfterStore, SameRun, Placeable, Verified, Occurring, Genuine;
    if o, k :| Hits(t, x, seen, now, d, d', o, k) {
    } else {
      var mid :| Runs(t, x, seen, now, d, d', mid);
      var ran := RunEffect(t, x, seen, now, d);
      PruningKeepsOk(t, d.cache, mid);
      if exists o, k :: Filed(t, x, ran, o, k) {
        var o, k, fate :| Filed(t, x, ran, o, k) &&
          d'.cache == AfterStore(t.contentHash, mid, k, ran.files[o].content, fate);
        FiledIsGenuine(t, x, seen, now, d, o, k);
        StoredOneMore(t, mid, k, ran.files[o].content, fate);
      }
    }
  }

  lemma RunKeepsOccurring(t: Tools, x: Command, seen: Contents, now: int, d: Disk)
    requires OutputsOccur(t) && t.known(x) && Occurring(t, seen) && Occurring(t, ContentsOf(d.files))
    ensures Occurring(t, ContentsOf(RunEffect(t, x, seen, now, d).files))
  {
    hide Occurring;
    var files := RunEffect(t, x, seen, now, d).files;
    forall p | p in files
      ensures t.occurs(files[p].content)
    {
      if p !in t.outputs(x) {
        OccursThere(t, d.files, p);
      }
    }
    OccursEverywhere(t, files);
  }

  lemma OccursThere(t: Tools, files: Files, p: Path)
    requires Occurring(t, ContentsOf(files)) && p in files
    ensures t.occurs(files[p].content)
  {
    assert ContentsOf(files)[p] == files[p].content;
  }

  lemma OccursEverywhere(t: Tools, files: Files)
    requires forall p :: p in files ==> t.occurs(files[p].content)
    ensures Occurring(t, ContentsOf(files))
  {
  }

  lemma HitKeepsOccurring(t: Tools, d: Disk, o: Path, k: nat, now: int)
    requires Accountable(t, d) && Verified(t.contentHash, d.cache, k) && OutputsOccur(t)
    ensures Occurring(t, ContentsOf(d.files[o := File(d.cache.objects[k], now)]))
  {
    HitWasGenuine(t, d.cache, k);
    var content := d.cache.objects[k];
    hide CacheOk, RecordsKnown, Verified, ContentsOf;
    GenuineOccurs(t, k, content);
    var files := d.files[o := File(content, now)];
    hide Genuine;
    forall p | p in files
      ensures t.occurs(files[p].content)
    {
      if p != o {
        OccursThere(t, d.files, p);
      }
    }
    OccursEverywhere(t, files);
  }

  lemma GenuineOccurs(t: Tools, k: nat, content: Content)
    requires OutputsOccur(t) && Genuine(t, k, content)
    ensures t.occurs(content)
  {
    hide KeyIs, Occurring;
    var x: Command, o, c: Contents :| Stores(t, x, o, c, k) && content == t.output(x, o, c);
    assert o in t.outputs(x);
  }

  /** The records after a run of `x` on `seen`: one of them may be new. */
  lemma RunKeepsRecords(t: Tools, x: Command, seen: Contents, now: int, d: Disk)
    requires Placeable(t, x) && Occurring(t, seen) && RecordsKnown(t, d.deps)
    ensures RecordsKnown(t, RunEffect(t, x, seen, now, d).deps)
  {
    hide Placeable, Occurring, RecordFor;
    var deps := RunEffect(t, x, seen, now, d).deps;
    forall q | q in deps
      ensures RecordFor(t, q, deps[q])
    {
      if t.depTarget(x) == Some(q) {
        ReportIsRecord(t, x, q, seen);
      }
    }
  }

  lemma ReportIsRecord(t: Tools, x: Command, q: Path, seen: Contents)
    requires Placeable(t, x) && Occurring(t, seen) && t.depTarget(x) == Some(q)
    ensures RecordFor(t, q, t.deps(x, seen))
  {
    hide Placeable, Occurring;
    assert Reports(t, x, q, seen);
  }

  lemma SuccessKeepsAccountable(t: Tools, x: Command, seen: Contents, now: int, d: Disk, d': Disk)
    requires OwnTargets(t) && OutputsOccur(t) && Placeable(t, x) && Occurring(t, seen) && Accountable(t, d)
    requires SameRun(t, x, seen, ContentsOf(RunEffect(t, x, seen, now, d).files))
    requires EdgeSucceeds(t, x, seen, now, d, d')
    ensures Accountable(t, d')
  {
    assert t.known(x);
    hide OwnTargets, OutputsOccur, Placeable, Occurring, CacheOk, RecordsKnown, RunEffect, SameRun, Pruned, Filed,
        HasKey, ContentsOf;
    RunKeepsOccurring(t, x, seen, now, d);
    SuccessKeepsCache(t, x, seen, now, d, d');
    if o, k :| Hits(t, x, seen, now, d, d', o, k) {
      HitKeepsOccurring(t, d, o, k, now);
    } else {
      RunKeepsRecords(t, x, seen, now, d);
    }
  }

  lemma FailureKeepsAccountable(t: Tools, x: Command, d: Disk, d': Disk)
    requires Accountable(t, d) && FailEffect(t, x, d, d')
    ensures Accountable(t, d')
  {
    hide CacheOk, Decayed, Occurring, RecordsKnown, Pruned, ClockAhead;
    PruningKeepsOk(t, d.cache, d'.cache);
  }
}
