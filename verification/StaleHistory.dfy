/**
 A stale hit is enough for a wrong build. Take any run that stores an entry, any run that leaves a record, and any
 command that finds the entry under the record although it would write something else. There is a history of these three
 commands, one run each, with edits, deletions and lost logs between them, in which the third run takes the entry out of
 the cache and commits it.
 */
module StaleHistory {
  import opened Prelude
  import opened Graphs
  import opened Cache
  import opened World
  import opened CachedEdges
  import opened Execution
  import opened ScheduledBuild
  import opened Incremental
  import opened LineFormat
  import opened History
  import opened HistoryInvariant
  import opened Session
  import opened OneEdgeHistory
  import BuildLog
  import DepsLog

  /** A command that can be placed neither sees nor lists its outputs. */
  lemma OwnOutputsAreUnseen(t: Tools, x: Command, c: Contents, d: Contents)
    requires Deterministic(t) && Reported(t) && Placeable(t, x)
    requires forall p :: p !in t.outputs(x) ==> SameThere(c, d, p)
    ensures SameRun(t, x, c, d) && Agree(c, d, Discovered(t, x, c))
  {
    assert t.sees(x, c) <= t.inputs(x) + Discovered(t, x, c);
    assert Discovered(t, x, c) !! t.outputs(x);
    hide Placeable, Reported, Discovered;
    assert Agree(c, d, t.sees(x, c));
  }

  lemma WellBehaved(t: Tools)
    requires Disciplined(t)
    ensures Deterministic(t) && Reported(t) && OwnTargets(t) && OutputsOccur(t)
  {
  }

  // ------------------------------------------------------------------------------------------
  // The first run stores the entry
  // ------------------------------------------------------------------------------------------

  /** What a run of `x` on all of `c` leaves. */
  function FirstRan(t: Tools, x: Command, c: Contents): Disk
  {
    RunEffect(t, x, c, 1, Disk(Sources(c), map[], map[], 1, NO_CACHE))
  }

  function First(t: Tools, x: Command, o: Path, c: Contents, k: nat): Disk
  {
    FirstRan(t, x, c).(cache := AfterStore(t.contentHash, NO_CACHE, k, t.output(x, o, c), Smooth))
  }

  lemma RanElsewhere(t: Tools, x: Command, c: Contents)
    ensures forall p :: p !in t.outputs(x) ==> SameThere(c, ContentsOf(FirstRan(t, x, c).files), p)
  {
  }

  lemma FirstIsFiled(t: Tools, x: Command, o: Path, c: Contents, k: nat)
    requires Disciplined(t) && Stores(t, x, o, c, k)
    ensures Filed(t, x, FirstRan(t, x, c), o, k) && FirstRan(t, x, c).files[o].content == t.output(x, o, c)
  {
    var ran := FirstRan(t, x, c);
    var after := ContentsOf(ran.files);
    WellBehaved(t);
    RanElsewhere(t, x, c);
    assert t.depTarget(x) == Some(o) && Discovered(t, x, c) == Elems(t.deps(x, c)) by {
      assert t.depTarget(x).value in t.outputs(x);
    }
    assert o in ran.deps && ran.deps[o] == t.deps(x, c);
    assert o in ran.files && ran.files[o].content == t.output(x, o, c);
    hide Disciplined, Deterministic, Reported, Placeable, Snapshot, FirstRan, ContentsOf, Occurring, Agree;
    OwnOutputsAreUnseen(t, x, c, after);
    AgreeingSnapshots(t.deps(x, c), c, after);
  }

  lemma FirstSucceeds(t: Tools, x: Command, o: Path, c: Contents, k: nat)
    requires Disciplined(t) && Stores(t, x, o, c, k)
    ensures EdgeSucceeds(t, x, c, 1, Disk(Sources(c), map[], map[], 1, NO_CACHE), First(t, x, o, c, k))
  {
    FirstIsFiled(t, x, o, c, k);
    hide Disciplined, Stores, Filed, RunEffect, AfterStore, Sources;
    var start := Disk(Sources(c), map[], map[], 1, NO_CACHE);
    assert Runs(t, x, c, 1, start, First(t, x, o, c, k), NO_CACHE);
  }

  /** Cache and clock when it has committed; the rest will be edited or lost. */
  ghost predicate Holds(t: Tools, dir: Dir, k: nat, content: Content)
  {
    && Verified(t.contentHash, dir.cache, k) && dir.cache.objects[k] == content
    && ClockedBy(dir.files, dir.clock) && Occurring(t, ContentsOf(dir.files))
  }

  lemma FirstHolds(t: Tools, x: Command, o: Path, c: Contents, k: nat, dir: Dir)
    requires Disciplined(t) && Stores(t, x, o, c, k)
    requires dir.files == First(t, x, o, c, k).files && dir.cache == First(t, x, o, c, k).cache && dir.clock == 1
    ensures Holds(t, dir, k, t.output(x, o, c))
  {
    WellBehaved(t);
    assert t.known(x) && Occurring(t, c);
    var start := Disk(Sources(c), map[], map[], 1, NO_CACHE);
    assert ContentsOf(start.files) == c;
    assert ClockedBy(dir.files, 1);
    hide Disciplined, Stores, Occurring, OutputsOccur, ContentsOf, RunEffect;
    RunKeepsOccurring(t, x, c, 1, start);
  }

  /** The first run, from a new directory to its commit. */
  lemma FirstRun(t: Tools, x: Command, o: Path, c: Contents, k: nat) returns (dir: Dir)
    requires Disciplined(t) && Printable(t) && Stores(t, x, o, c, k)
    ensures Leads(t, State(NewDir(c), Idle), State(dir, Idle)) && Holds(t, dir, k, t.output(x, o, c))
  {
    var s0 := State(NewDir(c), Idle);
    assert Placeable(t, x) && Occurring(t, c) && t.outputs(x) != {};
    var w := OneEdgeWorld(t, x);
    NewDirIsPristine(t, c);
    var start := Disk(Sources(c), map[], map[], 1, NO_CACHE);
    NothingLogged(t, x, start);
    FirstSucceeds(t, x, o, c, k);
    var d := First(t, x, o, c, k);
    dir := Left(w, x, NewDir(c), d);
    assert dir.files == d.files && dir.cache == d.cache && dir.clock == d.clock == 1;
    hide Disciplined, Printable, Stores, OneEdge, EdgeSucceeds, Calm, Memory, Sources, First, ContentsOf, Pristine,
        Leads, Holds, Placeable, Occurring, Left, Saved;
    FirstHolds(t, x, o, c, k, dir);
    StayPut(t, s0);
    OneRun(w, x, s0, NewDir(c), start, d);
    OneRunCommits(w, x, s0, NewDir(c), start, d);
  }

  // ------------------------------------------------------------------------------------------
  // The second run leaves the record
  // ------------------------------------------------------------------------------------------

  /** The logs get lost; nothing is loaded any more. */
  lemma LogsGetLost(t: Tools, s0: State, dir: Dir) returns (dir': Dir)
    requires Leads(t, s0, State(dir, Idle))
    ensures Leads(t, s0, State(dir', Idle)) && Editable(t, dir', {})
    ensures dir' == dir.(buildLog := Absent, depsLog := Absent, intact := false)
    ensures LoadedLog(dir') == map[] && LoadedDeps(dir') == map[]
  {
    hide Leads;
    dir' := dir.(buildLog := Absent, depsLog := Absent, intact := false);
    OneMore(t, s0, State(dir, Idle), Tamper(Absent, Absent), State(dir', Idle));
    NothingIsRestless(t, {});
  }

  lemma NothingIsRestless(t: Tools, gone: set<Path>)
    ensures Restless(t, map[], gone)
  {
    forall y: Command | t.outputs(y) != {}
      ensures !Logged(t, y, map[])
    {
      var o :| o in t.outputs(y);
    }
  }

  /** What the second run leaves: the record, and a log that vouches for its own command only. */
  ghost predicate LeavesRecord(t: Tools, z: Command, q: Path, b: Contents, dir: Dir, d: Disk)
  {
    && d.log == (map o | o in t.outputs(z) :: t.hash(z)) && d.deps == map[q := t.deps(z, b)]
    && SameEntries(dir.cache, d.cache) && dir.clock < d.clock && ClockedBy(d.files, d.clock)
    && Occurring(t, ContentsOf(d.files))
  }

  /** A run of `z` on the files `b`, without any logs; if it has something to store, the store gets nowhere. */
  lemma SecondRun(t: Tools, z: Command, q: Path, b: Contents, s0: State, dir: Dir) returns (w: World, d: Disk)
    requires Disciplined(t) && Printable(t) && Reports(t, z, q, b)
    requires Leads(t, s0, State(dir, Idle)) && LoadedLog(dir) == map[] && LoadedDeps(dir) == map[]
    requires ContentsOf(dir.files) == b && ClockedBy(dir.files, dir.clock)
    ensures w.tools == t && Leads(t, s0, State(Left(w, z, dir, d), Idle))
    ensures LeavesRecord(t, z, q, b, dir, d) && Writable(d)
  {
    var now := dir.clock + 1;
    var start := Memory(dir, now);
    assert start.log == map[] && start.deps == map[] && start.files == dir.files && start.cache == dir.cache;
    assert Placeable(t, z) && t.known(z) && t.outputs(z) != {};
    WellBehaved(t);
    w := OneEdgeWorld(t, z);
    d := PlainRunSucceeds(t, z, b, now, start);
    SecondIsRecorded(t, z, q, b, dir, start, d);
    NothingIsWritable(start);
    hide Disciplined, Reports, Placeable, Memory, ContentsOf, Leads, OneEdge, Occurring, LeavesRecord, Deterministic,
        Reported, Writable, RunEffect;
    NothingLogged(t, z, start);
    RunIsWritable(t, z, b, now, start);
    WritableLater(RunEffect(t, z, b, now, start), d);
    hide Calm, EdgeSucceeds, Printable, OwnTargets, OutputsOccur, Saved, Left;
    OneRun(w, z, s0, dir, start, d);
    OneRunCommits(w, z, s0, dir, start, d);
  }

  lemma WritableLater(d: Disk, d': Disk)
    requires Writable(d) && d'.log == d.log && d'.deps == d.deps
    ensures Writable(d')
  {
  }

  lemma NothingIsWritable(d: Disk)
    requires d.log == map[] && d.deps == map[]
    ensures Writable(d)
  {
  }

  lemma SecondIsRecorded(t: Tools, z: Command, q: Path, b: Contents, dir: Dir, start: Disk, d: Disk)
    requires Disciplined(t) && Reports(t, z, q, b)
    requires start == Disk(dir.files, map[], map[], dir.clock + 1, dir.cache)
    requires ContentsOf(dir.files) == b && ClockedBy(dir.files, dir.clock)
    requires d == RunEffect(t, z, b, dir.clock + 1, start).(cache := d.cache) && SameEntries(dir.cache, d.cache)
    ensures LeavesRecord(t, z, q, b, dir, d)
  {
    WellBehaved(t);
    assert t.known(z) && Occurring(t, b);
    assert map[] + (map o | o in t.outputs(z) :: t.hash(z)) == (map o | o in t.outputs(z) :: t.hash(z));
    assert ClockedBy(d.files, d.clock);
    hide Occurring, ContentsOf, Disciplined, OutputsOccur, Placeable;
    RunKeepsOccurring(t, z, b, dir.clock + 1, start);
  }

  /** When the file the record belongs to is gone, the log vouches for nothing. */
  lemma RecordOwnerIsGone(t: Tools, z: Command, q: Path, log: map<Path, nat>)
    requires CollisionFree(t) && t.known(z) && q in t.outputs(z)
    requires log == map o | o in t.outputs(z) :: t.hash(z)
    ensures Restless(t, log, {q})
  {
    forall y: Command | t.known(y) && t.outputs(y) != {} && Logged(t, y, log)
      ensures q in t.outputs(y)
    {
      var o :| o in t.outputs(y);
      assert t.hash(y) == log[o] == t.hash(z);
    }
  }

  lemma OwnerIsKnown(t: Tools, z: Command, q: Path, b: Contents)
    requires Disciplined(t) && Reports(t, z, q, b)
    ensures CollisionFree(t) && t.known(z) && q in t.outputs(z) && q !in t.deps(z, b)
  {
    assert t.depTarget(z).value in t.outputs(z);
    assert Discovered(t, z, b) == Elems(t.deps(z, b));
    assert q in t.deps(z, b) ==> q in Elems(t.deps(z, b));
  }

  // ------------------------------------------------------------------------------------------
  // The third run finds the entry
  // ------------------------------------------------------------------------------------------

  /** Where the third run starts: `q` is gone, the other files are as in `d`. */
  ghost predicate Trap(t: Tools, q: Path, record: seq<Path>, d: Contents, k: nat, content: Content, start: Disk)
  {
    && ContentsOf(start.files) == d - {q} && ClockAhead(start)
    && q in start.deps && start.deps[q] == record
    && Verified(t.contentHash, start.cache, k) && start.cache.objects[k] == content
  }

  function Third(t: Tools, y: Command, q: Path, content: Content, start: Disk): Disk
  {
    start.(files := start.files[q := File(content, start.clock)], log := start.log[q := t.hash(y)])
  }

  lemma ThirdSucceeds(t: Tools, y: Command, q: Path, record: seq<Path>, d: Contents, k: nat, content: Content,
                      start: Disk)
    requires Finds(t, y, q, record, d, k) && Trap(t, q, record, d, k, content, start) && q !in record
    ensures EdgeSucceeds(t, y, ContentsOf(start.files), start.clock, start, Third(t, y, q, content, start))
  {
    var seen := ContentsOf(start.files);
    assert Agree(d, seen, Elems(record));
    hide Snapshot, ContentsOf, Agree, Placeable, Occurring, RecordFor, Verified;
    AgreeingSnapshots(record, d, seen);
    assert HasKey(t, y, q, start.deps, seen, k);
    hide HasKey, Finds;
    assert Hits(t, y, seen, start.clock, start, Third(t, y, q, content, start), q, k);
  }

  lemma ThirdIsStale(t: Tools, y: Command, q: Path, d: Contents, content: Content, start: Disk)
    requires Disciplined(t) && Placeable(t, y) && t.outputs(y) == {q}
    requires ContentsOf(start.files) == d - {q} && content != t.output(y, q, d)
    ensures !Consistent(t, y, ContentsOf(Third(t, y, q, content, start).files))
  {
    WellBehaved(t);
    var after := ContentsOf(Third(t, y, q, content, start).files);
    assert after == (d - {q})[q := content] by {
      ContentsUpdated(start.files, q, File(content, start.clock));
    }
    hide Disciplined, Deterministic, Reported, ContentsOf, Placeable;
    OwnOutputsAreUnseen(t, y, d, after);
    assert q in t.outputs(y) && after[q] == content;
  }

  lemma ContentsUpdated(files: Files, q: Path, file: File)
    ensures ContentsOf(files[q := file]) == ContentsOf(files)[q := file.content]
  {
  }

  /** If no declared input is gone, nothing looks wrong afterwards. */
  lemma ThirdIsCalm(t: Tools, y: Command, q: Path, record: seq<Path>, d: Contents, k: nat, content: Content,
                    start: Disk, now: int)
    requires Finds(t, y, q, record, d, k) && Trap(t, q, record, d, k, content, start) && q !in record
    requires t.inputs(y) <= d.Keys
    ensures Calm(t, y, Third(t, y, q, content, start).(clock := now))
  {
    var d' := Third(t, y, q, content, start).(clock := now);
    assert Snapshot(record, d).Some? && t.outputs(y) == {q} && q !in t.inputs(y);
    SnapshotTells(record, d);
    hide Snapshot, Finds, Verified;
    forall p | p in Watched(t, y, d'.deps, q)
      ensures p in d'.files && d'.files[p].mtime <= start.clock
    {
      assert p in d && p != q;
      assert p in ContentsOf(start.files);
    }
    hide Watched;
    assert CalmOutput(t, y, d', q);
  }

  lemma TrapIsNotCalm(t: Tools, y: Command, q: Path, d: Contents, start: Disk)
    requires ContentsOf(start.files) == d - {q} && t.outputs(y) == {q}
    ensures !Calm(t, y, start)
  {
    assert q !in ContentsOf(start.files);
    assert !CalmOutput(t, y, start, q);
  }

  /** A commit after which the only edge of its manifest holds something else than its command would write. */
  ghost predicate CommitsStale(t: Tools, y: Command, inputs: bool, s: State, s': State)
  {
    && CommitStep(s, Commit, s') && s.phase.call.w.tools == t && s.phase.call.w.command == [y]
    && s.phase.made.scope == AllEdges(s.phase.call.w.g)
    && !AllConsistent(s.phase.call.w, s.phase.made.scope, ContentsOf(s'.dir.files))
    && (inputs ==> forall now :: Calm(t, y, Memory(s'.dir, now)))
  }

  lemma StaleFromParts(w: World, y: Command, inputs: bool, dir: Dir, start: Disk, d: Disk)
    requires OneEdge(w, y) && !Consistent(w.tools, y, ContentsOf(d.files)) && Writable(d)
    requires inputs ==> forall now :: Calm(w.tools, y, d.(clock := now))
    ensures CommitsStale(w.tools, y, inputs, Saved(w, y, dir, start, d), State(Left(w, y, dir, d), Idle))
  {
    OneEdgeFacts(w, y);
    assert w.command == [y] && w.command[0] == y;
    SavedCommits(w, y, dir, start, d);
    var s' := State(Left(w, y, dir, d), Idle);
    assert s'.dir.files == d.files;
    forall now
      ensures Memory(s'.dir, now) == d.(clock := now)
    {
      LeftIsLoaded(w, y, dir, d, now);
    }
    hide OneEdge, Consistent, Calm, Memory, AllEdges, Producers, Dependents, CommitStep, ContentsOf, OneEdgeRun.Alone,
        Left, Writable, LogText, DepsText, OneAuthor;
    assert !AllConsistent(w, {0}, ContentsOf(d.files));
  }

  /** The third run and its commit. */
  lemma ThirdRun(t: Tools, y: Command, q: Path, record: seq<Path>, d: Contents, k: nat, content: Content, s0: State,
                 dir: Dir, start: Disk)
    requires Disciplined(t) && Finds(t, y, q, record, d, k) && q !in record && content != t.output(y, q, d)
    requires Leads(t, s0, State(dir, Idle)) && Pristine(t, s0)
    requires dir.clock < start.clock && start == Memory(dir, start.clock)
    requires Trap(t, q, record, d, k, content, start) && Writable(Third(t, y, q, content, start))
    ensures exists s: State, s': State :: Occurs(t, s) && CommitsStale(t, y, t.inputs(y) <= d.Keys, s, s')
  {
    var d' := Third(t, y, q, content, start);
    assert Placeable(t, y) && t.outputs(y) == {q} && ContentsOf(start.files) == d - {q};
    var w := OneEdgeWorld(t, y);
    TrapIsNotCalm(t, y, q, d, start);
    ThirdSucceeds(t, y, q, record, d, k, content, start);
    ThirdIsStale(t, y, q, d, content, start);
    if t.inputs(y) <= d.Keys {
      forall now
        ensures Calm(t, y, d'.(clock := now))
      {
        ThirdIsCalm(t, y, q, record, d, k, content, start, now);
      }
    }
    hide Disciplined, Finds, Trap, OneEdge, EdgeSucceeds, Calm, Memory, ContentsOf, Leads, Pristine, Placeable, Third,
        Writable, Consistent, Saved, Left, CommitsStale;
    OneRun(w, y, s0, dir, start, d');
    LeadsIsOccurring(t, s0, Saved(w, y, dir, start, d'));
    StaleFromParts(w, y, t.inputs(y) <= d.Keys, dir, start, d');
  }

  // ------------------------------------------------------------------------------------------
  // The history
  // ------------------------------------------------------------------------------------------

  /** The edits before the third run. */
  lemma EditsToTrap(t: Tools, z: Command, q: Path, b: Contents, s0: State, w: World, dir: Dir, left: Disk, d: Contents)
    returns (dir': Dir)
    requires Disciplined(t) && Reports(t, z, q, b) && Occurring(t, d)
    requires LeavesRecord(t, z, q, b, dir, left) && Writable(left)
    requires w.tools == t && Leads(t, s0, State(Left(w, z, dir, left), Idle))
    ensures Leads(t, s0, State(dir', Idle)) && ContentsOf(dir'.files) == d - {q}
    ensures ClockedBy(dir'.files, dir'.clock)
    ensures forall now :: Memory(dir', now) == Disk(dir'.files, left.log, left.deps, now, left.cache)
  {
    var dir0 := Left(w, z, dir, left);
    assert dir0.files == left.files && dir0.clock == left.clock && dir0.cache == left.cache;
    LeftIsLoaded(w, z, dir, left, 0);
    OwnerIsKnown(t, z, q, b);
    RecordOwnerIsGone(t, z, q, left.log);
    hide Disciplined, Reports, Writable, Leads, Restless, Left, CollisionFree;
    var dir1 := Removed(t, s0, dir0, q);
    EditableWithout(t, dir0, dir1, q, left.log);
    LessOccurs(t, d, q);
    assert ClockedBy(dir1.files, dir1.clock);
    hide Editable, Occurring, ContentsOf, ClockedBy, Memory;
    dir' := EditTo(t, s0, dir1, d - {q}, {q});
    SameLogs(dir0, dir', 0);
    forall now
      ensures Memory(dir', now) == Disk(dir'.files, left.log, left.deps, now, left.cache)
    {
      SameLogs(dir0, dir', now);
    }
  }

  lemma EditableWithout(t: Tools, dir: Dir, dir': Dir, q: Path, log: map<Path, nat>)
    requires dir' == dir.(files := dir.files - {q}) && Restless(t, log, {q}) && Memory(dir, 0).log == log
    ensures Editable(t, dir', {q})
  {
    hide Restless, BuildLog.Parse, DepsLog.Parse;
  }

  lemma LessOccurs(t: Tools, c: Contents, q: Path)
    requires Occurring(t, c)
    ensures Occurring(t, c - {q})
  {
  }

  /** Files and clock apart, what is loaded depends on neither. */
  lemma SameLogs(dir: Dir, dir': Dir, now: int)
    requires dir' == dir.(files := dir'.files, clock := dir'.clock)
    ensures Memory(dir', now) == Memory(dir, 0).(files := dir'.files, clock := now)
  {
    hide BuildLog.Parse, DepsLog.Parse;
  }

  lemma StoredIsWritable(t: Tools, y: Command, q: Path, content: Content, start: Disk)
    requires Printable(t) && t.known(y) && q in t.outputs(y) && Writable(start)
    ensures Writable(Third(t, y, q, content, start))
  {
    hide DepsLog.Clean;
  }

  /** Runs one and two, and the edits before the third. */
  lemma LeadsToTrap(t: Tools, x: Command, o: Path, c: Contents, z: Command, q: Path, b: Contents, d: Contents, k: nat)
    returns (dir: Dir, start: Disk)
    requires Disciplined(t) && Printable(t) && Stores(t, x, o, c, k) && Reports(t, z, q, b) && Occurring(t, d)
    ensures Leads(t, State(NewDir(c), Idle), State(dir, Idle))
    ensures dir.clock < start.clock && start == Memory(dir, start.clock) && Writable(start)
    ensures Trap(t, q, t.deps(z, b), d, k, t.output(x, o, c), start)
  {
    var s0 := State(NewDir(c), Idle);
    var dir1 := FirstRun(t, x, o, c, k);
    assert Occurring(t, b);
    hide Disciplined, Printable, Stores, Reports, Leads, Occurring, ContentsOf, Editable, Memory;
    var dir2 := LogsGetLost(t, s0, dir1);
    hide ClockedBy, LoadedLog, LoadedDeps;
    var dir3 := EditTo(t, s0, dir2, b, {});
    LoadsTheSame(dir2, dir3);
    var w, left := SecondRun(t, z, q, b, s0, dir3);
    dir := EditsToTrap(t, z, q, b, s0, w, dir3, left, d);
    start := Memory(dir, dir.clock + 1);
    WritableLater(left, start);
    assert start == Disk(dir.files, left.log, left.deps, dir.clock + 1, left.cache);
    hide Writable, Leads, Memory;
    StartsInTrap(t, z, q, b, d, k, t.output(x, o, c), dir1, dir3, left, dir, start);
  }

  lemma LoadsTheSame(dir: Dir, dir': Dir)
    requires dir' == dir.(files := dir'.files, clock := dir'.clock)
    ensures LoadedLog(dir') == LoadedLog(dir) && LoadedDeps(dir') == LoadedDeps(dir)
  {
  }

  lemma StartsInTrap(t: Tools, z: Command, q: Path, b: Contents, d: Contents, k: nat, content: Content, dir1: Dir,
                     dir3: Dir, left: Disk, dir: Dir, start: Disk)
    requires Holds(t, dir1, k, content) && dir3.cache == dir1.cache
    requires LeavesRecord(t, z, q, b, dir3, left)
    requires ContentsOf(dir.files) == d - {q} && ClockedBy(dir.files, dir.clock)
    requires start == Disk(dir.files, left.log, left.deps, dir.clock + 1, left.cache)
    ensures Trap(t, q, t.deps(z, b), d, k, content, start)
  {
    hide Occurring, ContentsOf, Describe;
  }

  /**
   Whatever run stores the entry and whatever run leaves the record, if a third command finds the entry although it
   would write something else, some history commits it; and if all declared inputs of the command are there, the checks
   let the wrong output pass from then on.
   */
  lemma StaleHitIsCommitted(t: Tools, x: Command, o: Path, c: Contents, y: Command, q: Path, record: seq<Path>,
                            d: Contents, k: nat)
    requires Disciplined(t) && Printable(t) && Stores(t, x, o, c, k) && Finds(t, y, q, record, d, k)
    requires t.output(y, q, d) != t.output(x, o, c)
    ensures exists s: State, s': State :: Occurs(t, s) && CommitsStale(t, y, t.inputs(y) <= d.Keys, s, s')
  {
    var z: Command, b: Contents :| Reports(t, z, q, b) && record == t.deps(z, b);
    assert Occurring(t, d) && t.known(y) && q in t.outputs(y) && Occurring(t, c);
    NewDirIsPristine(t, c);
    OwnerIsKnown(t, z, q, b);
    var dir, start := LeadsToTrap(t, x, o, c, z, q, b, d, k);
    hide Disciplined, Printable, Stores, Finds, Reports, Occurring, Leads, Pristine, Memory, Trap, Writable,
        CommitsStale;
    StoredIsWritable(t, y, q, t.output(x, o, c), start);
    ThirdRun(t, y, q, record, d, k, t.output(x, o, c), State(NewDir(c), Idle), dir, start);
  }
}
