/**
 What holds after every step of every history: what may be read is true. In the absence of the marker the two
 logs belong together and say who wrote what, and whatever they let the builder skip is up to date.
 */
module HistoryInvariant {
  import opened Prelude
  import opened Graphs
  import opened World
  import opened Cache
  import opened CachedEdges
  import opened Builder
  import opened SchedulerSteps
  import opened Execution
  import opened ScheduledBuild
  import opened Incremental
  import opened LineFormat
  import opened History
  import BuildLog
  import DepsLog

  /** Names and hashes that the log formats can hold. */
  ghost predicate Printable(t: Tools)
  {
    && (forall x: Command, o :: t.known(x) && o in t.outputs(x) ==> BuildLog.CleanPath(o))
    && (forall x: Command :: t.known(x) ==> t.hash(x) < TWO_TO_THE_64)
    && (forall x: Command, c: Contents :: t.known(x) ==> DepsLog.CleanNames(t.deps(x, c)))
  }

  /** Every entry is the hash of the command that last wrote that output. */
  ghost predicate LogIsTrue(t: Tools, log: map<Path, nat>, author: map<Path, Command>)
  {
    forall o :: o in log ==>
      o in author && t.known(author[o]) && o in t.outputs(author[o]) && log[o] == t.hash(author[o])
  }

  /** Everything on disk is accounted for, and if no hit can be stale, what may be skipped is up to date. */
  ghost predicate Trustworthy(t: Tools, d: Disk)
  {
    Accountable(t, d) && (NoStaleHits(t) ==> Sound(t, d))
  }

  /** What a process may believe about the directory. */
  ghost predicate Credible(t: Tools, dir: Dir, d: Disk)
  {
    && d.files == dir.files && d.clock == dir.clock && d.cache == dir.cache && ClockAhead(d)
    && LogIsTrue(t, d.log, dir.author) && DepsLog.Clean(d.deps) && Trustworthy(t, d)
  }

  ghost predicate Paired(dir: Dir)
  {
    && (Trusted(dir) ==> dir.logRun == dir.depsRun)
    && (!dir.marker && dir.intact ==> Trusted(dir) || (dir.buildLog.Absent? && dir.depsLog.Absent?))
  }

  /** What is on disk between runs. */
  ghost predicate DirOk(t: Tools, dir: Dir)
  {
    Paired(dir) && Credible(t, dir, Memory(dir, dir.clock))
  }

  ghost predicate CallOk(t: Tools, call: Call)
  {
    ValidWorld(call.w) && call.w.tools == t && call.jobs > 0
  }

  ghost predicate MadeOk(t: Tools, call: Call, made: Made)
  {
    && PlannedFor(call, made) && ClockAhead(made.start) && ClockPast(made.start) && Trustworthy(t, made.start)
  }

  /** What holds from the marker to the commit. */
  ghost predicate Underway(t: Tools, dir: Dir, call: Call, made: Made, d: Disk)
  {
    && dir.marker && CallOk(t, call) && MadeOk(t, call, made) && Credible(t, dir, d)
    && Built(call.w, made.plan, call.jobs, made.start, d)
  }

  ghost predicate PhaseOk(t: Tools, s: State)
  {
    match s.phase
    case Idle => true
    case Loaded(call, d) => CallOk(t, call) && Credible(t, s.dir, d) && ClockPast(d)
    case Ready(call, made) => CallOk(t, call) && MadeOk(t, call, made) && Credible(t, s.dir, made.start)
    case Marked(call, made) =>
      s.dir.marker && CallOk(t, call) && MadeOk(t, call, made) && Credible(t, s.dir, made.start)
    case Executed(call, made, d) => Underway(t, s.dir, call, made, d)
    case DepsSaved(call, made, d) =>
      && Underway(t, s.dir, call, made, d)
      && DepsLog.Parse(s.dir.depsLog) == Good(d.deps) && s.dir.depsRun == s.dir.runs
    case LogSaved(call, made, d) =>
      && Underway(t, s.dir, call, made, d)
      && DepsLog.Parse(s.dir.depsLog) == Good(d.deps) && s.dir.depsRun == s.dir.runs
      && BuildLog.Parse(s.dir.buildLog) == Good(d.log) && s.dir.logRun == s.dir.runs
  }

  ghost predicate Ok(t: Tools, s: State)
  {
    DirOk(t, s.dir) && PhaseOk(t, s)
  }

  // ------------------------------------------------------------------------------------------
  // Nothing loaded
  // ------------------------------------------------------------------------------------------

  /** Without logs every command that has outputs has a reason to run. */
  lemma EmptyLogsAreSound(t: Tools, d: Disk)
    requires d.log == map[]
    ensures Sound(t, d)
  {
    hide UpToDate;
    forall x: Command | t.outputs(x) != {}
      ensures !Calm(t, x, d)
    {
      var o :| o in t.outputs(x);
      assert !CalmOutput(t, x, d, o);
    }
  }

  /** All that is asked of a directory apart from its logs. */
  ghost predicate Tidy(t: Tools, dir: Dir)
  {
    && (forall p :: p in dir.files ==> dir.files[p].mtime <= dir.clock)
    && Occurring(t, ContentsOf(dir.files)) && CacheOk(t, dir.cache)
  }

  lemma UntrustedIsOk(t: Tools, dir: Dir)
    requires !Trusted(dir) && Paired(dir) && Tidy(t, dir)
    ensures DirOk(t, dir)
  {
    EmptyLogsAreSound(t, Memory(dir, dir.clock));
    hide Trusted, Paired, Sound, CacheOk, NoStaleHits, Occurring, RecordFor;
  }

  lemma CredibleIsTidy(t: Tools, dir: Dir, d: Disk)
    requires Credible(t, dir, d)
    ensures Tidy(t, dir)
  {
    hide Sound, LogIsTrue, DepsLog.Clean, CacheOk, NoStaleHits, Occurring, RecordsKnown;
  }

  lemma DirIsTidy(t: Tools, dir: Dir)
    requires DirOk(t, dir)
    ensures Tidy(t, dir)
  {
    hide Credible, Paired, Tidy;
    CredibleIsTidy(t, dir, Memory(dir, dir.clock));
  }

  lemma PristineIsOk(t: Tools, s: State)
    requires Pristine(t, s)
    ensures Ok(t, s)
  {
    hide CacheOk, DirOk, Occurring;
    EmptyCacheIsOk(t);
    UntrustedIsOk(t, s.dir);
  }

  // ------------------------------------------------------------------------------------------
  // Edits and deletions
  // ------------------------------------------------------------------------------------------

  /** One file changed: it is gone, or newer than everything and nobody's, and holds what occurs in the history. */
  ghost predicate Changed(t: Tools, d: Disk, d': Disk, p: Path)
  {
    && d'.log == d.log && d'.deps == d.deps && d.clock <= d'.clock
    && (forall q :: q != p ==> SameFile(d.files, d'.files, q))
    && (p in d'.files ==> d.clock < d'.files[p].mtime <= d'.clock && t.occurs(d'.files[p].content))
    && (p in d'.files ==> Unvouched(t, d', p))
  }

  /** A command that stays calm neither wrote nor watched the file. */
  lemma CalmMissedNothing(t: Tools, x: Command, d: Disk, d': Disk, p: Path)
    requires Changed(t, d, d', p) && ClockAhead(d) && t.known(x) && Calm(t, x, d')
    ensures Calm(t, x, d)
    ensures forall o :: o in t.outputs(x) ==> o != p && p !in Watched(t, x, d.deps, o)
  {
    NotTheOwner(t, x, d, d', p);
    hide Watched, Unvouched;
    forall o | o in t.outputs(x)
      ensures o != p && p !in Watched(t, x, d.deps, o) && CalmOutput(t, x, d, o)
    {
      assert CalmOutput(t, x, d', o);
      assert Watched(t, x, d'.deps, o) == Watched(t, x, d.deps, o);
      assert SameFile(d.files, d'.files, o);
      forall q | q in Watched(t, x, d.deps, o)
        ensures q != p && SameFile(d.files, d'.files, q)
      {
      }
    }
  }

  lemma NotTheOwner(t: Tools, x: Command, d: Disk, d': Disk, p: Path)
    requires Changed(t, d, d', p) && t.known(x) && Calm(t, x, d')
    ensures p !in t.outputs(x)
  {
    hide SameFile;
    assert p in t.outputs(x) ==> CalmOutput(t, x, d', p);
  }

  lemma ChangeKeepsOccurring(t: Tools, d: Disk, d': Disk, p: Path)
    requires Changed(t, d, d', p) && Occurring(t, ContentsOf(d.files))
    ensures Occurring(t, ContentsOf(d'.files))
  {
    hide Occurring, ContentsOf, Unvouched;
    forall q | q in d'.files
      ensures t.occurs(d'.files[q].content)
    {
      if q != p {
        assert SameFile(d.files, d'.files, q);
        OccursThere(t, d.files, q);
      }
    }
    OccursEverywhere(t, d'.files);
  }

  lemma ChangeKeepsSound(t: Tools, d: Disk, d': Disk, p: Path)
    requires Disciplined(t) && Changed(t, d, d', p) && ClockAhead(d) && Sound(t, d)
    requires NoStaleHits(t) && Occurring(t, ContentsOf(d.files))
    ensures Sound(t, d')
  {
    ChangeKeepsOccurring(t, d, d', p);
    assert Reliable(t, d, d');
    hide Calm, UpToDate, Watched, Disciplined, Relied, Reliable, NoStaleHits, Occurring, ContentsOf, Unvouched;
    forall x: Command | t.known(x) && t.outputs(x) != {} && Calm(t, x, d')
      ensures UpToDate(t, x, d')
    {
      CalmMissedNothing(t, x, d, d', p);
      forall q | q in Relied(t, x, d)
        ensures q != p
      {
        if q !in t.outputs(x) {
          ReliedIsWatched(t, x, d, q);
        }
      }
      UpToDateTransfers(t, x, d, d');
    }
  }

  lemma ChangeKeepsDir(t: Tools, dir: Dir, dir': Dir, p: Path)
    requires Disciplined(t) && DirOk(t, dir)
    requires dir' == dir.(files := dir'.files, clock := dir'.clock)
    requires Changed(t, Memory(dir, dir.clock), Memory(dir', dir'.clock), p)
    ensures DirOk(t, dir')
  {
    var d, d' := Memory(dir, dir.clock), Memory(dir', dir'.clock);
    hide Disciplined, Sound, LogIsTrue, BuildLog.Parse, DepsLog.Parse, Changed, ClockAhead, CacheOk, NoStaleHits,
        Occurring, RecordsKnown, ContentsOf;
    ChangeKeepsOccurring(t, d, d', p);
    if NoStaleHits(t) {
      ChangeKeepsSound(t, d, d', p);
    }
    CredibleAfterChange(t, dir, dir', d, d', p);
  }

  lemma CredibleAfterChange(t: Tools, dir: Dir, dir': Dir, d: Disk, d': Disk, p: Path)
    requires Credible(t, dir, d) && Changed(t, d, d', p) && (NoStaleHits(t) ==> Sound(t, d'))
    requires Occurring(t, ContentsOf(d'.files))
    requires dir'.author == dir.author && d'.files == dir'.files && d'.clock == dir'.clock
    requires d'.cache == dir'.cache == dir.cache
    ensures Credible(t, dir', d')
  {
    hide Sound, LogIsTrue, CacheOk, NoStaleHits, Occurring, RecordsKnown, ContentsOf, Unvouched;
    forall q | q in d'.files
      ensures d'.files[q].mtime <= d'.clock
    {
      if q != p {
        assert SameFile(d.files, d'.files, q);
      }
    }
  }

  // ------------------------------------------------------------------------------------------
  // The commands ran
  // ------------------------------------------------------------------------------------------

  lemma MadeHasOutcome(t: Tools, call: Call, made: Made, d: Disk)
    requires CallOk(t, call) && MadeOk(t, call, made) && Built(call.w, made.plan, call.jobs, made.start, d)
    requires NoStaleHits(t)
    ensures Outcome(call.w, made.scope, Elems(made.plan), made.start, d)
  {
    hide ValidWorld, Planned, Built, ClockAhead, InScope, Outcome, Sound, ClockPast, Accountable, NoStaleHits;
    OutcomeOf(call.w, made.scope, made.plan, call.jobs, made.start, d);
  }

  lemma MadeIsTraced(t: Tools, call: Call, made: Made, d: Disk)
    requires CallOk(t, call) && MadeOk(t, call, made) && Built(call.w, made.plan, call.jobs, made.start, d)
    ensures Traced(call.w, made.scope, Elems(made.plan), made.start, d)
  {
    hide ValidWorld, Planned, Built, ClockAhead, InScope, Traced, Trustworthy, ClockPast;
    BuildIsTraced(call.w, made.scope, made.plan, call.jobs, made.start, d);
  }

  /** Wherever the run ends, everything is accounted for. */
  lemma MadeStaysAccountable(t: Tools, call: Call, made: Made, d: Disk)
    requires CallOk(t, call) && MadeOk(t, call, made)
    requires exists sys :: Reachable(call.w, made.plan, call.jobs, made.start, sys) && sys.disk == d
    ensures Accountable(t, d)
  {
    PlannedIsSealed(call.w, made.start, made.scope, made.plan);
    hide Valid, Acyclic, Disciplined, Ordered, Planned, Reachable, ClockAhead, InScope, Sound, ClockPast, Sealed,
        Accountable, NoStaleHits;
    assert Runnable(call.w, made.plan, call.jobs);
    var sys :| Reachable(call.w, made.plan, call.jobs, made.start, sys) && sys.disk == d;
    StaysAccountable(call.w, made.plan, made.scope, call.jobs, made.start, sys);
  }

  /** The log of a finished run names the authors of all planned outputs, and of the rest as before. */
  lemma LogStaysTrue(w: World, C: set<EdgeId>, P: set<EdgeId>, d0: Disk, d: Disk,
                     author: map<Path, Command>, author': map<Path, Command>)
    requires ValidWorld(w) && Traced(w, C, P, d0, d) && Authored(w, P, author, author')
    requires LogIsTrue(w.tools, d0.log, author)
    ensures LogIsTrue(w.tools, d.log, author')
  {
    hide ValidWorld, Sealed, OutputsOf, Stamped, Calm, RecordsExplained, ClockAhead;
    forall o | o in d.log
      ensures o in author' && w.tools.known(author'[o]) && o in w.tools.outputs(author'[o]) &&
              d.log[o] == w.tools.hash(author'[o])
    {
      if o in OutputsOf(w, P) {
        PlannedEntry(w, C, P, d0, d, o, author, author');
      } else {
        assert SameAt(d0, d, o);
      }
    }
  }

  lemma PlannedEntry(w: World, C: set<EdgeId>, P: set<EdgeId>, d0: Disk, d: Disk, o: Path,
                     author: map<Path, Command>, author': map<Path, Command>)
    requires ValidWorld(w) && Traced(w, C, P, d0, d) && Authored(w, P, author, author') && o in OutputsOf(w, P)
    ensures o in author' && w.tools.known(author'[o]) && o in w.tools.outputs(author'[o])
    ensures o in d.log && d.log[o] == w.tools.hash(author'[o])
  {
    hide ValidWorld, OutputsOf, Traced, AuthorsOutside;
    var f := PlannedWriter(w, P, o);
    PlannedIsLogged(w, C, P, d0, d, f, o);
    hide *;
    assert o in author' && author'[o] == w.command[f];
  }

  lemma PlannedWriter(w: World, P: set<EdgeId>, o: Path) returns (f: EdgeId)
    requires ValidWorld(w) && o in OutputsOf(w, P)
    ensures f in P && f < |w.command| && o in w.tools.outputs(w.command[f]) && w.tools.known(w.command[f])
  {
    hide Acyclic, Disciplined, Ordered, OutputsOf;
    f := WrittenBy(w, P, o);
  }

  lemma PlannedIsLogged(w: World, C: set<EdgeId>, P: set<EdgeId>, d0: Disk, d: Disk, f: EdgeId, o: Path)
    requires Traced(w, C, P, d0, d) && f in P && f < |w.command| && o in w.tools.outputs(w.command[f])
    ensures o in d.log && d.log[o] == w.tools.hash(w.command[f])
  {
    hide Sealed, OutsideKept, RecordsExplained, TimesOk, WrittenSince, Calm;
  }

  lemma KnownCommand(w: World, P: set<EdgeId>, C: set<EdgeId>, e: EdgeId)
    requires Declared(w) && Sealed(w.g, P, C) && e in P
    ensures e < |w.command| && w.tools.known(w.command[e])
  {
    EdgesOfPlan(w.g, P, C, e);
  }

  lemma RecordsStayClean(w: World, C: set<EdgeId>, P: set<EdgeId>, d0: Disk, d: Disk)
    requires ValidWorld(w) && Traced(w, C, P, d0, d) && Printable(w.tools) && DepsLog.Clean(d0.deps)
    ensures DepsLog.Clean(d.deps)
  {
    hide Valid, Acyclic, Ordered, Declared, Sealed, OutputsOf, ClockAhead, DepsLog.CleanNames, Stamped, OutsideKept,
        Calm;
    hide Deterministic, Reported, CollisionFree, OutputsOccur;
    forall o | o in d.deps
      ensures DepsLog.CleanName(o) && DepsLog.CleanNames(d.deps[o])
    {
      if !SameRecord(d0.deps, d.deps, o) {
        var e: EdgeId, c: Contents :| e in P && e < |w.command| && w.tools.depTarget(w.command[e]) == Some(o) &&
          d.deps[o] == w.tools.deps(w.command[e], c);
        KnownCommand(w, P, C, e);
        assert BuildLog.CleanPath(o);
      }
    }
  }

  lemma RunIsCredible(t: Tools, dir: Dir, dir': Dir, call: Call, made: Made, d: Disk)
    requires Printable(t) && CallOk(t, call) && MadeOk(t, call, made) && Credible(t, dir, made.start)
    requires Built(call.w, made.plan, call.jobs, made.start, d)
    requires Authored(call.w, Elems(made.plan), dir.author, dir'.author)
    requires dir'.files == d.files && dir'.clock == d.clock && dir'.cache == d.cache
    ensures Credible(t, dir', d)
  {
    MadeIsTraced(t, call, made, d);
    RunIsTrustworthy(t, call, made, d);
    var w, C, P := call.w, made.scope, Elems(made.plan);
    hide ValidWorld, PlannedFor, Built, Printable, Authored, LogIsTrue, DepsLog.Clean, Trustworthy, ClockAhead,
        ClockPast;
    assert ClockAhead(d);
    hide Traced;
    LogStaysTrue(w, C, P, made.start, d, dir.author, dir'.author);
    RecordsStayClean(w, C, P, made.start, d);
  }

  lemma RunIsTrustworthy(t: Tools, call: Call, made: Made, d: Disk)
    requires CallOk(t, call) && MadeOk(t, call, made) && Built(call.w, made.plan, call.jobs, made.start, d)
    ensures Trustworthy(t, d)
  {
    BuiltIsReached(call.w, made.plan, call.jobs, made.start, d);
    MadeStaysAccountable(t, call, made, d);
    if NoStaleHits(t) {
      MadeHasOutcome(t, call, made, d);
      hide ValidWorld, PlannedFor, Built, ClockAhead, Outcome, Sound, Accountable, NoStaleHits;
      SuccessKeepsSound(call.w, made.scope, Elems(made.plan), made.start, d);
    }
  }

  lemma BuiltIsReached(w: World, plan: seq<EdgeId>, jobs: nat, d0: Disk, d: Disk)
    requires Built(w, plan, jobs, d0, d)
    ensures exists sys :: Reachable(w, plan, jobs, d0, sys) && sys.disk == d
  {
    hide Reachable;
  }

  lemma MarkedIsUntrusted(t: Tools, dir: Dir)
    requires dir.marker && Tidy(t, dir)
    ensures DirOk(t, dir)
  {
    UntrustedIsOk(t, dir);
  }

  // ------------------------------------------------------------------------------------------
  // Every step
  // ------------------------------------------------------------------------------------------

  lemma OutsideKeepsOk(t: Tools, s: State, a: Action, s': State)
    requires Disciplined(t) && Ok(t, s) && OutsideStep(t, s, a, s')
    ensures Ok(t, s')
  {
    hide Disciplined, Unvouched, DirOk, Memory, BuildLog.Parse, DepsLog.Parse, Decayed;
    match a
    case Edit(p, content, now) =>
      EditChanges(t, s.dir, p, content, now);
      ChangeKeepsDir(t, s.dir, s'.dir, p);
    case Delete(p) =>
      DeleteChanges(t, s.dir, p);
      ChangeKeepsDir(t, s.dir, s'.dir, p);
    case Tamper(buildLog, depsLog) => TamperKeepsDir(t, s.dir, s'.dir, buildLog, depsLog);
    case Decay(cache) => DecayKeepsDir(t, s.dir, cache);
  }

  lemma TamperKeepsDir(t: Tools, dir: Dir, dir': Dir, buildLog: Stored, depsLog: Stored)
    requires DirOk(t, dir) && dir' == dir.(buildLog := buildLog, depsLog := depsLog, intact := false)
    requires !(BuildLog.Parse(buildLog).Good? && DepsLog.Parse(depsLog).Good?)
    ensures DirOk(t, dir')
  {
    DirIsTidy(t, dir);
    hide Credible, CacheOk, BuildLog.Parse, DepsLog.Parse, Occurring, ContentsOf;
    UntrustedIsOk(t, dir');
  }

  lemma DecayKeepsDir(t: Tools, dir: Dir, cache: Cache)
    requires DirOk(t, dir) && Decayed(t.contentHash, dir.cache, cache)
    ensures DirOk(t, dir.(cache := cache))
  {
    hide NoStaleHits, Occurring, RecordsKnown, ContentsOf;
    DecayKeepsOk(t, dir.cache, cache);
    if NoStaleHits(t) {
      SoundIgnoresCache(t, Memory(dir, dir.clock), cache);
    }
    hide Sound, LogIsTrue, DepsLog.Clean, BuildLog.Parse, DepsLog.Parse, CacheOk, Decayed;
  }

  lemma SoundIgnoresCache(t: Tools, d: Disk, cache: Cache)
    requires Sound(t, d)
    ensures Sound(t, d.(cache := cache))
  {
    hide UpToDate, Calm;
    forall x: Command
      ensures Calm(t, x, d.(cache := cache)) ==> Calm(t, x, d)
      ensures UpToDate(t, x, d) ==> UpToDate(t, x, d.(cache := cache))
    {
      SameExceptCache(t, x, d, cache);
    }
  }

  lemma SameExceptCache(t: Tools, x: Command, d: Disk, cache: Cache)
    ensures Calm(t, x, d.(cache := cache)) ==> Calm(t, x, d)
    ensures UpToDate(t, x, d) ==> UpToDate(t, x, d.(cache := cache))
  {
    hide Consistent, Watched;
    if Calm(t, x, d.(cache := cache)) {
      forall o | o in t.outputs(x)
        ensures CalmOutput(t, x, d, o)
      {
        assert CalmOutput(t, x, d.(cache := cache), o);
      }
    }
  }

  lemma DeleteChanges(t: Tools, dir: Dir, p: Path)
    ensures Changed(t, Memory(dir, dir.clock), Memory(dir.(files := dir.files - {p}), dir.clock), p)
  {
    hide BuildLog.Parse, DepsLog.Parse, Unvouched;
  }

  lemma EditChanges(t: Tools, dir: Dir, p: Path, content: Content, now: int)
    requires dir.clock < now && t.occurs(content)
    requires Unvouched(t, Memory(dir.(files := dir.files[p := File(content, now)], clock := now), now), p)
    ensures Changed(t, Memory(dir, dir.clock),
                    Memory(dir.(files := dir.files[p := File(content, now)], clock := now), now), p)
  {
    hide BuildLog.Parse, DepsLog.Parse, Unvouched;
  }

  lemma PrepareKeepsOk(t: Tools, s: State, a: Action, s': State)
    requires Ok(t, s) && PrepareStep(t, s, a, s')
    ensures Ok(t, s')
  {
    hide ValidWorld, PlannedFor, LogIsTrue, DepsLog.Clean, BuildLog.Parse, DepsLog.Parse, Accountable, NoStaleHits;
    match a
    case Begin(call, now) => BeginKeepsOk(t, s.dir, s'.dir, now);
    case Plan(scope, plan) =>
    case NothingToBuild(scope) =>
    case Mark =>
      hide Trustworthy, Paired;
      DirIsTidy(t, s.dir);
      MarkedIsUntrusted(t, s'.dir);
  }

  lemma BeginKeepsOk(t: Tools, dir: Dir, dir': Dir, now: int)
    requires DirOk(t, dir) && dir.clock < now && dir' == dir.(clock := now)
    ensures DirOk(t, dir') && Credible(t, dir', Memory(dir, now)) && ClockPast(Memory(dir, now))
  {
    hide LogIsTrue, DepsLog.Clean, BuildLog.Parse, DepsLog.Parse, UpToDate, Calm, CacheOk, NoStaleHits, RecordsKnown,
        Occurring, ContentsOf;
    if NoStaleHits(t) {
      LaterIsSound(t, Memory(dir, dir.clock), now);
    }
  }

  /** Soundness does not look at the clock. */
  lemma LaterIsSound(t: Tools, d: Disk, now: int)
    requires Sound(t, d)
    ensures Sound(t, d.(clock := now))
  {
    hide UpToDate, Calm;
    forall x: Command
      ensures Calm(t, x, d.(clock := now)) ==> Calm(t, x, d)
      ensures UpToDate(t, x, d) ==> UpToDate(t, x, d.(clock := now))
    {
      SameExceptClock(t, x, d, now);
    }
  }

  lemma SameExceptClock(t: Tools, x: Command, d: Disk, now: int)
    ensures Calm(t, x, d.(clock := now)) ==> Calm(t, x, d)
    ensures UpToDate(t, x, d) ==> UpToDate(t, x, d.(clock := now))
  {
    hide Consistent, Watched;
    if Calm(t, x, d.(clock := now)) {
      forall o | o in t.outputs(x)
        ensures CalmOutput(t, x, d, o)
      {
        assert CalmOutput(t, x, d.(clock := now), o);
      }
    }
  }

  lemma ExecuteKeepsOk(t: Tools, s: State, a: Action, s': State)
    requires Printable(t) && Ok(t, s) && ExecuteStep(s, a, s')
    ensures Ok(t, s')
  {
    hide Printable, Built, ValidWorld, Credible, Authored, AuthorsOutside, DirOk, MadeOk;
    match a
    case Run(d) =>
      RunIsCredible(t, s.dir, s'.dir, s.phase.call, s.phase.made, d);
      CredibleIsTidy(t, s'.dir, d);
      hide Tidy;
      MarkedIsUntrusted(t, s'.dir);
    case Break(d) =>
      BreakClock(t, s.phase.call, s.phase.made, d);
      MadeStaysAccountable(t, s.phase.call, s.phase.made, d);
      hide CacheOk, Occurring, RecordsKnown, ContentsOf;
      MarkedIsUntrusted(t, s'.dir);
  }

  /** Wherever the run broke off, the clock is past every file. */
  lemma BreakClock(t: Tools, call: Call, made: Made, d: Disk)
    requires CallOk(t, call) && MadeOk(t, call, made)
    requires exists sys :: Reachable(call.w, made.plan, call.jobs, made.start, sys) && sys.disk == d
    ensures ClockAhead(d)
  {
    PlannedIsSealed(call.w, made.start, made.scope, made.plan);
    hide Valid, Acyclic, Disciplined, Ordered, Planned, Reachable, ClockAhead, InScope, Trustworthy, ClockPast, Sealed;
    assert Runnable(call.w, made.plan, call.jobs);
    var sys :| Reachable(call.w, made.plan, call.jobs, made.start, sys) && sys.disk == d;
    OnlyPlannedOutputsChange(call.w, made.plan, made.scope, call.jobs, made.start, sys);
  }

  lemma SaveDepsKeepsOk(t: Tools, s: State, text: string, s': State)
    requires Ok(t, s) && CommitStep(s, SaveDeps(text), s')
    ensures Ok(t, s')
  {
    hide Built, ValidWorld, MadeOk, Credible, DirOk, BuildLog.Parse, DepsLog.Parse, DepsLog.IsTextOf;
    DepsComeBack(t, s.dir, s.phase.d, text);
    UnderwayIsOk(t, s.dir, s'.dir, s.phase.call, s.phase.made, s.phase.d);
  }

  lemma SaveLogKeepsOk(t: Tools, s: State, text: string, s': State)
    requires Printable(t) && Ok(t, s) && CommitStep(s, SaveLog(text), s')
    ensures Ok(t, s')
  {
    hide Built, ValidWorld, MadeOk, Credible, DirOk, Printable, BuildLog.Parse, DepsLog.Parse, BuildLog.IsTextOf;
    LogComesBack(t, s.dir, s.phase.d, text);
    UnderwayIsOk(t, s.dir, s'.dir, s.phase.call, s.phase.made, s.phase.d);
  }

  lemma RemovalKeepsOk(t: Tools, s: State, s': State)
    requires Ok(t, s) && CommitStep(s, Commit, s')
    ensures Ok(t, s')
  {
    hide Built, ValidWorld, MadeOk, DirOk, BuildLog.Parse, DepsLog.Parse, Trustworthy, LogIsTrue, DepsLog.Clean;
    CommittedIsOk(t, s'.dir, s.phase.d);
  }

  lemma CommitKeepsOk(t: Tools, s: State, a: Action, s': State)
    requires Printable(t) && Ok(t, s) && CommitStep(s, a, s')
    ensures Ok(t, s')
  {
    hide Ok, Printable, BuildLog.IsTextOf, DepsLog.IsTextOf;
    match a
    case SaveDeps(text) => SaveDepsKeepsOk(t, s, text, s');
    case SaveLog(text) => SaveLogKeepsOk(t, s, text, s');
    case Commit => RemovalKeepsOk(t, s, s');
  }

  lemma UnderwayIsOk(t: Tools, dir: Dir, dir': Dir, call: Call, made: Made, d: Disk)
    requires Underway(t, dir, call, made, d)
    requires dir'.files == dir.files && dir'.clock == dir.clock && dir'.author == dir.author && dir'.marker
    requires dir'.cache == dir.cache
    ensures Underway(t, dir', call, made, d) && DirOk(t, dir')
  {
    hide Built, ValidWorld, MadeOk, Trustworthy, LogIsTrue, DepsLog.Clean, DirOk, CallOk;
    assert Credible(t, dir', d);
    CredibleIsTidy(t, dir', d);
    MarkedIsUntrusted(t, dir');
  }

  lemma DepsComeBack(t: Tools, dir: Dir, d: Disk, text: string)
    requires Credible(t, dir, d)
    requires DepsLog.IsTextOf(text, d.deps)
    ensures DepsLog.Parse(Text(text)) == Good(d.deps)
  {
    hide Trustworthy, LogIsTrue, DepsLog.IsTextOf, DepsLog.Parse, DepsLog.Clean;
    DepsLog.SavedThenLoaded(text, d.deps);
  }

  lemma TrueLogIsClean(t: Tools, log: map<Path, nat>, author: map<Path, Command>)
    requires Printable(t) && LogIsTrue(t, log, author)
    ensures BuildLog.Clean(log)
  {
    hide BuildLog.CleanPath;
  }

  lemma LogComesBack(t: Tools, dir: Dir, d: Disk, text: string)
    requires Printable(t) && Credible(t, dir, d)
    requires BuildLog.IsTextOf(text, d.log)
    ensures BuildLog.Parse(Text(text)) == Good(d.log)
  {
    TrueLogIsClean(t, d.log, dir.author);
    hide *;
    BuildLog.SavedThenLoaded(text, d.log);
  }

  lemma CommittedIsOk(t: Tools, dir: Dir, d: Disk)
    requires !dir.marker && Credible(t, dir, d) && dir.logRun == dir.depsRun
    requires BuildLog.Parse(dir.buildLog) == Good(d.log) && DepsLog.Parse(dir.depsLog) == Good(d.deps)
    ensures DirOk(t, dir) && Memory(dir, dir.clock) == d
  {
    hide Trustworthy, LogIsTrue, DepsLog.Clean, BuildLog.Parse, DepsLog.Parse;
  }

  lemma StepKeepsOk(t: Tools, s: State, a: Action, s': State)
    requires Disciplined(t) && Printable(t) && Ok(t, s) && Evolves(t, s, a, s')
    ensures Ok(t, s')
  {
    if OutsideStep(t, s, a, s') {
      OutsideKeepsOk(t, s, a, s');
    } else if PrepareStep(t, s, a, s') {
      PrepareKeepsOk(t, s, a, s');
    } else if ExecuteStep(s, a, s') {
      ExecuteKeepsOk(t, s, a, s');
    } else if CommitStep(s, a, s') {
      CommitKeepsOk(t, s, a, s');
    } else {
      hide DirOk, OutsideStep, PrepareStep, ExecuteStep, CommitStep;
    }
  }

  lemma {:induction false} AlwaysOk(t: Tools, states: seq<State>, actions: seq<Action>, k: nat)
    requires Disciplined(t) && Printable(t) && IsHistory(t, states, actions) && k < |states|
    ensures Ok(t, states[k])
  {
    hide Evolves, Ok, Disciplined, Printable;
    if k == 0 {
      PristineIsOk(t, states[0]);
    } else {
      AlwaysOk(t, states, actions, k - 1);
      assert Evolves(t, states[k - 1], actions[k - 1], states[k]);
      StepKeepsOk(t, states[k - 1], actions[k - 1], states[k]);
    }
  }

  lemma OccursIsOk(t: Tools, s: State)
    requires Disciplined(t) && Printable(t) && Occurs(t, s)
    ensures Ok(t, s)
  {
    hide Evolves, Ok, Disciplined, Printable, Pristine;
    var states, actions :| IsHistory(t, states, actions) && states[|actions|] == s;
    AlwaysOk(t, states, actions, |actions|);
  }
}
