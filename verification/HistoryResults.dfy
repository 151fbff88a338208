/**
 What the commit protocol is for. After any history of edits, deletions, lost logs, failures and crashes, a run
 that reports success, and a run that reports nothing to build, leave the files of a full serial build.
 */
module HistoryResults {
  import opened Prelude
  import opened Graphs
  import opened World
  import opened Cache
  import opened CachedEdges
  import opened Builder
  import opened Execution
  import opened Incremental
  import opened LineFormat
  import opened History
  import opened HistoryInvariant
  import BuildLog
  import DepsLog

  /**
   Whenever the marker is absent, two readable logs are of the same commit and every entry is the hash of the
   command that last wrote its output, whatever was stopped before, and also after a recovery that built only
   some targets. If nobody else touched the logs, they are both readable or both absent.
   */
  lemma {:induction false} NoMarkerMeansTrueLogs(t: Tools, s: State)
    requires Disciplined(t) && Printable(t) && Occurs(t, s) && !s.dir.marker
    ensures Trusted(s.dir) ==> s.dir.logRun == s.dir.depsRun && LogIsTrue(t, LoadedLog(s.dir), s.dir.author)
    ensures s.dir.intact ==> Trusted(s.dir) || (s.dir.buildLog.Absent? && s.dir.depsLog.Absent?)
  {
    hide Disciplined, Printable, Occurs, PhaseOk;
    OccursIsOk(t, s);
    hide Trustworthy, LogIsTrue, BuildLog.Parse, DepsLog.Parse, DepsLog.Clean;
  }

  /** A sound directory lets the builder skip only what is up to date. */
  lemma SkippedIsUpToDate(w: World, C: set<EdgeId>, d: Disk)
    requires Declared(w) && C <= AllEdges(w.g) && Sound(w.tools, d)
    ensures forall e: EdgeId :: e in C && e < |w.command| && !Stale(w, ViewOf(d), e) ==>
        UpToDate(w.tools, w.command[e], d)
  {
    hide Stale, UpToDate, Calm;
    forall e: EdgeId | e in C && e < |w.command| && !Stale(w, ViewOf(d), e)
      ensures UpToDate(w.tools, w.command[e], d)
    {
      assert IsEdge(w.g, e);
      NotStaleIffCalm(w, d, e);
      HasOutputs(w, e);
    }
  }

  lemma HasOutputs(w: World, e: EdgeId)
    requires Declared(w) && IsEdge(w.g, e)
    ensures w.tools.outputs(w.command[e]) != {} && w.tools.known(w.command[e])
  {
    assert w.g.edges[e].outputs[0] in Elems(w.g.edges[e].outputs);
  }

  /** What a process that reached the commit knows. */
  lemma CommitFacts(t: Tools, s: State)
    requires Disciplined(t) && Printable(t) && Occurs(t, s) && s.phase.LogSaved?
    ensures Underway(t, s.dir, s.phase.call, s.phase.made, s.phase.d)
    ensures BuildLog.Parse(s.dir.buildLog) == Good(s.phase.d.log)
    ensures DepsLog.Parse(s.dir.depsLog) == Good(s.phase.d.deps)
  {
    hide Disciplined, Printable, Occurs, DirOk, Underway, BuildLog.Parse, DepsLog.Parse;
    OccursIsOk(t, s);
  }

  /** The same facts, in the form the theorems about one build ask for. */
  lemma BuildFacts(t: Tools, dir: Dir, call: Call, made: Made, d: Disk)
    requires Underway(t, dir, call, made, d) && NoStaleHits(t)
    ensures NoStaleHits(call.w.tools) && Accountable(call.w.tools, made.start)
    ensures ValidWorld(call.w) && Planned(call.w, made.start, made.scope, made.plan) && call.jobs > 0
    ensures ClockAhead(made.start) && Built(call.w, made.plan, call.jobs, made.start, d)
    ensures d.files == dir.files && d.cache == dir.cache
    ensures forall e: EdgeId :: e in made.scope && e < |call.w.command| && !Stale(call.w, ViewOf(made.start), e) ==>
              UpToDate(call.w.tools, call.w.command[e], made.start)
  {
    hide Built, LogIsTrue, DepsLog.Clean, ClockAhead, ClockPast, Sound, Stale, UpToDate, InScope, DirtySet,
        ProducerClosed, Accountable, NoStaleHits;
    hide Valid, Acyclic, Disciplined, Ordered;
    assert Planned(call.w, made.start, made.scope, made.plan);
    SkippedIsUpToDate(call.w, made.scope, made.start);
  }

  /**
   A run that commits. All edges upstream of the targets are consistent, and the files are those of a full
   serial build of that scope from the same sources, starting from whatever older outputs.
   */
  lemma {:induction false} CommittedBuildIsFullBuild(t: Tools, s: State, s': State, order: seq<EdgeId>, clean: Contents)
    requires Disciplined(t) && Printable(t) && NoStaleHits(t) && Occurs(t, s) && CommitStep(s, Commit, s')
    requires Topological(s.phase.call.w.g, order) && Elems(order) == s.phase.made.scope
    requires SameElsewhere(s.phase.call.w, s.phase.made.scope, clean, ContentsOf(s.phase.made.start.files))
    ensures forall i :: 0 <= i < |order| ==> order[i] < |s.phase.call.w.command|
    ensures AllConsistent(s.phase.call.w, s.phase.made.scope, ContentsOf(s'.dir.files))
    ensures ContentsOf(s'.dir.files) == SerialRun(s.phase.call.w, order, clean)
  {
    hide Disciplined, Printable, Occurs, Underway, SameElsewhere, Topological, BuildLog.Parse, DepsLog.Parse,
        NoStaleHits, Accountable;
    CommitFacts(t, s);
    BuildFacts(t, s.dir, s.phase.call, s.phase.made, s.phase.d);
    assert s'.dir.files == s.phase.d.files;
    UpToDateParts(s.phase.call.w, s.phase.made);
    hide ValidWorld, Planned, Built, ClockAhead, Stale, UpToDate, CommitStep, Consistent;
    IncrementalEqualsFull(s.phase.call.w, s.phase.made.scope, s.phase.made.plan, s.phase.call.jobs,
                          s.phase.made.start, s.phase.d, order, clean);
  }

  /** In particular, every edge upstream of the targets is consistent. */
  lemma CommittedIsConsistent(t: Tools, s: State, s': State)
    requires Disciplined(t) && Printable(t) && NoStaleHits(t) && Occurs(t, s) && CommitStep(s, Commit, s')
    ensures AllConsistent(s.phase.call.w, s.phase.made.scope, ContentsOf(s'.dir.files))
  {
    var w, C, sources := s.phase.call.w, s.phase.made.scope, ContentsOf(s.phase.made.start.files);
    hide Disciplined, Printable, Occurs, NoStaleHits, BuildLog.Parse, DepsLog.Parse, Underway, CommitStep;
    ScopeHasOrder(t, s, s');
    var order: seq<EdgeId> :| Topological(w.g, order) && Elems(order) == C;
    hide Topological, AllConsistent;
    CommittedBuildIsFullBuild(t, s, s', order, sources);
  }

  lemma ScopeHasOrder(t: Tools, s: State, s': State)
    requires Disciplined(t) && Printable(t) && NoStaleHits(t) && Occurs(t, s) && CommitStep(s, Commit, s')
    ensures exists order: seq<EdgeId> :: Topological(s.phase.call.w.g, order) && Elems(order) == s.phase.made.scope
  {
    var w, C := s.phase.call.w, s.phase.made.scope;
    hide Disciplined, Printable, Occurs, NoStaleHits, BuildLog.Parse, DepsLog.Parse, Underway;
    CommitFacts(t, s);
    BuildFacts(t, s.dir, s.phase.call, s.phase.made, s.phase.d);
    hide CommitStep, Built, Stale, UpToDate, ClockAhead, DirtySet, ProducerClosed, Disciplined, Declared, Ordered;
    assert Valid(w.g) && Acyclic(w.g, AllEdges(w.g)) && C <= AllEdges(w.g);
    hide *;
    AcyclicSubset(w.g, AllEdges(w.g), C);
    var order := AcyclicHasOrder(w.g, C);
  }

  lemma UpToDateParts(w: World, made: Made)
    requires forall e: EdgeId :: e in made.scope && e < |w.command| && !Stale(w, ViewOf(made.start), e) ==>
               UpToDate(w.tools, w.command[e], made.start)
    ensures forall e: EdgeId :: e in made.scope && e < |w.command| && !Stale(w, ViewOf(made.start), e) ==>
              Consistent(w.tools, w.command[e], ContentsOf(made.start.files))
  {
    hide Stale, Consistent;
  }

  /** "Nothing to build" is the truth: the directory already holds the outcome of a full build. */
  lemma {:induction false} NothingToBuildIsFullBuild(t: Tools, s: State, scope: set<EdgeId>, s': State,
      order: seq<EdgeId>, clean: Contents)
    requires Disciplined(t) && Printable(t) && NoStaleHits(t) && Occurs(t, s)
    requires PrepareStep(t, s, NothingToBuild(scope), s')
    requires Topological(s.phase.call.w.g, order) && Elems(order) == scope
    requires SameElsewhere(s.phase.call.w, scope, clean, ContentsOf(s.dir.files))
    ensures forall i :: 0 <= i < |order| ==> order[i] < |s.phase.call.w.command|
    ensures AllConsistent(s.phase.call.w, scope, ContentsOf(s'.dir.files))
    ensures ContentsOf(s'.dir.files) == SerialRun(s.phase.call.w, order, clean)
  {
    var w, d := s.phase.call.w, s.phase.d;
    LoadedFacts(t, s);
    assert PlannedFor(s.phase.call, Made(d, scope, [])) && s'.dir == s.dir;
    EmptyPlan(w, d, scope, Made(d, scope, []).plan);
    hide Disciplined, Printable, Occurs, SameElsewhere, Topological, PrepareStep, PlannedFor, ValidWorld, Stale,
        UpToDate, Sound, NoStaleHits;
    ClosedIsSealed(w, scope);
    DeclaredOf(w);
    SkippedIsUpToDate(w, scope, d);
    ScopeInRange(w, scope);
    UpToDateIsConsistent(w, scope, d);
    hide AllConsistent;
    SerialRunIsTheOutcome(w, scope, scope, order, clean, ContentsOf(d.files));
  }

  /** In particular, every edge upstream of the targets is consistent. */
  lemma NothingToBuildIsConsistent(t: Tools, s: State, scope: set<EdgeId>, s': State)
    requires Disciplined(t) && Printable(t) && NoStaleHits(t) && Occurs(t, s)
    requires PrepareStep(t, s, NothingToBuild(scope), s')
    ensures AllConsistent(s.phase.call.w, scope, ContentsOf(s'.dir.files))
  {
    var w, sources := s.phase.call.w, ContentsOf(s.dir.files);
    hide Disciplined, Printable, Occurs, NoStaleHits, PrepareStep;
    LoadedScopeHasOrder(t, s, scope, s');
    var order: seq<EdgeId> :| Topological(w.g, order) && Elems(order) == scope;
    hide Topological, AllConsistent;
    NothingToBuildIsFullBuild(t, s, scope, s', order, sources);
  }

  lemma LoadedScopeHasOrder(t: Tools, s: State, scope: set<EdgeId>, s': State)
    requires Disciplined(t) && Printable(t) && NoStaleHits(t) && Occurs(t, s)
    requires PrepareStep(t, s, NothingToBuild(scope), s')
    ensures exists order: seq<EdgeId> :: Topological(s.phase.call.w.g, order) && Elems(order) == scope
  {
    var w, d := s.phase.call.w, s.phase.d;
    LoadedFacts(t, s);
    assert PlannedFor(s.phase.call, Made(d, scope, []));
    EmptyPlan(w, d, scope, Made(d, scope, []).plan);
    hide Disciplined, Printable, Occurs, NoStaleHits, PrepareStep, PlannedFor, Sound, Stale, Declared, Ordered;
    assert Valid(w.g) && Acyclic(w.g, AllEdges(w.g)) && scope <= AllEdges(w.g);
    hide *;
    AcyclicSubset(w.g, AllEdges(w.g), scope);
    var order := AcyclicHasOrder(w.g, scope);
  }

  lemma LoadedFacts(t: Tools, s: State)
    requires Disciplined(t) && Printable(t) && NoStaleHits(t) && Occurs(t, s) && s.phase.Loaded?
    ensures ValidWorld(s.phase.call.w) && s.phase.call.w.tools == t
    ensures Sound(t, s.phase.d) && s.phase.d.files == s.dir.files
  {
    hide Disciplined, Printable, Occurs, DirOk, Sound, ValidWorld, LogIsTrue, DepsLog.Clean, ClockPast, ClockAhead,
        NoStaleHits, Accountable;
    OccursIsOk(t, s);
  }

  lemma EmptyPlan(w: World, d: Disk, C: set<EdgeId>, plan: seq<EdgeId>)
    requires Planned(w, d, C, plan) && plan == []
    ensures ProducerClosed(w.g, C) && C <= AllEdges(w.g)
    ensures forall e: EdgeId :: e in C ==> !Stale(w, ViewOf(d), e)
  {
    hide Stale, Producers, DirtySet, Sealed;
    PlannedIsSealed(w, d, C, plan);
    assert Elems(plan) == {};
    assert forall e: EdgeId :: e in C && Stale(w, ViewOf(d), e) ==> e in StaleIn(w, ViewOf(d), C);
  }

  lemma ScopeInRange(w: World, C: set<EdgeId>)
    requires Declared(w) && C <= AllEdges(w.g)
    ensures forall e: EdgeId :: e in C ==> e < |w.command|
  {
    forall e: EdgeId | e in C
      ensures e < |w.command|
    {
      assert IsEdge(w.g, e);
    }
  }

  /**
   After a commit, whatever was cached, the next run with the same manifest and targets loads, through both files, logs
   that make the builder find nothing to do, unless a source is gone that the manifest or a record names, or a leftover
   record names what is gone or younger than its output.
   */
  lemma NextRunIsNoOp(t: Tools, s: State, committed: State, call: Call, now: int, loaded: State)
    requires Disciplined(t) && Printable(t) && Occurs(t, s) && CommitStep(s, Commit, committed)
    requires PrepareStep(t, committed, Begin(call, now), loaded) && call.w == s.phase.call.w
    ensures PrepareStep(t, loaded, NothingToBuild(s.phase.made.scope), committed.(dir := loaded.dir)) <==>
            InScope(call.w.g, call.targets, s.phase.made.scope) &&
            SourcesExist(call.w, s.phase.made.scope, s.phase.made.start) &&
            ReportedExist(call.w, s.phase.made.scope, s.phase.d) &&
            LeftoversCalm(call.w, s.phase.made.scope, s.phase.d)
  {
    hide Disciplined, Printable, Occurs, Underway, BuildLog.Parse, DepsLog.Parse, SourcesExist, ReportedExist;
    hide LeftoversCalm, InScope, ValidWorld;
    var made, d := s.phase.made, s.phase.d;
    CommitFacts(t, s);
    PlanFacts(t, s.dir, s.phase.call, made, d);
    CommitIsLoaded(s, committed, d, now);
    assert loaded.phase == Loaded(call, d.(clock := now));
    ToolsOf(t, s.dir, s.phase.call, made, d);
    hide Planned, Built, ClockAhead;
    NoOpRebuild(call.w, made.scope, made.plan, s.phase.call.jobs, made.start, d);
    SameView(call.w, made.scope, d, now);
    EmptyIsPlanned(call.w, made, d.(clock := now));
  }

  /** What is known about a finished run without any trust in the cache. */
  lemma PlanFacts(t: Tools, dir: Dir, call: Call, made: Made, d: Disk)
    requires Underway(t, dir, call, made, d)
    ensures ValidWorld(call.w) && Planned(call.w, made.start, made.scope, made.plan) && call.jobs > 0
    ensures ClockAhead(made.start) && Built(call.w, made.plan, call.jobs, made.start, d)
    ensures d.files == dir.files && d.cache == dir.cache
  {
    hide Built, LogIsTrue, DepsLog.Clean, ClockAhead, ClockPast, Trustworthy, InScope, Planned, ValidWorld;
  }

  lemma ToolsOf(t: Tools, dir: Dir, call: Call, made: Made, d: Disk)
    requires Underway(t, dir, call, made, d)
    ensures call.w.tools == t
  {
  }

  lemma CommitIsLoaded(s: State, committed: State, d: Disk, now: int)
    requires CommitStep(s, Commit, committed) && d == s.phase.d && d.files == s.dir.files && d.cache == s.dir.cache
    requires BuildLog.Parse(s.dir.buildLog) == Good(d.log) && DepsLog.Parse(s.dir.depsLog) == Good(d.deps)
    ensures Memory(committed.dir, now) == d.(clock := now)
  {
    hide BuildLog.Parse, DepsLog.Parse;
  }

  lemma SameView(w: World, C: set<EdgeId>, d: Disk, now: int)
    ensures DirtySet(w, ViewOf(d), C, {}) <==> DirtySet(w, ViewOf(d.(clock := now)), C, {})
  {
  }

  lemma EmptyIsPlanned(w: World, made: Made, d: Disk)
    requires Planned(w, made.start, made.scope, made.plan)
    ensures Planned(w, d, made.scope, []) <==> DirtySet(w, ViewOf(d), made.scope, {})
  {
    hide DirtySet, ProducerClosed;
    assert Elems<EdgeId>([]) == {};
  }

  // ------------------------------------------------------------------------------------------
  // Edits that go unnoticed
  // ------------------------------------------------------------------------------------------

  function Edited(d: Disk, p: Path, content: Content, mtime: int): Disk
  {
    d.(files := d.files[p := File(content, mtime)])
  }

  /**
   A calm command notices that somebody else writes `p`, whatever time stamp this leaves, exactly if another output that
   watches `p` is older than the stamp, or `p` is an output and another file that it watches is younger.
   */
  lemma EditIsNoticedIff(t: Tools, x: Command, d: Disk, p: Path, content: Content, mtime: int)
    requires Calm(t, x, d)
    ensures !Calm(t, x, Edited(d, p, content, mtime)) <==>
            (exists o :: o in t.outputs(x) && o != p && p in Watched(t, x, d.deps, o) && d.files[o].mtime < mtime) ||
            (p in t.outputs(x) &&
             exists q :: q in Watched(t, x, d.deps, p) && q != p && mtime < d.files[q].mtime)
  {
    var d' := Edited(d, p, content, mtime);
    hide Watched;
    forall o | o in t.outputs(x)
      ensures CalmOutput(t, x, d', o) <==>
              if o == p then forall q :: q in Watched(t, x, d.deps, p) && q != p ==> d.files[q].mtime <= mtime
              else p in Watched(t, x, d.deps, o) ==> mtime <= d.files[o].mtime
    {
      EditedOutput(t, x, d, p, content, mtime, o);
    }
  }

  lemma EditedOutput(t: Tools, x: Command, d: Disk, p: Path, content: Content, mtime: int, o: Path)
    requires CalmOutput(t, x, d, o)
    ensures CalmOutput(t, x, Edited(d, p, content, mtime), o) <==>
            if o == p then forall q :: q in Watched(t, x, d.deps, p) && q != p ==> d.files[q].mtime <= mtime
            else p in Watched(t, x, d.deps, o) ==> mtime <= d.files[o].mtime
  {
    assert Watched(t, x, Edited(d, p, content, mtime).deps, o) == Watched(t, x, d.deps, o);
    hide Watched;
  }

  /** A later write is noticed exactly when another output than `p` itself watches `p`. */
  lemma EditIsNoticedIffWatched(t: Tools, x: Command, d: Disk, p: Path, content: Content, now: int)
    requires Calm(t, x, d) && ClockAhead(d) && d.clock < now
    ensures !Calm(t, x, Edited(d, p, content, now)) <==>
            exists o :: o in t.outputs(x) && o != p && p in Watched(t, x, d.deps, o)
  {
    EditIsNoticedIff(t, x, d, p, content, now);
    hide Watched, Edited;
    forall o | o in t.outputs(x)
      ensures CalmOutput(t, x, d, o)
    {
    }
    hide Calm;
  }

  /** So an output that its own edge does not read can be overwritten by hand, and the builder keeps it. */
  lemma OverwrittenOutputIsKept(t: Tools, x: Command, d: Disk, p: Path, content: Content, now: int)
    requires Calm(t, x, d) && ClockAhead(d) && d.clock < now && t.outputs(x) == {p}
    requires content != t.output(x, p, ContentsOf(d.files[p := File(content, now)]))
    ensures Calm(t, x, Edited(d, p, content, now))
    ensures !Consistent(t, x, ContentsOf(d.files[p := File(content, now)]))
  {
    EditIsNoticedIffWatched(t, x, d, p, content, now);
    var c := ContentsOf(d.files[p := File(content, now)]);
    assert p in c && c[p] == content;
  }

  /** And an edit that does not move the modification time is never noticed. */
  lemma SameTimeIsUnnoticed(t: Tools, x: Command, d: Disk, p: Path, content: Content)
    requires Calm(t, x, d) && p in d.files
    ensures Calm(t, x, Edited(d, p, content, d.files[p].mtime))
  {
    EditIsNoticedIff(t, x, d, p, content, d.files[p].mtime);
    hide Watched, Edited;
    forall o | o in t.outputs(x)
      ensures CalmOutput(t, x, d, o)
    {
    }
    hide Calm;
  }
}
