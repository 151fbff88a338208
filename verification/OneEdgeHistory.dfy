/**
 Histories over manifests of one edge: every command that some valid manifest can place has a manifest of its own, a run
 of it can be led from the lock to the commit, and edits can bring the directory to any files of the history.
 */
module OneEdgeHistory {
  import opened Prelude
  import opened Graphs
  import opened Cache
  import opened World
  import opened CachedEdges
  import opened Builder
  import opened Execution
  import opened SchedulerSteps
  import opened ScheduledBuild
  import opened Incremental
  import opened LineFormat
  import opened History
  import opened HistoryInvariant
  import opened Session
  import OneEdgeRun
  import BuildLog
  import DepsLog

  // ------------------------------------------------------------------------------------------
  // Where a history begins
  // ------------------------------------------------------------------------------------------

  /** Every file from the beginning of time. */
  function Sources(c: Contents): Files
  {
    map p | p in c :: File(c[p], 0)
  }

  function NewDir(c: Contents): Dir
  {
    Dir(Sources(c), 0, false, Absent, Absent, NO_CACHE, 0, 0, 0, map[], true)
  }

  lemma NewDirIsPristine(t: Tools, c: Contents)
    requires Occurring(t, c)
    ensures Pristine(t, State(NewDir(c), Idle)) && ContentsOf(Sources(c)) == c
    ensures Memory(NewDir(c), 1) == Disk(Sources(c), map[], map[], 1, NO_CACHE)
  {
    assert ContentsOf(Sources(c)) == c;
    hide Occurring;
  }

  lemma NothingLogged(t: Tools, x: Command, d: Disk)
    requires d.log == map[] && t.outputs(x) != {}
    ensures !Calm(t, x, d)
  {
    var o :| o in t.outputs(x);
    assert !CalmOutput(t, x, d, o);
  }

  // ------------------------------------------------------------------------------------------
  // One whole run
  // ------------------------------------------------------------------------------------------

  lemma {:induction false} LeadsIsOccurring(t: Tools, s: State, s': State)
    requires Leads(t, s, s') && Pristine(t, s)
    ensures Occurs(t, s')
  {
    hide Evolves, Pristine;
    var states, actions :| Trace(t, states, actions) && states[0] == s && states[|actions|] == s';
    assert IsHistory(t, states, actions);
  }

  lemma RunLeads(t: Tools, s0: State, dir: Dir, call: Call, made: Made, d: Disk, author: map<Path, Command>)
    requires Proceeds(t, s0, State(dir, Marked(call, made))) && Built(call.w, made.plan, call.jobs, made.start, d)
    requires Authored(call.w, Elems(made.plan), dir.author, author)
    ensures Proceeds(t, s0, State(dir.(files := d.files, clock := d.clock, cache := d.cache, author := author),
                                  Executed(call, made, d)))
  {
    hide Proceeds, Built, Authored;
    var dir' := dir.(files := d.files, clock := d.clock, cache := d.cache, author := author);
    OneMoreOwn(t, s0, State(dir, Marked(call, made)), Run(d), State(dir', Executed(call, made, d)));
  }

  /** The directory when a run that started in `dir` is about to remove its marker. */
  function AboutToCommit(dir: Dir, d: Disk, author: map<Path, Command>, log: string, deps: string): Dir
  {
    Dir(d.files, d.clock, true, Text(log), Text(deps), d.cache, dir.runs + 1, dir.runs + 1, dir.runs + 1, author,
        dir.intact)
  }

  /** Everything that a run from the lock to the last save needs. */
  ghost predicate CanRun(t: Tools, dir: Dir, call: Call, made: Made, d: Disk, author: map<Path, Command>,
                         log: string, deps: string)
  {
    && ValidWorld(call.w) && call.w.tools == t && call.jobs > 0
    && dir.clock < made.start.clock && made.start == Memory(dir, made.start.clock)
    && PlannedFor(call, made) && made.plan != [] && Built(call.w, made.plan, call.jobs, made.start, d)
    && Authored(call.w, Elems(made.plan), dir.author, author)
    && BuildLog.IsTextOf(log, d.log) && DepsLog.IsTextOf(deps, d.deps)
  }

  /** A run from the lock to the last save, by steps of the process alone. */
  lemma WholeRun(t: Tools, dir: Dir, call: Call, made: Made, d: Disk, author: map<Path, Command>, log: string,
                 deps: string)
    requires CanRun(t, dir, call, made, d, author, log, deps)
    ensures Proceeds(t, State(dir, Idle), State(AboutToCommit(dir, d, author, log, deps), LogSaved(call, made, d)))
  {
    hide Proceeds, ValidWorld, PlannedFor, Built, Authored, BuildLog.IsTextOf, DepsLog.IsTextOf, Memory;
    var s0, now := State(dir, Idle), made.start.clock;
    var dir1 := dir.(clock := now);
    BeginLeads(t, dir, dir1, call, now, made.start);
    PlanLeads(t, s0, dir1, call, made);
    var dir2 := dir1.(marker := true, runs := dir.runs + 1);
    MarkLeads(t, s0, dir1, dir2, call, made);
    RunLeads(t, s0, dir2, call, made, d, author);
    var dir3 := dir2.(files := d.files, clock := d.clock, cache := d.cache, author := author);
    var dir4 := dir3.(depsLog := Text(deps), depsRun := dir3.runs);
    SaveDepsLeads(t, s0, dir3, dir4, call, made, d, deps);
    var dir5 := dir4.(buildLog := Text(log), logRun := dir4.runs);
    SaveLogLeads(t, s0, dir4, dir5, call, made, d, log);
    assert dir5 == AboutToCommit(dir, d, author, log, deps);
  }

  // ------------------------------------------------------------------------------------------
  // A manifest of one edge
  // ------------------------------------------------------------------------------------------

  /** `w` has one edge, and `x` is its command. */
  ghost predicate OneEdge(w: World, x: Command)
  {
    ValidWorld(w) && |w.g.edges| == 1 && w.command == [x]
  }

  function OneEdgeGraph(inputs: seq<Path>, outputs: seq<Path>): Graph
  {
    Graph([Edge("rule", inputs, outputs)],
          map p | p in Elems(inputs) + Elems(outputs) ::
            if p in outputs then Node(Some(0), []) else Node(None, [0]))
  }

  lemma OneEdgeGraphIsValid(inputs: seq<Path>, outputs: seq<Path>)
    requires NoDup(inputs) && NoDup(outputs) && Elems(inputs) !! Elems(outputs)
    ensures Valid(OneEdgeGraph(inputs, outputs))
  {
    var g := OneEdgeGraph(inputs, outputs);
    assert EdgeLinked(g, 0) by {
      hide NoDup;
      assert forall p :: p in inputs ==> p in Elems(inputs);
      assert forall p :: p in outputs ==> p in Elems(outputs);
    }
    forall p | p in g.nodes
      ensures NodeLinked(g, p)
    {
      OneNodeIsLinked(inputs, outputs, p);
    }
  }

  lemma OneNodeIsLinked(inputs: seq<Path>, outputs: seq<Path>, p: Path)
    requires NoDup(inputs) && Elems(inputs) !! Elems(outputs) && p in OneEdgeGraph(inputs, outputs).nodes
    ensures NodeLinked(OneEdgeGraph(inputs, outputs), p)
  {
    NoDupCount(inputs);
    hide NoDup;
    assert p in Elems(inputs) <==> p in inputs;
    assert p in Elems(outputs) <==> p in outputs;
  }

  lemma OneEdgeNeedsNothing(inputs: seq<Path>, outputs: seq<Path>)
    requires Elems(inputs) !! Elems(outputs)
    ensures Producers(OneEdgeGraph(inputs, outputs), 0) == {}
    ensures AllEdges(OneEdgeGraph(inputs, outputs)) == {0}
  {
    var g := OneEdgeGraph(inputs, outputs);
    forall p | p in Elems(inputs)
      ensures ProducerOf(g, p).None?
    {
      assert p !in Elems(outputs) && p !in outputs;
    }
  }

  lemma OneEdgeIsAcyclic(g: Graph)
    requires AllEdges(g) == {0} && Producers(g, 0) == {}
    ensures Acyclic(g, AllEdges(g))
  {
    hide Producers, AllEdges;
    assert Elems([0 as EdgeId]) == {0};
    assert IsEdge(g, 0) by { assert 0 in AllEdges(g); EdgeOfAll(g, 0); }
    assert Topological(g, [0]);
    TopologicalIsAcyclic(g, [0]);
  }

  lemma EdgeOfAll(g: Graph, e: EdgeId)
    requires e in AllEdges(g)
    ensures IsEdge(g, e)
  {
  }

  /** A placeable command has a manifest of its own. */
  lemma OneEdgeWorld(t: Tools, x: Command) returns (w: World)
    requires Disciplined(t) && Placeable(t, x)
    ensures OneEdge(w, x) && w.tools == t
  {
    var inputs, outputs := SomeOrder(t.inputs(x)), SomeOrder(t.outputs(x));
    w := World(OneEdgeGraph(inputs, outputs), [x], t);
    OneEdgeGraphIsValid(inputs, outputs);
    OneEdgeNeedsNothing(inputs, outputs);
    OneEdgeIsAcyclic(w.g);
    OneEdgeIsDeclared(w, inputs, outputs, x);
    hide Valid, Acyclic, Disciplined, Declared, Ordered, AllEdges, Producers, NoDup, Placeable;
  }

  /** Some list of the paths; in specifications any will do. */
  ghost function SomeOrder(paths: set<Path>): (order: seq<Path>)
    ensures Lists(order, paths)
  {
    SomeOrderExists(paths);
    var order :| Lists(order, paths);
    order
  }

  lemma SomeOrderExists(paths: set<Path>)
    ensures exists order :: Lists(order, paths)
  {
    var order := SomeListing(paths);
  }

  lemma OneEdgeIsDeclared(w: World, inputs: seq<Path>, outputs: seq<Path>, x: Command)
    requires w == World(OneEdgeGraph(inputs, outputs), [x], w.tools) && Placeable(w.tools, x)
    requires Elems(inputs) == w.tools.inputs(x) && Elems(outputs) == w.tools.outputs(x)
    ensures Declared(w) && Ordered(w)
  {
    assert w.g.edges[0].inputs == inputs && w.g.edges[0].outputs == outputs;
    assert outputs != [];
    assert Declared(w);
    forall c: Contents, p | p in Discovered(w.tools, x, c)
      ensures ProducerOf(w.g, p).None?
    {
      assert p !in Elems(outputs) && p !in outputs;
    }
  }

  lemma OneEdgeFacts(w: World, x: Command)
    requires OneEdge(w, x)
    ensures Producers(w.g, 0) == {} && Dependents(w.g, 0) == {} && AllEdges(w.g) == {0}
    ensures OneEdgeRun.Alone(w, 0)
  {
    assert AllEdges(w.g) == {0};
    NoSelfNeed(w);
    hide ValidWorld, Producers, AllEdges, Dependents;
  }

  lemma NoSelfNeed(w: World)
    requires Valid(w.g) && Acyclic(w.g, AllEdges(w.g)) && AllEdges(w.g) == {0}
    ensures Producers(w.g, 0) == {} && Dependents(w.g, 0) == {}
  {
    EdgeOfAll(w.g, 0);
    AcyclicIffSources(w.g, AllEdges(w.g));
    ProducersAreEdges(w.g, 0);
    hide Valid, Acyclic, AllEdges, Producers, Dependents;
    assert HasSource(w.g, {0});
    assert Producers(w.g, 0) == {};
    NobodyDepends(w.g);
  }

  lemma NobodyDepends(g: Graph)
    requires Valid(g) && AllEdges(g) == {0} && Producers(g, 0) == {}
    ensures Dependents(g, 0) == {}
  {
    EdgeOfAll(g, 0);
    hide Valid, AllEdges, Producers, Dependents;
    if d: EdgeId :| d in Dependents(g, 0) {
      DependentsAreEdges(g, d);
      OnlyEdge(g, d);
      DependencyViews(g, d, 0);
    }
  }

  lemma OnlyEdge(g: Graph, e: EdgeId)
    requires IsEdge(g, e) && AllEdges(g) == {0}
    ensures e == 0
  {
    assert e in AllEdges(g);
  }

  lemma DependentsAreEdges(g: Graph, d: EdgeId)
    requires Valid(g) && IsEdge(g, 0) && d in Dependents(g, 0)
    ensures IsEdge(g, d)
  {
    var p :| p in Elems(g.edges[0].outputs) && p in g.nodes && d in g.nodes[p].outEdges;
    assert NodeLinked(g, p);
  }

  lemma WellBehavedTools(w: World, x: Command)
    requires OneEdge(w, x)
    ensures Disciplined(w.tools) && Declared(w) && w.tools.known(x) && w.tools.outputs(x) != {}
  {
    hide Valid, Acyclic, Disciplined, Ordered;
    assert IsEdge(w.g, 0);
    OutputIsThere(w, 0);
  }

  // ------------------------------------------------------------------------------------------
  // A run of it
  // ------------------------------------------------------------------------------------------

  lemma EdgeIsPlanned(w: World, x: Command, d: Disk)
    requires OneEdge(w, x) && !Calm(w.tools, x, d)
    ensures PlannedFor(Call(w, [], 1), Made(d, {0}, [0]))
  {
    OneEdgeFacts(w, x);
    WellBehavedTools(w, x);
    hide Calm, Valid, Acyclic, Disciplined, Ordered, OneEdgeRun.Alone;
    assert IsEdge(w.g, 0);
    NotStaleIffCalm(w, d, 0);
    hide Declared, Stale, Producers, Dependents, AllEdges;
    assert StaleIn(w, ViewOf(d), {0}) == {0};
    assert Elems([0 as EdgeId]) == {0};
    assert ProducerClosed(w.g, {0}) && ConsumerClosed(w.g, {0}, {0});
    assert Downstream(w.g, {0}, {0}, {0});
  }

  function OneAuthor(t: Tools, x: Command, author: map<Path, Command>): map<Path, Command>
  {
    author + (map o | o in t.outputs(x) :: x)
  }

  lemma AuthorsOfOne(w: World, x: Command, author: map<Path, Command>)
    requires OneEdge(w, x)
    ensures Authored(w, {0}, author, OneAuthor(w.tools, x, author))
  {
    OutputsOfOne(w, x);
    assert w.command == [x];
    hide *;
    AuthoredByOne(w, x, author);
  }

  lemma AuthoredByOne(w: World, x: Command, author: map<Path, Command>)
    requires w.command == [x] && OutputsOf(w, {0}) == w.tools.outputs(x)
    ensures Authored(w, {0}, author, OneAuthor(w.tools, x, author))
  {
    var author' := OneAuthor(w.tools, x, author);
    hide OutputsOf;
    assert forall o :: o in w.tools.outputs(x) ==> o in author' && author'[o] == x;
    assert forall o :: o !in w.tools.outputs(x) ==> (o in author <==> o in author');
    hide OneAuthor;
  }

  lemma OutputsOfOne(w: World, x: Command)
    requires OneEdge(w, x)
    ensures OutputsOf(w, {0}) == w.tools.outputs(x)
  {
    WellBehavedTools(w, x);
    assert IsEdge(w.g, 0);
    OutputsAreOutputs(w, {0}, 0);
    hide ValidWorld, Disciplined;
    forall p | p in OutputsOf(w, {0})
      ensures p in w.tools.outputs(x)
    {
      var f := OutputWriter(w, {0}, p);
    }
  }

  ghost function LogText(log: map<Path, nat>): (text: string)
    ensures BuildLog.IsTextOf(text, log)
  {
    BuildLog.FileText(SomeOrder(log.Keys), log)
  }

  ghost function DepsText(deps: map<Path, seq<Path>>): (text: string)
    ensures DepsLog.IsTextOf(text, deps)
  {
    DepsLog.FileText(SomeOrder(deps.Keys), deps)
  }

  /** Logs that come back from their files. */
  ghost predicate Writable(d: Disk)
  {
    BuildLog.Clean(d.log) && DepsLog.Clean(d.deps)
  }

  lemma TextsComeBack(d: Disk)
    requires Writable(d)
    ensures BuildLog.Parse(Text(LogText(d.log))) == Good(d.log)
    ensures DepsLog.Parse(Text(DepsText(d.deps))) == Good(d.deps)
  {
    hide BuildLog.Parse, DepsLog.Parse, BuildLog.Clean, DepsLog.Clean, LogText, DepsText;
    BuildLog.SavedThenLoaded(LogText(d.log), d.log);
    DepsLog.SavedThenLoaded(DepsText(d.deps), d.deps);
  }

  /** Where a run that comes upon `dir` and leaves `d` has saved both logs, and what it leaves. */
  ghost function Saved(w: World, x: Command, dir: Dir, start: Disk, d: Disk): State
  {
    State(AboutToCommit(dir, d, OneAuthor(w.tools, x, dir.author), LogText(d.log), DepsText(d.deps)),
          LogSaved(Call(w, [], 1), Made(start, {0}, [0]), d))
  }

  ghost function Left(w: World, x: Command, dir: Dir, d: Disk): Dir
  {
    AboutToCommit(dir, d, OneAuthor(w.tools, x, dir.author), LogText(d.log), DepsText(d.deps))
      .(marker := false, intact := true)
  }

  /** One whole run over a manifest of one edge, up to its commit. */
  lemma OneRun(w: World, x: Command, s0: State, dir: Dir, start: Disk, d: Disk)
    requires OneEdge(w, x) && Leads(w.tools, s0, State(dir, Idle))
    requires dir.clock < start.clock && start == Memory(dir, start.clock) && !Calm(w.tools, x, start)
    requires EdgeSucceeds(w.tools, x, ContentsOf(start.files), start.clock, start, d)
    ensures Leads(w.tools, s0, Saved(w, x, dir, start, d))
  {
    EdgeIsPlanned(w, x, start);
    OneEdgeFacts(w, x);
    AuthorsOfOne(w, x, dir.author);
    assert ValidWorld(w) && w.command[0] == x;
    hide OneEdge, EdgeSucceeds, Calm, ContentsOf, Memory, OneEdgeRun.Alone, ValidWorld, PlannedFor, Authored,
        LogText, DepsText, Leads, OneAuthor, Producers, Dependents, CanRun, Proceeds;
    OneEdgeRun.OneEdgeBuilds(w, 0, start, start.clock, d);
    hide Built, BuildLog.IsTextOf, DepsLog.IsTextOf;
    CanRunFromParts(w, dir, Made(start, {0}, [0]), d, OneAuthor(w.tools, x, dir.author), LogText(d.log),
                    DepsText(d.deps));
    WholeRun(w.tools, dir, Call(w, [], 1), Made(start, {0}, [0]), d, OneAuthor(w.tools, x, dir.author),
             LogText(d.log), DepsText(d.deps));
    ProceedsLeads(w.tools, s0, State(dir, Idle), Saved(w, x, dir, start, d));
  }

  lemma CanRunFromParts(w: World, dir: Dir, made: Made, d: Disk, author: map<Path, Command>, log: string, deps: string)
    requires ValidWorld(w) && made.plan == [0]
    requires dir.clock < made.start.clock && made.start == Memory(dir, made.start.clock)
    requires PlannedFor(Call(w, [], 1), made) && Built(w, made.plan, 1, made.start, d)
    requires Authored(w, {0}, dir.author, author)
    requires BuildLog.IsTextOf(log, d.log) && DepsLog.IsTextOf(deps, d.deps)
    ensures CanRun(w.tools, dir, Call(w, [], 1), made, d, author, log, deps)
  {
    assert Elems([0 as EdgeId]) == {0};
    hide ValidWorld, PlannedFor, Built, Authored, BuildLog.IsTextOf, DepsLog.IsTextOf, Memory, Elems;
  }

  lemma SavedCommits(w: World, x: Command, dir: Dir, start: Disk, d: Disk)
    ensures CommitStep(Saved(w, x, dir, start, d), Commit, State(Left(w, x, dir, d), Idle))
  {
    hide LogText, DepsText, OneAuthor;
  }

  /** ... and with it. */
  lemma OneRunCommits(w: World, x: Command, s0: State, dir: Dir, start: Disk, d: Disk)
    requires Leads(w.tools, s0, Saved(w, x, dir, start, d))
    ensures Leads(w.tools, s0, State(Left(w, x, dir, d), Idle))
  {
    SavedCommits(w, x, dir, start, d);
    hide Leads, Saved, Left, CommitStep;
    OneMore(w.tools, s0, Saved(w, x, dir, start, d), Commit, State(Left(w, x, dir, d), Idle));
  }

  /** The next process finds what the run left. */
  lemma LeftIsLoaded(w: World, x: Command, dir: Dir, d: Disk, now: int)
    requires Writable(d)
    ensures Memory(Left(w, x, dir, d), now) == d.(clock := now) && Left(w, x, dir, d).clock == d.clock
    ensures !Left(w, x, dir, d).marker
  {
    TextsComeBack(d);
    hide BuildLog.Parse, DepsLog.Parse, LogText, DepsText, OneAuthor;
  }

  /** Plain runs leave logs that come back. */
  lemma RunIsWritable(t: Tools, x: Command, seen: Contents, now: int, d: Disk)
    requires Printable(t) && OwnTargets(t) && t.known(x) && Writable(d)
    ensures Writable(RunEffect(t, x, seen, now, d))
  {
    RunLogIsClean(t, x, seen, now, d);
    RunDepsAreClean(t, x, seen, now, d);
    hide RunEffect, BuildLog.Clean, DepsLog.Clean;
  }

  lemma RunLogIsClean(t: Tools, x: Command, seen: Contents, now: int, d: Disk)
    requires Printable(t) && t.known(x) && BuildLog.Clean(d.log)
    ensures BuildLog.Clean(RunEffect(t, x, seen, now, d).log)
  {
    hide DepsLog.CleanNames, DepsLog.CleanName;
    assert forall o :: o in t.outputs(x) ==> BuildLog.CleanPath(o);
  }

  lemma RunDepsAreClean(t: Tools, x: Command, seen: Contents, now: int, d: Disk)
    requires Printable(t) && OwnTargets(t) && t.known(x) && DepsLog.Clean(d.deps)
    ensures DepsLog.Clean(RunEffect(t, x, seen, now, d).deps)
  {
    hide DepsLog.CleanNames;
    if t.depTarget(x).Some? {
      assert t.depTarget(x).value in t.outputs(x) && BuildLog.CleanPath(t.depTarget(x).value);
    }
  }

  // ------------------------------------------------------------------------------------------
  // Edits
  // ------------------------------------------------------------------------------------------

  /** Each command that the log may vouch for has an output in `gone`. */
  ghost predicate Restless(t: Tools, log: map<Path, nat>, gone: set<Path>)
  {
    forall y: Command :: t.known(y) && t.outputs(y) != {} && Logged(t, y, log) ==> !(t.outputs(y) !! gone)
  }

  lemma RestlessIsUnvouched(t: Tools, d: Disk, gone: set<Path>, p: Path)
    requires Restless(t, d.log, gone) && gone !! d.files.Keys
    ensures Unvouched(t, d, p)
  {
    hide Restless, Watched;
    forall y: Command | t.known(y) && p in t.outputs(y)
      ensures !Calm(t, y, d)
    {
      RestlessIsNotCalm(t, d, gone, y);
    }
  }

  lemma RestlessIsNotCalm(t: Tools, d: Disk, gone: set<Path>, y: Command)
    requires Restless(t, d.log, gone) && gone !! d.files.Keys && t.known(y) && t.outputs(y) != {}
    ensures !Calm(t, y, d)
  {
    hide Watched;
    if Logged(t, y, d.log) {
      var q :| q in t.outputs(y) && q in gone;
      assert !CalmOutput(t, y, d, q);
    } else {
      var o :| o in t.outputs(y) && !(o in d.log && d.log[o] == t.hash(y));
      assert !CalmOutput(t, y, d, o);
    }
  }

  lemma Removed(t: Tools, s0: State, dir: Dir, q: Path) returns (dir': Dir)
    requires Leads(t, s0, State(dir, Idle))
    ensures Leads(t, s0, State(dir', Idle)) && dir' == dir.(files := dir.files - {q})
  {
    hide Leads;
    dir' := dir.(files := dir.files - {q});
    OneMore(t, s0, State(dir, Idle), Delete(q), State(dir', Idle));
  }

  /** What an edit needs: nothing that it may touch is vouched for, as long as `gone` stays away. */
  ghost predicate Editable(t: Tools, dir: Dir, gone: set<Path>)
  {
    Restless(t, LoadedLog(dir), gone) && gone !! dir.files.Keys
  }

  lemma EditOne(t: Tools, s0: State, dir: Dir, target: Contents, gone: set<Path>, p: Path) returns (dir': Dir)
    requires Leads(t, s0, State(dir, Idle)) && Occurring(t, target) && Editable(t, dir, gone) && p !in gone
    ensures Leads(t, s0, State(dir', Idle)) && Editable(t, dir', gone)
    ensures dir' == dir.(files := dir'.files, clock := dir'.clock) && dir.clock <= dir'.clock
    ensures forall q :: q != p ==> SameFile(dir.files, dir'.files, q)
    ensures SameThere(ContentsOf(dir'.files), target, p)
    ensures ClockedBy(dir.files, dir.clock) ==> ClockedBy(dir'.files, dir'.clock)
  {
    hide Leads, BuildLog.Parse, DepsLog.Parse, Restless;
    if p in target {
      var now := dir.clock + 1;
      dir' := dir.(files := dir.files[p := File(target[p], now)], clock := now);
      RestlessIsUnvouched(t, Memory(dir', now), gone, p);
      hide Unvouched;
      OneMore(t, s0, State(dir, Idle), Edit(p, target[p], now), State(dir', Idle));
    } else {
      dir' := dir.(files := dir.files - {p});
      OneMore(t, s0, State(dir, Idle), Delete(p), State(dir', Idle));
    }
  }

  ghost predicate ClockedBy(files: Files, clock: int)
  {
    forall p :: p in files ==> files[p].mtime <= clock
  }

  /** Edits and deletions that bring the files of `todo` to what `target` shows. */
  lemma {:induction false} EditAll(t: Tools, s0: State, dir: Dir, target: Contents, gone: set<Path>, todo: set<Path>)
    returns (dir': Dir)
    requires Leads(t, s0, State(dir, Idle)) && Occurring(t, target) && Editable(t, dir, gone) && todo !! gone
    ensures Leads(t, s0, State(dir', Idle))
    ensures dir' == dir.(files := dir'.files, clock := dir'.clock) && dir.clock <= dir'.clock
    ensures forall p :: p !in todo ==> SameFile(dir.files, dir'.files, p)
    ensures forall p :: p in todo ==> SameThere(ContentsOf(dir'.files), target, p)
    ensures ClockedBy(dir.files, dir.clock) ==> ClockedBy(dir'.files, dir'.clock)
    decreases todo
  {
    hide Leads, Editable, Occurring, ContentsOf, SameThere, ClockedBy;
    dir' := dir;
    if todo != {} {
      var p :| p in todo;
      var dir1 := EditOne(t, s0, dir, target, gone, p);
      dir' := EditAll(t, s0, dir1, target, gone, todo - {p});
      forall q | q in todo
        ensures SameThere(ContentsOf(dir'.files), target, q)
      {
        if q == p {
          StaysThere(dir1.files, dir'.files, target, p);
        }
      }
      forall q | q !in todo
        ensures SameFile(dir.files, dir'.files, q)
      {
        assert SameFile(dir.files, dir1.files, q) && SameFile(dir1.files, dir'.files, q);
      }
    }
  }

  lemma StaysThere(files: Files, files': Files, target: Contents, p: Path)
    requires SameFile(files, files', p) && SameThere(ContentsOf(files), target, p)
    ensures SameThere(ContentsOf(files'), target, p)
  {
  }

  /** All files are brought to what `target` shows. */
  lemma EditTo(t: Tools, s0: State, dir: Dir, target: Contents, gone: set<Path>) returns (dir': Dir)
    requires Leads(t, s0, State(dir, Idle)) && Occurring(t, target) && Editable(t, dir, gone)
    requires gone !! target.Keys && ClockedBy(dir.files, dir.clock)
    ensures Leads(t, s0, State(dir', Idle))
    ensures dir' == dir.(files := dir'.files, clock := dir'.clock) && ClockedBy(dir'.files, dir'.clock)
    ensures ContentsOf(dir'.files) == target
  {
    assert gone !! dir.files.Keys;
    hide Leads, Editable, Occurring, ContentsOf, SameThere, ClockedBy;
    var todo := dir.files.Keys + target.Keys;
    dir' := EditAll(t, s0, dir, target, gone, todo);
    hide Leads;
    forall p
      ensures SameThere(ContentsOf(dir'.files), target, p)
    {
      if p !in todo {
        assert SameFile(dir.files, dir'.files, p);
        AbsentFromBoth(dir'.files, target, p);
      }
    }
    SameEverywhere(ContentsOf(dir'.files), target);
  }

  lemma AbsentFromBoth(files: Files, target: Contents, p: Path)
    requires p !in files && p !in target
    ensures SameThere(ContentsOf(files), target, p)
  {
  }

  lemma SameEverywhere(c: Contents, d: Contents)
    requires forall p :: SameThere(c, d, p)
    ensures c == d
  {
    assert forall p :: SameThere(c, d, p) ==> (p in c <==> p in d);
  }
}
