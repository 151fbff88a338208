/**
 `main` from the lock to the last exit, over the log objects, the builder, and the atomic writes of the file system.
 Each stretch of it is proved to move along the steps of the history model, so everything proved about histories holds
 of it.
 */
module Session {
  import opened Prelude
  import opened Graphs
  import opened World
  import opened Builder
  import opened SchedulerSteps
  import opened ScheduledBuild
  import opened Incremental
  import opened LineFormat
  import opened History
  import opened FileSystem
  import BuildLog
  import DepsLog
  import LocalCache

  const BUILD_LOG: Path := ".forge_log"
  const DEPS_LOG: Path := ".forge_deps"
  const MARKER: Path := ".forge_in_progress"

  /** Some steps of the history model lead from `s` to `s'`. */
  ghost predicate Leads(t: Tools, s: State, s': State)
  {
    exists states, actions :: Trace(t, states, actions) && states[0] == s && states[|actions|] == s'
  }

  ghost predicate Trace(t: Tools, states: seq<State>, actions: seq<Action>)
  {
    |states| == |actions| + 1 && forall k :: 0 <= k < |actions| ==> Evolves(t, states[k], actions[k], states[k + 1])
  }

  /** A step that the process takes: nobody edits, deletes, tampers or lets the cache decay. */
  ghost predicate OwnStep(t: Tools, s: State, a: Action, s': State)
  {
    PrepareStep(t, s, a, s') || ExecuteStep(s, a, s') || CommitStep(s, a, s') || StopStep(s, a, s')
  }

  ghost predicate OwnTrace(t: Tools, states: seq<State>, actions: seq<Action>)
  {
    |states| == |actions| + 1 && forall k :: 0 <= k < |actions| ==> OwnStep(t, states[k], actions[k], states[k + 1])
  }

  /** Steps of the process alone lead from `s` to `s'`. */
  ghost predicate Proceeds(t: Tools, s: State, s': State)
  {
    exists states, actions :: OwnTrace(t, states, actions) && states[0] == s && states[|actions|] == s'
  }

  lemma StayPut(t: Tools, s: State)
    ensures Leads(t, s, s) && Proceeds(t, s, s)
  {
    var states, actions: seq<Action> := [s], [];
    assert Trace(t, states, actions) && OwnTrace(t, states, actions);
    assert states[0] == s && states[|actions|] == s;
  }

  lemma OneMore(t: Tools, s: State, m: State, a: Action, s': State)
    requires Leads(t, s, m) && Evolves(t, m, a, s')
    ensures Leads(t, s, s')
  {
    hide Evolves;
    var states, actions :| Trace(t, states, actions) && states[0] == s && states[|actions|] == m;
    var longer, more := states + [s'], actions + [a];
    forall k | 0 <= k < |more|
      ensures Evolves(t, longer[k], more[k], longer[k + 1])
    {
      if k < |actions| {
        assert Evolves(t, states[k], actions[k], states[k + 1]);
      }
    }
    assert Trace(t, longer, more) && longer[0] == s && longer[|more|] == s';
  }

  lemma OneMoreOwn(t: Tools, s: State, m: State, a: Action, s': State)
    requires Proceeds(t, s, m) && OwnStep(t, m, a, s')
    ensures Proceeds(t, s, s')
  {
    hide OwnStep;
    var states, actions :| OwnTrace(t, states, actions) && states[0] == s && states[|actions|] == m;
    var longer, more := states + [s'], actions + [a];
    forall k | 0 <= k < |more|
      ensures OwnStep(t, longer[k], more[k], longer[k + 1])
    {
      if k < |actions| {
        assert OwnStep(t, states[k], actions[k], states[k + 1]);
      }
    }
    assert OwnTrace(t, longer, more) && longer[0] == s && longer[|more|] == s';
  }

  /** What the process does after other steps is led to by all of them. */
  lemma ProceedsLeads(t: Tools, s: State, m: State, s': State)
    requires Leads(t, s, m) && Proceeds(t, m, s')
    ensures Leads(t, s, s')
  {
    hide OwnStep, Leads;
    var states, actions :| OwnTrace(t, states, actions) && states[0] == m && states[|actions|] == s';
    OwnTraceLeads(t, s, states, actions);
  }

  lemma {:induction false} OwnTraceLeads(t: Tools, s: State, states: seq<State>, actions: seq<Action>)
    requires OwnTrace(t, states, actions) && Leads(t, s, states[0])
    ensures Leads(t, s, states[|actions|])
    decreases |actions|
  {
    hide OwnStep, Leads;
    if actions != [] {
      var n := |actions| - 1;
      OwnTraceLeads(t, s, states[..n + 1], actions[..n]);
      OwnIsStep(t, states[n], actions[n], states[n + 1]);
      OneMore(t, s, states[n], actions[n], states[n + 1]);
    }
  }

  lemma OwnIsStep(t: Tools, s: State, a: Action, s': State)
    requires OwnStep(t, s, a, s')
    ensures Evolves(t, s, a, s')
  {
    hide OutsideStep, PrepareStep, ExecuteStep, CommitStep, StopStep;
  }

  /** What occurs, led on, occurs. */
  lemma {:induction false} LedOn(t: Tools, states: seq<State>, actions: seq<Action>, s: State)
    requires Trace(t, states, actions) && Occurs(t, states[0]) && states[|actions|] == s
    ensures Occurs(t, s)
    decreases |actions|
  {
    hide Evolves, Pristine;
    if actions != [] {
      var n := |actions| - 1;
      assert Trace(t, states[..n + 1], actions[..n]);
      LedOn(t, states[..n + 1], actions[..n], states[n]);
      var before, steps :| IsHistory(t, before, steps) && before[|steps|] == states[n];
      OneMoreStep(t, before, steps, actions[n], s);
    }
  }

  lemma OneMoreStep(t: Tools, states: seq<State>, actions: seq<Action>, a: Action, s': State)
    requires IsHistory(t, states, actions) && Evolves(t, states[|actions|], a, s')
    ensures Occurs(t, s')
  {
    hide Evolves, Pristine;
    var longer, more := states + [s'], actions + [a];
    forall k | 0 <= k < |more|
      ensures Evolves(t, longer[k], more[k], longer[k + 1])
    {
      if k < |actions| {
        assert Evolves(t, states[k], actions[k], states[k + 1]);
      }
    }
    assert IsHistory(t, longer, more) && longer[|more|] == s';
  }

  predicate StateFile(path: Path)
  {
    path == BUILD_LOG || path == DEPS_LOG || path == MARKER
  }

  lemma TemporaryIsApart(path: Path, other: Path, id: string)
    requires StateFile(path) && StateFile(other)
    ensures TemporaryPath(path, id) != other
  {
    var temp := TemporaryPath(path, id);
    assert |temp| > |path| && temp[7] == path[7];
    assert BUILD_LOG[7] == 'l' && DEPS_LOG[7] == 'd' && MARKER[7] == 'i';
  }

  class Session {
    /** The files of the project. */
    var files: Files
    var clock: int
    /** The marker and the two logs, under their paths. */
    const disk: FileSystem
    const cache: LocalCache.LocalCache
    const buildLog: BuildLog.BuildLog
    const depsLog: DepsLog.DepsLog
    ghost var runs: nat
    ghost var logRun: nat
    ghost var depsRun: nat
    ghost var author: map<Path, Command>
    ghost var intact: bool

    ghost function Directory(): Dir
      reads this, disk, cache
    {
      Dir(files, clock, !disk.At(MARKER).Absent?, disk.At(BUILD_LOG), disk.At(DEPS_LOG), cache.Value(),
          runs, logRun, depsRun, author, intact)
    }

    ghost function InMemory(): Disk
      reads this, buildLog, depsLog, cache
    {
      Disk(files, buildLog.entries, depsLog.entries, clock, cache.Value())
    }

    constructor (files: Files, clock: int, disk: FileSystem, cache: LocalCache.LocalCache)
      ensures fresh(buildLog) && fresh(depsLog) && buildLog.entries == map[] && depsLog.entries == map[]
      ensures this.files == files && this.clock == clock && this.disk == disk && this.cache == cache
    {
      this.files, this.clock, this.disk, this.cache := files, clock, disk, cache;
      buildLog := new BuildLog.BuildLog();
      depsLog := new DepsLog.DepsLog();
      runs, logRun, depsRun, author, intact := 0, 0, 0, map[], true;
    }

    /** The recovery decision: a marker, or a log that does not load, means that neither log is used. */
    method LoadState() returns (recovering: bool)
      requires buildLog.entries == map[] && depsLog.entries == map[]
      modifies buildLog, depsLog
      ensures buildLog.entries == LoadedLog(Directory()) && depsLog.entries == LoadedDeps(Directory())
      ensures recovering == Directory().marker
    {
      hide BuildLog.Parse, DepsLog.Parse;
      recovering := !disk.At(MARKER).Absent?;
      if recovering {
        return;
      }
      var buildLogResult := buildLog.Load(disk.At(BUILD_LOG));
      var depsLogResult := depsLog.Load(disk.At(DEPS_LOG));
      var bothLoaded := buildLogResult == LoadOk && depsLogResult == LoadOk;
      if !bothLoaded {
        buildLog.Clear();
        depsLog.Clear();
      }
    }

    /** `builder.build`; an exception becomes `None`. */
    method MakePlan(call: Call) returns (r: Option<seq<EdgeId>>, ghost scope: set<EdgeId>)
      requires ValidWorld(call.w)
      ensures r.Some? ==> PlannedFor(call, Made(InMemory(), scope, r.value))
      ensures r.Some? <==> forall target :: target in call.targets ==> ProducerOf(call.w.g, target).Some?
    {
      ghost var v := View(files, Some(buildLog.entries), Some(depsLog.entries));
      var builder := new Builder(call.w, View(files, Some(buildLog.entries), Some(depsLog.entries)));
      var built;
      ghost var dirty;
      built, scope, dirty := builder.Build(call.targets);
      if forall target :: target in call.targets ==> ProducerOf(call.w.g, target).Some? {
        DirtyIsAcyclic(call.w, v, scope, dirty);
      }
      if built.Err? {
        return None, scope;
      }
      PlanIsPlanned(call, InMemory(), scope, built.value);
      return Some(built.value), scope;
    }

    /** `atomic_write_file` on one of the state files: the two others are as before. */
    method WriteState(path: Path, text: string, id: string, fate: WriteFate) returns (ok: bool)
      requires StateFile(path)
      modifies disk
      ensures forall other :: StateFile(other) && other != path ==> disk.At(other) == old(disk.At(other))
      ensures disk.At(path) == if Lands(fate) then Text(text) else old(disk.At(path))
      ensures ok <==> fate.Smooth?
    {
      forall other | StateFile(other)
        ensures TemporaryPath(path, id) != other
      {
        TemporaryIsApart(path, other, id);
      }
      ok := disk.AtomicWrite(path, text, id, fate);
    }

    /** The marker is written: the last step before the scheduler starts. */
    method WriteMarker(t: Tools, call: Call, ghost made: Made, id: string, fate: WriteFate, ghost s0: State)
      returns (ok: bool)
      requires Proceeds(t, s0, State(Directory(), Ready(call, made)))
      modifies disk, this`runs
      ensures ok <==> fate.Smooth?
      ensures Proceeds(t, s0, State(Directory(), if ok then Marked(call, made) else Idle))
      ensures Directory() == if Lands(fate) then old(Directory()).(marker := true, runs := old(runs) + 1)
                             else old(Directory())
      ensures InMemory() == old(InMemory())
    {
      hide OwnStep, Proceeds;
      ghost var dir := Directory();
      ok := WriteState(MARKER, "build state in progress\n", id, fate);
      if Lands(fate) {
        runs := runs + 1;
        MarkLeads(t, s0, dir, Directory(), call, made);
      }
      if !ok {
        StopLeads(t, s0, Directory(), if Lands(fate) then Marked(call, made) else Ready(call, made));
      }
    }

    /**
     From the lock to the marker. With `Some(plan)` the scheduler is to run this plan; with `None` the process has
     exited or died: nothing to build, no plan, or no clean write of the marker.
     */
    method Start(t: Tools, call: Call, now: int, id: string, fate: WriteFate)
      returns (r: Option<seq<EdgeId>>, ghost made: Made)
      requires ValidWorld(call.w) && call.w.tools == t && call.jobs > 0 && clock < now
      requires buildLog.entries == map[] && depsLog.entries == map[]
      modifies this`clock, this`runs, disk, buildLog, depsLog
      ensures Proceeds(t, State(old(Directory()), Idle),
                       State(Directory(), if r.None? then Idle else Marked(call, made)))
      ensures InMemory() == made.start == Memory(old(Directory()), now)
      ensures (forall target :: target in call.targets ==> ProducerOf(call.w.g, target).Some?) ==>
                PlannedFor(call, made)
      ensures (exists target :: target in call.targets && ProducerOf(call.w.g, target).None?) ==> made.plan == []
      ensures r == if made.plan != [] && fate.Smooth? then Some(made.plan) else None
      ensures Directory() == if made.plan != [] && Lands(fate)
                             then old(Directory()).(clock := now, marker := true, runs := old(runs) + 1)
                             else old(Directory()).(clock := now)
    {
      hide OwnStep, Proceeds, ValidWorld, PlannedFor, LoadedLog, LoadedDeps, FileSystem.At, ProducerOf, Lands,
          LocalCache.LocalCache.Value;
      ghost var s0, dir0 := State(Directory(), Idle), Directory();
      var recovering := LoadState();
      clock := now;
      ghost var d := InMemory();
      BeginLeads(t, dir0, Directory(), call, now, d);
      ghost var scope;
      r, scope := MakePlan(call);
      made := Made(d, scope, if r.Some? then r.value else []);
      if r.None? {
        StopLeads(t, s0, Directory(), Loaded(call, d));
        return None, made;
      }
      if r.value == [] {
        NothingLeads(t, s0, Directory(), call, d, scope);
        return None, made;
      }
      PlanLeads(t, s0, Directory(), call, made);
      var ok := WriteMarker(t, call, made, id, fate, s0);
      if !ok {
        return None, made;
      }
    }

    /** The dependencies are saved: their file holds the new text, or what it held before. */
    method CommitDeps(t: Tools, call: Call, ghost made: Made, id: string, fate: WriteFate, ghost s0: State)
      returns (ok: bool, ghost text: string)
      requires Proceeds(t, s0, State(Directory(), Executed(call, made, InMemory())))
      modifies disk, this`depsRun
      ensures ok <==> fate.Smooth?
      ensures Proceeds(t, s0, State(Directory(), if ok then DepsSaved(call, made, InMemory()) else Idle))
      ensures DepsLog.IsTextOf(text, depsLog.entries) && InMemory() == old(InMemory())
      ensures Directory() == if Lands(fate) then old(Directory()).(depsLog := Text(text), depsRun := old(runs))
                             else old(Directory())
    {
      hide OwnStep, Proceeds;
      ghost var d, dir := InMemory(), Directory();
      var saved := depsLog.Save();
      text := saved;
      ok := WriteState(DEPS_LOG, saved, id, fate);
      if Lands(fate) {
        depsRun := runs;
        SaveDepsLeads(t, s0, dir, Directory(), call, made, d, text);
      }
      if !ok {
        StopLeads(t, s0, Directory(), if Lands(fate) then DepsSaved(call, made, d) else Executed(call, made, d));
      }
    }

    /** The build log is saved: its file holds the new text, or what it held before. */
    method CommitLog(t: Tools, call: Call, ghost made: Made, id: string, fate: WriteFate, ghost s0: State)
      returns (ok: bool, ghost text: string)
      requires Proceeds(t, s0, State(Directory(), DepsSaved(call, made, InMemory())))
      modifies disk, this`logRun
      ensures ok <==> fate.Smooth?
      ensures Proceeds(t, s0, State(Directory(), if ok then LogSaved(call, made, InMemory()) else Idle))
      ensures BuildLog.IsTextOf(text, buildLog.entries) && InMemory() == old(InMemory())
      ensures Directory() == if Lands(fate) then old(Directory()).(buildLog := Text(text), logRun := old(runs))
                             else old(Directory())
    {
      hide OwnStep, Proceeds;
      ghost var d, dir := InMemory(), Directory();
      var saved := buildLog.Save();
      text := saved;
      ok := WriteState(BUILD_LOG, saved, id, fate);
      if Lands(fate) {
        logRun := runs;
        SaveLogLeads(t, s0, dir, Directory(), call, made, d, text);
      }
      if !ok {
        StopLeads(t, s0, Directory(), if Lands(fate) then LogSaved(call, made, d) else DepsSaved(call, made, d));
      }
    }

    method RemoveMarker(t: Tools, call: Call, ghost made: Made, fate: RemoveFate, ghost s0: State) returns (ok: bool)
      requires Proceeds(t, s0, State(Directory(), LogSaved(call, made, InMemory()))) && Directory().marker
      modifies disk, this`intact
      ensures ok <==> fate.Removed?
      ensures Proceeds(t, s0, State(Directory(), Idle))
      ensures Directory() == if fate.NotRemoved? then old(Directory())
                             else old(Directory()).(marker := false, intact := true)
    {
      hide OwnStep, Proceeds;
      ghost var d, dir := InMemory(), Directory();
      ok := disk.TryRemove(MARKER, fate);
      if fate.NotRemoved? {
        StopLeads(t, s0, Directory(), LogSaved(call, made, d));
      } else {
        intact := true;
        CommitLeads(t, s0, dir, Directory(), call, made, d);
      }
    }

    /**
     After a successful scheduler run: dependencies, build log, marker. True is exit code zero. However it ends, each
     of the two files holds its new text or what it held before, and without the marker both hold the new one.
     */
    method Conclude(t: Tools, call: Call, ghost made: Made, id: string, depsFate: WriteFate, logFate: WriteFate,
                    fate: RemoveFate)
      returns (ok: bool, ghost deps: string, ghost log: string)
      requires Directory().marker
      modifies disk, this`logRun, this`depsRun, this`intact
      ensures Proceeds(t, State(old(Directory()), Executed(call, made, InMemory())), State(Directory(), Idle))
      ensures ok <==> depsFate.Smooth? && logFate.Smooth? && fate.Removed?
      ensures DepsLog.IsTextOf(deps, depsLog.entries)
      ensures depsFate.Smooth? ==> BuildLog.IsTextOf(log, buildLog.entries)
      ensures Directory().depsLog == if Lands(depsFate) then Text(deps) else old(Directory().depsLog)
      ensures Directory().buildLog ==
              if depsFate.Smooth? && Lands(logFate) then Text(log) else old(Directory().buildLog)
      ensures Directory().marker <==> !depsFate.Smooth? || !logFate.Smooth? || fate.NotRemoved?
      ensures InMemory() == old(InMemory())
      ensures !Directory().marker ==> Directory().depsLog == Text(deps) && Directory().buildLog == Text(log)
      ensures !Directory().marker ==>
                (Memory(Directory(), clock) == InMemory() <==>
                 BuildLog.Clean(buildLog.entries) && DepsLog.Clean(depsLog.entries))
    {
      hide Proceeds, Memory, FileSystem.At, LocalCache.LocalCache.Value, BuildLog.IsTextOf, DepsLog.IsTextOf,
          BuildLog.Clean, DepsLog.Clean;
      ghost var s0 := State(Directory(), Executed(call, made, InMemory()));
      StayPut(t, s0);
      log := "";
      ok, deps := CommitDeps(t, call, made, id, depsFate, s0);
      if !ok {
        return;
      }
      ok, log := CommitLog(t, call, made, id, logFate, s0);
      if !ok {
        return;
      }
      ok := RemoveMarker(t, call, made, fate, s0);
      if !fate.NotRemoved? {
        SavedIsLoaded(Directory(), InMemory(), deps, log);
      }
    }
  }

  /** The next run finds in memory what this one has saved, exactly when both logs are clean. */
  lemma SavedIsLoaded(dir: Dir, d: Disk, deps: string, log: string)
    requires DepsLog.IsTextOf(deps, d.deps) && BuildLog.IsTextOf(log, d.log)
    requires dir.files == d.files && dir.clock == d.clock && dir.cache == d.cache
    requires !dir.marker && dir.depsLog == Text(deps) && dir.buildLog == Text(log)
    ensures Memory(dir, d.clock) == d <==> BuildLog.Clean(d.log) && DepsLog.Clean(d.deps)
  {
    DepsLog.SavedThenLoaded(deps, d.deps);
    BuildLog.SavedThenLoaded(log, d.log);
    DepsLog.NothingIsClean();
    BuildLog.NothingIsClean();
    hide DepsLog.Parse, BuildLog.Parse, DepsLog.IsTextOf, BuildLog.IsTextOf, DepsLog.Clean, BuildLog.Clean;
  }

  /** The validator has let the manifest pass, so planning cannot find a cycle. */
  lemma DirtyIsAcyclic(w: World, v: View, C: set<EdgeId>, P: set<EdgeId>)
    requires ValidWorld(w) && C <= AllEdges(w.g) && DirtySet(w, v, C, P)
    ensures Acyclic(w.g, P)
  {
    hide Valid, Disciplined, Declared, Ordered, AllEdges;
    DirtyEdgesAreAllowed(w, v, C, P);
    hide DirtySet;
    AcyclicSubset(w.g, AllEdges(w.g), P);
  }

  lemma PlanIsPlanned(call: Call, d: Disk, scope: set<EdgeId>, plan: seq<EdgeId>)
    requires InScope(call.w.g, call.targets, scope) && ProducerClosed(call.w.g, scope) && scope <= AllEdges(call.w.g)
    requires DirtySet(call.w, View(d.files, Some(d.log), Some(d.deps)), scope, Elems(plan)) &&
        Topological(call.w.g, plan)
    ensures PlannedFor(call, Made(d, scope, plan))
  {
    hide InScope, ProducerClosed, AllEdges, DirtySet;
  }

  // ------------------------------------------------------------------------------------------
  // One step each
  // ------------------------------------------------------------------------------------------

  lemma BeginLeads(t: Tools, dir: Dir, dir': Dir, call: Call, now: int, d: Disk)
    requires ValidWorld(call.w) && call.w.tools == t && call.jobs > 0 && dir.clock < now && dir' == dir.(clock := now)
    requires d == Memory(dir, now)
    ensures Proceeds(t, State(dir, Idle), State(dir', Loaded(call, d)))
  {
    hide ValidWorld, Proceeds;
    StayPut(t, State(dir, Idle));
    OneMoreOwn(t, State(dir, Idle), State(dir, Idle), Begin(call, now), State(dir', Loaded(call, d)));
  }

  lemma StopLeads(t: Tools, s0: State, dir: Dir, phase: Phase)
    requires Proceeds(t, s0, State(dir, phase)) && !phase.Idle?
    ensures Proceeds(t, s0, State(dir, Idle))
  {
    hide Proceeds;
    OneMoreOwn(t, s0, State(dir, phase), Stop, State(dir, Idle));
  }

  lemma NothingLeads(t: Tools, s0: State, dir: Dir, call: Call, d: Disk, scope: set<EdgeId>)
    requires Proceeds(t, s0, State(dir, Loaded(call, d))) && PlannedFor(call, Made(d, scope, []))
    ensures Proceeds(t, s0, State(dir, Idle))
  {
    hide Proceeds, PlannedFor;
    OneMoreOwn(t, s0, State(dir, Loaded(call, d)), NothingToBuild(scope), State(dir, Idle));
  }

  lemma PlanLeads(t: Tools, s0: State, dir: Dir, call: Call, made: Made)
    requires Proceeds(t, s0, State(dir, Loaded(call, made.start))) && PlannedFor(call, made) && made.plan != []
    ensures Proceeds(t, s0, State(dir, Ready(call, made)))
  {
    hide Proceeds, PlannedFor;
    OneMoreOwn(t, s0, State(dir, Loaded(call, made.start)), History.Plan(made.scope, made.plan),
            State(dir, Ready(call, made)));
  }

  lemma MarkLeads(t: Tools, s0: State, dir: Dir, dir': Dir, call: Call, made: Made)
    requires Proceeds(t, s0, State(dir, Ready(call, made))) && dir' == dir.(marker := true, runs := dir.runs + 1)
    ensures Proceeds(t, s0, State(dir', Marked(call, made)))
  {
    hide Proceeds;
    OneMoreOwn(t, s0, State(dir, Ready(call, made)), Mark, State(dir', Marked(call, made)));
  }

  lemma SaveDepsLeads(t: Tools, s0: State, dir: Dir, dir': Dir, call: Call, made: Made, d: Disk, text: string)
    requires Proceeds(t, s0, State(dir, Executed(call, made, d))) && DepsLog.IsTextOf(text, d.deps)
    requires dir' == dir.(depsLog := Text(text), depsRun := dir.runs)
    ensures Proceeds(t, s0, State(dir', DepsSaved(call, made, d)))
  {
    hide Proceeds, DepsLog.IsTextOf;
    OneMoreOwn(t, s0, State(dir, Executed(call, made, d)), SaveDeps(text), State(dir', DepsSaved(call, made, d)));
  }

  lemma SaveLogLeads(t: Tools, s0: State, dir: Dir, dir': Dir, call: Call, made: Made, d: Disk, text: string)
    requires Proceeds(t, s0, State(dir, DepsSaved(call, made, d))) && BuildLog.IsTextOf(text, d.log)
    requires dir' == dir.(buildLog := Text(text), logRun := dir.runs)
    ensures Proceeds(t, s0, State(dir', LogSaved(call, made, d)))
  {
    hide Proceeds, BuildLog.IsTextOf;
    OneMoreOwn(t, s0, State(dir, DepsSaved(call, made, d)), SaveLog(text), State(dir', LogSaved(call, made, d)));
  }

  lemma CommitLeads(t: Tools, s0: State, dir: Dir, dir': Dir, call: Call, made: Made, d: Disk)
    requires Proceeds(t, s0, State(dir, LogSaved(call, made, d))) && dir' == dir.(marker := false, intact := true)
    ensures Proceeds(t, s0, State(dir', Idle))
  {
    hide Proceeds;
    OneMoreOwn(t, s0, State(dir, LogSaved(call, made, d)), Commit, State(dir', Idle));
  }
}
