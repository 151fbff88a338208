/**
 Many runs over one build directory. A run takes the lock, looks at the marker, loads both logs or neither,
 plans, writes the marker, runs the plan, saves the two logs and removes the marker; it can stop between any two
 of these steps and in the middle of the commands. Between runs, files are edited and deleted, logs get lost, and
 files of the cache get lost or damaged.
 The lock is what makes runs follow one another here.
 */
module History {
  import opened Prelude
  import opened Graphs
  import opened World
  import opened Cache
  import opened CachedEdges
  import opened Builder
  import opened SchedulerSteps
  import opened Execution
  import opened ScheduledBuild
  import opened Incremental
  import opened LineFormat
  import BuildLog
  import DepsLog

  /**
   The build directory. `author` (the command that last wrote an output), `logRun` and `depsRun` (the run that
   wrote a log) and `intact` (nobody else touched the logs since) are history, not data on disk.
   */
  datatype Dir = Dir(
    files: Files,
    clock: int,
    marker: bool,
    buildLog: Stored,
    depsLog: Stored,
    cache: Cache,
    runs: nat,
    logRun: nat,
    depsRun: nat,
    author: map<Path, Command>,
    intact: bool)

  /** How the program was called: a manifest, targets and a number of jobs. */
  datatype Call = Call(w: World, targets: seq<string>, jobs: nat)

  /** A plan for the edges of `scope`, made from what `start` shows. */
  datatype Made = Made(start: Disk, scope: set<EdgeId>, plan: seq<EdgeId>)

  /** How far the process that holds the lock has come; `d` is what it has in memory and on disk. */
  datatype Phase =
    | Idle
    | Loaded(call: Call, d: Disk)
    | Ready(call: Call, made: Made)
    | Marked(call: Call, made: Made)
    | Executed(call: Call, made: Made, d: Disk)
    | DepsSaved(call: Call, made: Made, d: Disk)
    | LogSaved(call: Call, made: Made, d: Disk)

  datatype State = State(dir: Dir, phase: Phase)

  datatype Action =
    | Edit(path: Path, content: Content, now: int)
    | Delete(path: Path)
    | Tamper(buildLog: Stored, depsLog: Stored)
    | Decay(cache: Cache)
    | Begin(call: Call, now: int)
    | Plan(scope: set<EdgeId>, plan: seq<EdgeId>)
    | NothingToBuild(scope: set<EdgeId>)
    | Mark
    | Run(d: Disk)
    | Break(d: Disk)
    | SaveDeps(text: string)
    | SaveLog(text: string)
    | Commit
    | Stop

  /** Both logs are there and can be read. */
  ghost predicate Trusted(dir: Dir)
  {
    !dir.marker && BuildLog.Parse(dir.buildLog).Good? && DepsLog.Parse(dir.depsLog).Good?
  }

  /** The recovery decision: both logs or none. */
  ghost function LoadedLog(dir: Dir): map<Path, nat>
  {
    if Trusted(dir) then BuildLog.Parse(dir.buildLog).entries else map[]
  }

  ghost function LoadedDeps(dir: Dir): map<Path, seq<Path>>
  {
    if Trusted(dir) then DepsLog.Parse(dir.depsLog).entries else map[]
  }

  ghost function Memory(dir: Dir, now: int): Disk
  {
    Disk(dir.files, LoadedLog(dir), LoadedDeps(dir), now, dir.cache)
  }

  /** What `Builder.Build` promises for this call. */
  ghost predicate PlannedFor(call: Call, made: Made)
  {
    && Planned(call.w, made.start, made.scope, made.plan)
    && InScope(call.w.g, call.targets, made.scope)
  }

  /** The author of every planned output is its command; nothing else changes hands. */
  ghost predicate Authored(w: World, P: set<EdgeId>, author: map<Path, Command>, author': map<Path, Command>)
  {
    && (forall e: EdgeId, o :: e in P && e < |w.command| && o in w.tools.outputs(w.command[e]) ==>
         o in author' && author'[o] == w.command[e])
    && AuthorsOutside(w, P, author, author')
  }

  ghost predicate AuthorsOutside(w: World, P: set<EdgeId>, author: map<Path, Command>, author': map<Path, Command>)
  {
    forall o :: o !in OutputsOf(w, P) ==> (o in author <==> o in author') && (o in author ==> author[o] == author'[o])
  }

  /** The checks let no command pass that has `p` among its outputs. */
  ghost predicate Unvouched(t: Tools, d: Disk, p: Path)
  {
    forall x: Command :: t.known(x) && p in t.outputs(x) ==> !Calm(t, x, d)
  }

  /** Nobody writes a generated file by hand so that the checks take it for what its command wrote. */
  ghost predicate OutsideStep(t: Tools, s: State, a: Action, s': State)
  {
    s.phase.Idle? && s'.phase.Idle? &&
    match a
    case Edit(p, content, now) =>
      && s.dir.clock < now && t.occurs(content)
      && s'.dir == s.dir.(files := s.dir.files[p := File(content, now)], clock := now)
      && Unvouched(t, Memory(s'.dir, now), p)
    case Delete(p) => s'.dir == s.dir.(files := s.dir.files - {p})
    case Tamper(buildLog, depsLog) =>
      && s'.dir == s.dir.(buildLog := buildLog, depsLog := depsLog, intact := false)
      && !(BuildLog.Parse(buildLog).Good? && DepsLog.Parse(depsLog).Good?)
    case Decay(cache) => Decayed(t.contentHash, s.dir.cache, cache) && s'.dir == s.dir.(cache := cache)
    case _ => false
  }

  /** From the lock to the marker: nothing is written. */
  ghost predicate PrepareStep(t: Tools, s: State, a: Action, s': State)
  {
    match a
    case Begin(call, now) =>
      && s.phase.Idle? && ValidWorld(call.w) && call.w.tools == t && call.jobs > 0
      && s.dir.clock < now && s'.dir == s.dir.(clock := now) && s'.phase == Loaded(call, Memory(s.dir, now))
    case Plan(scope, plan) =>
      && s.phase.Loaded? && plan != [] && PlannedFor(s.phase.call, Made(s.phase.d, scope, plan))
      && s'.dir == s.dir && s'.phase == Ready(s.phase.call, Made(s.phase.d, scope, plan))
    case NothingToBuild(scope) =>
      && s.phase.Loaded? && PlannedFor(s.phase.call, Made(s.phase.d, scope, []))
      && s'.dir == s.dir && s'.phase == Idle
    case Mark =>
      && s.phase.Ready?
      && s'.dir == s.dir.(marker := true, runs := s.dir.runs + 1) && s'.phase == Marked(s.phase.call, s.phase.made)
    case _ => false
  }

  /** The commands run: to a successful end, or to a failure or the death of the process. */
  ghost predicate ExecuteStep(s: State, a: Action, s': State)
  {
    s.phase.Marked? && var call, made := s.phase.call, s.phase.made;
    match a
    case Run(d) =>
      && Built(call.w, made.plan, call.jobs, made.start, d)
      && s'.dir == s.dir.(files := d.files, clock := d.clock, cache := d.cache, author := s'.dir.author)
      && Authored(call.w, Elems(made.plan), s.dir.author, s'.dir.author)
      && s'.phase == Executed(call, made, d)
    case Break(d) =>
      && (exists sys :: Reachable(call.w, made.plan, call.jobs, made.start, sys) && sys.disk == d)
      && s'.dir == s.dir.(files := d.files, clock := d.clock, cache := d.cache, author := s'.dir.author)
      && AuthorsOutside(call.w, Elems(made.plan), s.dir.author, s'.dir.author)
      && s'.phase == Idle
    case _ => false
  }

  ghost predicate CommitStep(s: State, a: Action, s': State)
  {
    match a
    case SaveDeps(text) =>
      && s.phase.Executed?
      && DepsLog.IsTextOf(text, s.phase.d.deps)
      && s'.dir == s.dir.(depsLog := Text(text), depsRun := s.dir.runs)
      && s'.phase == DepsSaved(s.phase.call, s.phase.made, s.phase.d)
    case SaveLog(text) =>
      && s.phase.DepsSaved?
      && BuildLog.IsTextOf(text, s.phase.d.log)
      && s'.dir == s.dir.(buildLog := Text(text), logRun := s.dir.runs)
      && s'.phase == LogSaved(s.phase.call, s.phase.made, s.phase.d)
    case Commit =>
      && s.phase.LogSaved? && s'.dir == s.dir.(marker := false, intact := true) && s'.phase == Idle
    case _ => false
  }

  ghost predicate StopStep(s: State, a: Action, s': State)
  {
    a.Stop? && !s.phase.Idle? && s' == s.(phase := Idle)
  }

  ghost predicate Evolves(t: Tools, s: State, a: Action, s': State)
  {
    || OutsideStep(t, s, a, s') || PrepareStep(t, s, a, s') || ExecuteStep(s, a, s')
    || CommitStep(s, a, s') || StopStep(s, a, s')
  }

  /** A directory in which nothing was ever built. */
  ghost predicate Pristine(t: Tools, s: State)
  {
    && s.phase.Idle? && !s.dir.marker && s.dir.buildLog.Absent? && s.dir.depsLog.Absent?
    && s.dir.cache == NO_CACHE && Occurring(t, ContentsOf(s.dir.files))
    && (forall p :: p in s.dir.files ==> s.dir.files[p].mtime <= s.dir.clock)
  }

  ghost predicate IsHistory(t: Tools, states: seq<State>, actions: seq<Action>)
  {
    && |states| == |actions| + 1 && Pristine(t, states[0])
    && forall k :: 0 <= k < |actions| ==> Evolves(t, states[k], actions[k], states[k + 1])
  }

  ghost predicate Occurs(t: Tools, s: State)
  {
    exists states, actions :: IsHistory(t, states, actions) && states[|actions|] == s
  }
}
