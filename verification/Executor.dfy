/**
 `Executor::execute_edge`: cache lookup, the command, the check of its outputs, its depfile, the two logs, and the
 store. What it does is stated for every process, and proved to be a step of the edge relations of `CachedEdges` and
 `World`, which are what the scheduler's steps are made of.
 */
module Executor {
  import opened Prelude
  import opened Graphs
  import opened Cache
  import opened World
  import opened CachedEdges
  import LocalCache
  import BuildLog
  import DepsLog

  /** What the depfile of a finished command says. */
  datatype Depfile = Depfile(target: Path, inputs: seq<Path>)

  /**
   What becomes of the process: whether it started and how it ended, the files it wrote or, with `None`, deleted, and
   the depfile found afterwards under the edge's depfile path, if any.
   */
  datatype Process = Process(spawned: bool, signaled: bool, exited: bool, exitCode: int,
      wrote: map<Path, Option<Content>>, depfile: Option<Depfile>)

  predicate Succeeded(p: Process)
  {
    p.spawned && !p.signaled && p.exited && p.exitCode == 0
  }

  /** One edge, as far as execution goes. An empty `depfile` path means that its rule has none. */
  datatype Job = Job(command: Command, outputs: seq<Path>, hasDepfile: bool)

  /** What the outside world does during one edge. */
  datatype Turn = Turn(process: Process, now: int, copy: CopyFate, store: StoreFate)

  // ------------------------------------------------------------------------------------------
  // What an edge does
  // ------------------------------------------------------------------------------------------

  /** The files after the process. */
  function Written(files: Files, wrote: map<Path, Option<Content>>, now: int): Files
  {
    map p | p in files.Keys + wrote.Keys && (p in wrote ==> wrote[p].Some?) ::
      if p in wrote then File(wrote[p].value, now) else files[p]
  }

  function Entries(outputs: seq<Path>, hash: nat): map<Path, nat>
  {
    map o | o in Elems(outputs) :: hash
  }

  /** The key of the job under the records and files of `d`, if it uses the cache and all files are there. */
  function JobKey(t: Tools, job: Job, d: Disk): Option<nat>
  {
    if !(job.hasDepfile && |job.outputs| == 1 && t.identity(job.command).Some?) then None
    else
      var o := job.outputs[0];
      if o !in d.deps || Snapshot(d.deps[o], ContentsOf(d.files)).None? then None
      else Some(t.key(t.identity(job.command).value, job.command, Snapshot(d.deps[o], ContentsOf(d.files)).value))
  }

  /** The cache has a verified entry for the present state. */
  ghost predicate InCache(t: Tools, job: Job, d: Disk)
  {
    JobKey(t, job, d).Some? && Verified(t.contentHash, d.cache, JobKey(t, job, d).value)
  }

  /** A lookup that hands nothing out throws away an entry it could not verify. */
  ghost function AfterMiss(t: Tools, job: Job, d: Disk): Cache
  {
    var k := JobKey(t, job, d);
    if k.Some? && k.value in d.cache.objects && k.value in d.cache.metas && !Verified(t.contentHash, d.cache, k.value)
    then Without(d.cache, k.value)
    else d.cache
  }

  /** After a success the output is stored under the key of the record that the run has just made. */
  function Deposited(t: Tools, job: Job, d: Disk, cache: Cache, fate: StoreFate): Cache
  {
    var k := JobKey(t, job, d);
    if k.None? || job.outputs[0] !in d.files then cache
    else AfterStore(t.contentHash, cache, k.value, d.files[job.outputs[0]].content, fate)
  }

  /** The process succeeded, all declared outputs exist, and the depfile can be read. */
  ghost predicate Completes(job: Job, p: Process, files: Files, now: int)
  {
    && Succeeded(p) && (forall o :: o in job.outputs ==> o in Written(files, p.wrote, now))
    && (job.hasDepfile ==> p.depfile.Some?)
  }

  /** The files, logs and clock that a completed command leaves. */
  function Completed(t: Tools, job: Job, p: Process, now: int, d: Disk): Disk
    requires job.hasDepfile ==> p.depfile.Some?
  {
    Disk(Written(d.files, p.wrote, now), d.log + Entries(job.outputs, t.hash(job.command)),
         if job.hasDepfile then d.deps[p.depfile.value.target := p.depfile.value.inputs] else d.deps, now, d.cache)
  }

  /** A command that did not complete may have changed files, if it started; neither log knows. */
  function Abandoned(p: Process, now: int, d: Disk): Disk
  {
    if p.spawned then d.(files := Written(d.files, p.wrote, now), clock := now) else d
  }

  /** A hit writes one output, logs it, and leaves the record that led to it. */
  function Restored(t: Tools, job: Job, now: int, d: Disk): Disk
    requires JobKey(t, job, d).Some? && JobKey(t, job, d).value in d.cache.objects
  {
    var o := job.outputs[0];
    d.(files := d.files[o := File(d.cache.objects[JobKey(t, job, d).value], now)],
       log := d.log[o := t.hash(job.command)], clock := now)
  }

  /** The whole effect of `execute_edge`, for every process and every behaviour of the file system. */
  ghost predicate EdgeOutcome(t: Tools, job: Job, turn: Turn, d: Disk, d': Disk, ok: bool, hit: bool)
  {
    var missed := d.(cache := AfterMiss(t, job, d));
    && (hit <==> InCache(t, job, d) && turn.copy.Copied?)
    && (hit ==> ok && d' == Restored(t, job, turn.now, d))
    && (!hit ==> (ok <==> Completes(job, turn.process, d.files, turn.now)))
    && (!hit && ok ==> d' == Completed(t, job, turn.process, turn.now, missed).(cache := d'.cache))
    && (!hit && ok ==> d'.cache == Deposited(t, job, d', missed.cache, turn.store))
    && (!ok ==> d' == Abandoned(turn.process, turn.now, missed))
  }

  // ------------------------------------------------------------------------------------------
  // What an outcome means
  // ------------------------------------------------------------------------------------------

  lemma CompletesIff(job: Job, p: Process, files: Files, now: int)
    ensures Completes(job, p, files, now) <==>
      && p.spawned && !p.signaled && p.exited && p.exitCode == 0
      && (forall o :: o in job.outputs ==> if o in p.wrote then p.wrote[o].Some? else o in files)
      && (job.hasDepfile ==> p.depfile.Some?)
  {
  }

  /**
   A command fails when it did not start, was killed, did not exit or exited with another code than zero, when a
   declared output is missing afterwards, or when its depfile cannot be read, and only then; no log knows of it.
   */
  lemma FailsIff(t: Tools, job: Job, turn: Turn, d: Disk, d': Disk, ok: bool, hit: bool)
    requires EdgeOutcome(t, job, turn, d, d', ok, hit)
    ensures !ok <==>
      && !hit
      && (|| !turn.process.spawned || turn.process.signaled || !turn.process.exited || turn.process.exitCode != 0
          || (exists o ::
                o in job.outputs && if o in turn.process.wrote then turn.process.wrote[o].None? else o !in d.files)
          || (job.hasDepfile && turn.process.depfile.None?))
    ensures !ok ==> d'.log == d.log && d'.deps == d.deps && d'.cache.stored == d.cache.stored
    ensures !ok && !turn.process.spawned ==> d'.files == d.files
  {
    CompletesIff(job, turn.process, d.files, turn.now);
    hide Completes, Completed, Restored, InCache, Deposited, Written, JobKey, Verified;
  }

  /** After a success all outputs are there and logged under the present command; no other entry has changed. */
  lemma SuccessLeaves(t: Tools, job: Job, turn: Turn, d: Disk, d': Disk, hit: bool)
    requires EdgeOutcome(t, job, turn, d, d', true, hit)
    ensures forall o :: o in job.outputs ==> o in d'.files && o in d'.log && d'.log[o] == t.hash(job.command)
    ensures forall o :: o !in job.outputs ==> (o in d'.log <==> o in d.log) && (o in d.log ==> d'.log[o] == d.log[o])
    ensures hit || !job.hasDepfile ==> d'.deps == d.deps
    ensures !hit && job.hasDepfile ==>
              && turn.process.depfile.Some?
              && d'.deps == d.deps[turn.process.depfile.value.target := turn.process.depfile.value.inputs]
  {
    hide AfterMiss, Deposited, Verified, Abandoned, Written;
    if hit {
      hide JobKey;
      KeyHasOneOutput(t, job, d);
    } else {
      hide JobKey, Restored;
      EntriesAre(job.outputs, t.hash(job.command));
    }
  }

  lemma KeyHasOneOutput(t: Tools, job: Job, d: Disk)
    requires JobKey(t, job, d).Some?
    ensures |job.outputs| == 1 && job.hasDepfile && forall o :: o in job.outputs <==> o == job.outputs[0]
  {
  }

  lemma EntriesAre(outputs: seq<Path>, hash: nat)
    ensures forall o :: (o in Entries(outputs, hash) <==> o in outputs)
    ensures forall o :: o in outputs ==> Entries(outputs, hash)[o] == hash
  {
  }

  /** A process leaves the files it wrote, as it wrote them and not those it deleted, and all others as they were. */
  lemma ProcessLeaves(t: Tools, job: Job, turn: Turn, d: Disk, d': Disk, ok: bool, p: Path)
    requires EdgeOutcome(t, job, turn, d, d', ok, false) && turn.process.spawned
    ensures p in turn.process.wrote ==>
              (if turn.process.wrote[p].None? then p !in d'.files
               else p in d'.files && d'.files[p] == File(turn.process.wrote[p].value, turn.now))
    ensures p !in turn.process.wrote ==> SameFile(d.files, d'.files, p)
  {
    hide AfterMiss, Deposited, Verified, InCache, Entries, JobKey, Completes;
  }

  lemma KeyOfRecord(t: Tools, job: Job, record: seq<Path>, d: Disk)
    requires job.hasDepfile && |job.outputs| == 1 && t.identity(job.command).Some?
    requires job.outputs[0] in d.deps && d.deps[job.outputs[0]] == record
    requires forall p :: p in record ==> p in d.files
    ensures Snapshot(record, ContentsOf(d.files)).Some?
    ensures JobKey(t, job, d) ==
            Some(t.key(t.identity(job.command).value, job.command, Snapshot(record, ContentsOf(d.files)).value))
  {
    SnapshotTells(record, ContentsOf(d.files));
    hide Snapshot;
  }

  lemma SameKey(t: Tools, job: Job, record: seq<Path>, d: Disk, e: Disk)
    requires job.hasDepfile && |job.outputs| == 1 && t.identity(job.command).Some?
    requires job.outputs[0] in d.deps && d.deps[job.outputs[0]] == record
    requires job.outputs[0] in e.deps && e.deps[job.outputs[0]] == record
    requires forall p :: p in record ==> p in d.files && p in e.files && e.files[p].content == d.files[p].content
    ensures JobKey(t, job, d).Some? && JobKey(t, job, e) == JobKey(t, job, d)
  {
    KeyOfRecord(t, job, record, d);
    KeyOfRecord(t, job, record, e);
    assert Agree(ContentsOf(d.files), ContentsOf(e.files), Elems(record));
    AgreeingSnapshots(record, ContentsOf(d.files), ContentsOf(e.files));
  }

  lemma SmoothIsVerified(t: Tools, job: Job, d: Disk, cache: Cache)
    requires JobKey(t, job, d).Some? && job.outputs[0] in d.files && d.cache == Deposited(t, job, d, cache, Smooth)
    ensures InCache(t, job, d) && d.cache.objects[JobKey(t, job, d).value] == d.files[job.outputs[0]].content
  {
  }

  lemma SameInCache(t: Tools, job: Job, d: Disk, e: Disk)
    requires JobKey(t, job, d) == JobKey(t, job, e) && d.cache == e.cache
    ensures InCache(t, job, d) <==> InCache(t, job, e)
  {
    hide JobKey, Verified;
  }

  /**
   What a smooth store has put away after a run is handed out for the next run of the job, as long as its record, the
   files on it and the cache are as they were.
   */
  lemma StoredIsRestored(t: Tools, job: Job, record: seq<Path>, turn: Turn, d: Disk, d': Disk, later: Turn, e: Disk,
                         e': Disk, ok: bool, hit: bool)
    requires job.hasDepfile && |job.outputs| == 1 && t.identity(job.command).Some?
    requires EdgeOutcome(t, job, turn, d, d', true, false) && turn.store.Smooth?
    requires turn.process.depfile == Some(Depfile(job.outputs[0], record))
    requires e.cache == d'.cache && job.outputs[0] in e.deps && e.deps[job.outputs[0]] == record
    requires forall p :: p in record ==> p in d'.files && p in e.files && e.files[p].content == d'.files[p].content
    requires EdgeOutcome(t, job, later, e, e', ok, hit) && later.copy.Copied?
    ensures hit && ok && job.outputs[0] in d'.files
    ensures e' == e.(files := e.files[job.outputs[0] := File(d'.files[job.outputs[0]].content, later.now)],
                     log := e.log[job.outputs[0] := t.hash(job.command)], clock := later.now)
  {
    SuccessLeaves(t, job, turn, d, d', false);
    assert job.outputs[0] in job.outputs;
    SameKey(t, job, record, d', e);
    hide Completes, Completed, Abandoned, AfterMiss, JobKey, Verified;
    SmoothIsVerified(t, job, d', AfterMiss(t, job, d));
    SameInCache(t, job, d', e);
    hide InCache, Deposited;
  }

  class Executor {
    const t: Tools
    const buildLog: BuildLog.BuildLog
    const depsLog: DepsLog.DepsLog
    const cache: LocalCache.LocalCache
    var files: Files
    var clock: int

    constructor (t: Tools, buildLog: BuildLog.BuildLog, depsLog: DepsLog.DepsLog, cache: LocalCache.LocalCache,
                 files: Files, clock: int)
      ensures this.t == t && this.buildLog == buildLog && this.depsLog == depsLog && this.cache == cache
      ensures this.files == files && this.clock == clock
    {
      this.t, this.buildLog, this.depsLog := t, buildLog, depsLog;
      this.cache, this.files, this.clock := cache, files, clock;
    }

    /** The cache hashes contents as the tools say. */
    ghost predicate Valid()
      reads this, cache
    {
      cache.Valid() && cache.h == t.contentHash
    }

    ghost function State(): Disk
      reads this, buildLog, depsLog, cache
    {
      Disk(files, buildLog.entries, depsLog.entries, clock, cache.Value())
    }

    /** `add_dependency` for every recorded path; stops at the first file that is missing. */
    method TakeSnapshot(paths: seq<Path>) returns (s: Option<seq<(Path, Content)>>)
      ensures s == Snapshot(paths, ContentsOf(files))
    {
      var taken: seq<(Path, Content)> := [];
      assert paths[..0] == [];
      for k := 0 to |paths|
        invariant Snapshot(paths[..k], ContentsOf(files)) == Some(taken)
      {
        assert paths[..k + 1][..k] == paths[..k];
        if paths[k] !in files {
          MissingSpoils(paths, k, ContentsOf(files));
          return None;
        }
        taken := taken + [(paths[k], files[paths[k]].content)];
      }
      assert paths[..|paths|] == paths;
      return Some(taken);
    }

    /** The key of the edge from the record of its output, if there is a record and all files are there. */
    method CurrentKey(job: Job) returns (k: Option<nat>)
      requires job.hasDepfile && |job.outputs| == 1 && t.identity(job.command).Some?
      ensures k == JobKey(t, job, State())
    {
      var known := depsLog.Contains(job.outputs[0]);
      if !known {
        return None;
      }
      var inputs := depsLog.Inputs(job.outputs[0]);
      var s := TakeSnapshot(inputs.value);
      if s.None? {
        return None;
      }
      return Some(t.key(t.identity(job.command).value, job.command, s.value));
    }

    /** The lookup before the command: the content that the cache hands out for the present state, if any. */
    method LookUp(job: Job, fate: CopyFate) returns (r: Option<Content>)
      requires Valid() && job.hasDepfile && |job.outputs| == 1 && t.identity(job.command).Some?
      modifies cache
      ensures Valid() && (r.Some? <==> old(InCache(t, job, State())) && fate.Copied?)
      ensures r.Some? ==> cache.Value() == old(cache.Value()) &&
                          r.value == old(cache.objects)[old(JobKey(t, job, State())).value]
      ensures r.None? ==> cache.Value() == old(AfterMiss(t, job, State()))
    {
      var k := CurrentKey(job);
      if k.None? {
        return None;
      }
      var found := cache.Contains(k.value);
      if !found {
        return None;
      }
      r := cache.Restore(k.value, fate);
    }

    /** Records one hash for every output. */
    method RecordOutputs(outputs: seq<Path>, hash: nat)
      modifies buildLog
      ensures buildLog.entries == old(buildLog.entries) + Entries(outputs, hash)
    {
      assert Entries(outputs[..0], hash) == map[];
      for k := 0 to |outputs|
        invariant buildLog.entries == old(buildLog.entries) + Entries(outputs[..k], hash)
      {
        buildLog.Record(outputs[k], hash);
        assert outputs[..k + 1] == outputs[..k] + [outputs[k]];
      }
      assert outputs[..|outputs|] == outputs;
    }

    /** The command itself, the check of its outputs, its depfile and the logs. */
    method RunCommand(job: Job, process: Process, now: int) returns (ok: bool)
      modifies this, buildLog, depsLog
      ensures ok <==>
        && process.spawned && !process.signaled && process.exited && process.exitCode == 0
        && (forall o :: o in job.outputs ==> if o in process.wrote then process.wrote[o].Some? else o in old(files))
        && (job.hasDepfile ==> process.depfile.Some?)
      ensures ok <==> Completes(job, process, old(files), now)
      ensures ok ==> State() == Completed(t, job, process, now, old(State()))
      ensures !ok ==> State() == Abandoned(process, now, old(State()))
      ensures !ok ==> buildLog.entries == old(buildLog.entries) && depsLog.entries == old(depsLog.entries)
    {
      CompletesIff(job, process, files, now);
      hide Written;
      if !process.spawned {
        return false;
      }
      files, clock := Written(files, process.wrote, now), now;
      if process.signaled {
        return false;
      }
      if !process.exited {
        return false;
      }
      if process.exitCode != 0 {
        return false;
      }
      for k := 0 to |job.outputs|
        invariant forall j :: 0 <= j < k ==> job.outputs[j] in files
      {
        if job.outputs[k] !in files {
          return false;
        }
      }
      if job.hasDepfile {
        if process.depfile.None? {
          return false;
        }
        depsLog.Record(process.depfile.value.target, process.depfile.value.inputs);
      }
      RecordOutputs(job.outputs, t.hash(job.command));
      return true;
    }

    /** After a run, the cache gets the output under the key of the record that the run has just made. */
    method StoreResult(job: Job, fate: StoreFate)
      requires Valid() && job.hasDepfile && |job.outputs| == 1 && t.identity(job.command).Some?
      modifies cache
      ensures Valid() && cache.Value() == old(Deposited(t, job, State(), cache.Value(), fate))
    {
      var output := job.outputs[0];
      var k := CurrentKey(job);
      if k.None? {
        return;
      }
      var ok := cache.Store(k.value, if output in files then Some(files[output].content) else None, fate);
    }

    method TakeHit(job: Job, content: Content, now: int)
      requires |job.outputs| == 1
      modifies this, buildLog
      ensures files == old(files)[job.outputs[0] := File(content, now)] && clock == now
      ensures buildLog.entries == old(buildLog.entries)[job.outputs[0] := t.hash(job.command)]
    {
      files, clock := files[job.outputs[0] := File(content, now)], now;
      buildLog.Record(job.outputs[0], t.hash(job.command));
    }

    /** One edge. `hit` tells whether the cache delivered the output. */
    method ExecuteEdge(job: Job, turn: Turn) returns (ok: bool, hit: bool)
      requires Valid()
      modifies this, buildLog, depsLog, cache
      ensures Valid() && EdgeOutcome(t, job, turn, old(State()), State(), ok, hit)
      ensures hit || (ok <==>
        && turn.process.spawned && !turn.process.signaled && turn.process.exited && turn.process.exitCode == 0
        && (forall o :: o in job.outputs ==>
              if o in turn.process.wrote then turn.process.wrote[o].Some? else o in old(files))
        && (job.hasDepfile ==> turn.process.depfile.Some?))
      ensures hit ==> ok
      ensures !ok ==> buildLog.entries == old(buildLog.entries) && depsLog.entries == old(depsLog.entries)
      ensures ok ==> forall o :: o in job.outputs ==>
                o in files && o in buildLog.entries && buildLog.entries[o] == t.hash(job.command)
      ensures !ok ==> cache.stored == old(cache.stored)
    {
      hide LocalCache.LocalCache.Valid, Verified, Written, Snapshot, AfterStore, Entries;
      var cacheable := job.hasDepfile && |job.outputs| == 1 && t.identity(job.command).Some?;
      ghost var d := State();
      if cacheable {
        var r := LookUp(job, turn.copy);
        if r.Some? {
          TakeHit(job, r.value, turn.now);
          SuccessLeaves(t, job, turn, d, State(), true);
          return true, true;
        }
      }
      assert State() == d.(cache := AfterMiss(t, job, d));
      hit := false;
      ok := RunCommand(job, turn.process, turn.now);
      if ok && cacheable {
        StoreResult(job, turn.store);
      }
      if ok {
        SuccessLeaves(t, job, turn, d, State(), hit);
      }
    }

    /**
     The serial executor: the plan's edges in order, up to the first failure. `states` are the states between edges,
     `hits` what `ExecuteEdge` said about each.
     */
    method Execute(jobs: seq<Job>, turns: seq<Turn>) returns (ok: bool, ghost states: seq<Disk>, ghost hits: seq<bool>)
      requires |turns| == |jobs| && Valid()
      modifies this, buildLog, depsLog, cache
      ensures Valid() && |hits| <= |jobs| && |states| == |hits| + 1
      ensures states[0] == old(State()) && states[|hits|] == State()
      ensures ok ==> |hits| == |jobs|
      ensures !ok ==> hits != []
      ensures forall k :: 0 <= k < |hits| ==>
                EdgeOutcome(t, jobs[k], turns[k], states[k], states[k + 1], k < |hits| - 1 || ok, hits[k])
    {
      hide EdgeOutcome;
      states, hits, ok := [State()], [], true;
      for k := 0 to |jobs|
        invariant Valid() && ok && |states| == k + 1 && |hits| == k
        invariant states[0] == old(State()) && states[k] == State()
        invariant forall j :: 0 <= j < k ==> EdgeOutcome(t, jobs[j], turns[j], states[j], states[j + 1], true, hits[j])
      {
        ghost var before := State();
        var hit;
        ok, hit := ExecuteEdge(jobs[k], turns[k]);
        states, hits := states + [State()], hits + [hit];
        if !ok {
          return;
        }
      }
    }
  }

  lemma MissingSpoils(paths: seq<Path>, k: nat, c: Contents)
    requires k < |paths| && paths[k] !in c
    ensures Snapshot(paths, c).None?
  {
    SnapshotTells(paths, c);
  }

  // ------------------------------------------------------------------------------------------
  // The outcome is a step
  // ------------------------------------------------------------------------------------------

  /** The job is what the manifest declares for command `x`. */
  ghost predicate JobOf(t: Tools, x: Command, job: Job)
  {
    && job.command == x && Elems(job.outputs) == t.outputs(x) && NoDup(job.outputs)
    && (job.hasDepfile <==> t.depTarget(x).Some?)
  }

  /** The process does what the tools say that command `x` does on `c`. */
  ghost predicate Behaves(t: Tools, x: Command, c: Contents, p: Process)
  {
    && Succeeded(p)
    && p.wrote == (map o | o in t.outputs(x) :: Some(t.output(x, o, c)))
    && p.depfile == if t.depTarget(x).Some? then Some(Depfile(t.depTarget(x).value, t.deps(x, c))) else None
  }

  lemma BehavedRun(t: Tools, x: Command, job: Job, p: Process, now: int, d: Disk)
    requires JobOf(t, x, job) && Behaves(t, x, ContentsOf(d.files), p)
    ensures Completes(job, p, d.files, now)
    ensures Completed(t, job, p, now, d) == RunEffect(t, x, ContentsOf(d.files), now, d)
  {
    var c := ContentsOf(d.files);
    hide ContentsOf;
    assert Written(d.files, p.wrote, now) == d.files + WriteOutputs(t, x, c, now);
    assert Entries(job.outputs, t.hash(x)) == (map o | o in t.outputs(x) :: t.hash(x));
    assert forall o :: o in job.outputs ==> o in Elems(job.outputs);
  }

  lemma OneOutput(t: Tools, x: Command, job: Job)
    requires JobOf(t, x, job)
    ensures |job.outputs| == 1 ==> t.outputs(x) == {job.outputs[0]}
    ensures JobCanBeCached(t, job) ==> Cacheable(t, x, job.outputs[0])
  {
    if |job.outputs| == 1 {
      assert job.outputs == [job.outputs[0]];
    }
  }

  predicate JobCanBeCached(t: Tools, job: Job)
  {
    job.hasDepfile && |job.outputs| == 1 && t.identity(job.command).Some?
  }

  lemma KeyOfJob(t: Tools, x: Command, job: Job, d: Disk)
    requires JobOf(t, x, job) && JobKey(t, job, d).Some?
    ensures |job.outputs| == 1
    ensures HasKey(t, x, job.outputs[0], d.deps, ContentsOf(d.files), JobKey(t, job, d).value)
  {
    hide Snapshot, NoDup;
    OneOutput(t, x, job);
  }

  lemma MissPrunes(t: Tools, job: Job, d: Disk)
    ensures Pruned(t.contentHash, d.cache, AfterMiss(t, job, d))
  {
    hide JobKey, Verified;
  }

  lemma HitIsStep(t: Tools, job: Job, turn: Turn, d: Disk, d': Disk)
    requires JobOf(t, job.command, job) && EdgeOutcome(t, job, turn, d, d', true, true)
    ensures EdgeSucceeds(t, job.command, ContentsOf(d.files), turn.now, d, d')
  {
    KeyOfJob(t, job.command, job, d);
    hide JobOf, HasKey, JobKey, Verified, AfterMiss, Completes, Completed, Abandoned, Deposited, Runs;
    assert Hits(t, job.command, ContentsOf(d.files), turn.now, d, d', job.outputs[0], JobKey(t, job, d).value);
  }

  lemma MissIsStep(t: Tools, job: Job, turn: Turn, d: Disk, d': Disk, ok: bool)
    requires JobOf(t, job.command, job) && EdgeOutcome(t, job, turn, d, d', ok, false)
    requires Behaves(t, job.command, ContentsOf(d.files), turn.process)
    ensures ok && EdgeSucceeds(t, job.command, ContentsOf(d.files), turn.now, d, d')
  {
    var x, mid := job.command, AfterMiss(t, job, d);
    BehavedRun(t, x, job, turn.process, turn.now, d.(cache := mid));
    MissPrunes(t, job, d);
    var ran := RunEffect(t, x, ContentsOf(d.files), turn.now, d);
    if JobKey(t, job, d').Some? {
      KeyOfJob(t, x, job, d');
    }
    hide JobOf, JobKey, HasKey, Verified, AfterMiss, Completes, Abandoned, Hits, Behaves, ContentsOf, WriteOutputs,
        Restored, InCache, Pruned, AfterStore, Written, Entries;
    assert d' == ran.(cache := d'.cache);
    SameKeyAfterStore(t, x, job, ran, d', turn.store, mid);
    hide Deposits;
    assert Runs(t, x, ContentsOf(d.files), turn.now, d, d', mid);
  }

  lemma SameKeyAfterStore(t: Tools, x: Command, job: Job, ran: Disk, d': Disk, fate: StoreFate, mid: Cache)
    requires JobOf(t, x, job) && d' == ran.(cache := d'.cache) && d'.cache == Deposited(t, job, d', mid, fate)
    ensures Deposits(t, x, ran, mid, d'.cache)
  {
    forall o, k: nat | Filed(t, x, ran, o, k)
      ensures JobKey(t, job, d') == Some(k) && job.outputs[0] == o
    {
      FiledIsJobs(t, x, job, ran, d', o, k);
    }
    if JobKey(t, job, d').Some? {
      KeyOfJob(t, x, job, d');
      hide JobOf, JobKey, HasKey, AfterStore;
      if job.outputs[0] in d'.files {
        assert Filed(t, x, ran, job.outputs[0], JobKey(t, job, d').value);
      }
    }
  }

  lemma FiledIsJobs(t: Tools, x: Command, job: Job, ran: Disk, d': Disk, o: Path, k: nat)
    requires JobOf(t, x, job) && d' == ran.(cache := d'.cache) && Filed(t, x, ran, o, k)
    ensures |job.outputs| == 1 && job.outputs[0] == o && JobKey(t, job, d') == Some(k)
  {
    NoDupSize(job.outputs);
    assert |Elems(job.outputs)| == 1;
    assert job.outputs[0] in Elems(job.outputs);
    hide Snapshot, ContentsOf, NoDup;
  }

  /** A failed edge whose process touched nothing but the declared outputs. */
  lemma FailureIsStep(t: Tools, job: Job, turn: Turn, d: Disk, d': Disk, hit: bool)
    requires EdgeOutcome(t, job, turn, d, d', false, hit) && turn.process.wrote.Keys <= t.outputs(job.command)
    requires WritesOccurring(t, turn.process) && ClockAhead(d) && d.clock <= turn.now
    ensures FailEffect(t, job.command, d, d')
  {
    MissPrunes(t, job, d);
    WrittenOccurs(t, d.files, turn.process, turn.now);
    hide Completed, Completes, Restored, InCache, AfterMiss, Pruned, Deposited, Occurring, ContentsOf;
  }

  /** What the process wrote occurs in the history. */
  ghost predicate WritesOccurring(t: Tools, p: Process)
  {
    forall q :: q in p.wrote && p.wrote[q].Some? ==> t.occurs(p.wrote[q].value)
  }

  lemma WrittenOccurs(t: Tools, files: Files, p: Process, now: int)
    requires WritesOccurring(t, p)
    ensures Occurring(t, ContentsOf(files)) ==> Occurring(t, ContentsOf(Written(files, p.wrote, now)))
  {
    hide Occurring, ContentsOf;
    if Occurring(t, ContentsOf(files)) {
      var written := Written(files, p.wrote, now);
      forall q | q in written
        ensures t.occurs(written[q].content)
      {
        if q !in p.wrote {
          OccursThere(t, files, q);
        }
      }
      OccursEverywhere(t, written);
    }
  }

  /** The command belongs to the history and to some valid manifest, and so do the files and records it comes upon. */
  ghost predicate WellBehaved(t: Tools, x: Command, d: Disk)
  {
    && Disciplined(t) && Placeable(t, x)
    && Occurring(t, ContentsOf(d.files)) && RecordsKnown(t, d.deps)
  }

  lemma RunsAlikeAfterwards(t: Tools, x: Command, now: int, d: Disk)
    requires Deterministic(t) && Reported(t) && Placeable(t, x)
    ensures SameRun(t, x, ContentsOf(d.files), ContentsOf(RunEffect(t, x, ContentsOf(d.files), now, d).files))
  {
    var c, c' := ContentsOf(d.files), ContentsOf(RunEffect(t, x, ContentsOf(d.files), now, d).files);
    assert t.sees(x, c) <= t.inputs(x) + Discovered(t, x, c);
    assert Discovered(t, x, c) !! t.outputs(x);
    hide Discovered, Placeable, Reported;
    assert Agree(c, c', t.sees(x, c));
  }

  /** The part of the tools' discipline that the executor depends on. */
  lemma WellBehavedParts(t: Tools, x: Command, d: Disk)
    requires WellBehaved(t, x, d)
    ensures Deterministic(t) && Reported(t) && OwnTargets(t) && OutputsOccur(t) && Placeable(t, x)
    ensures Occurring(t, ContentsOf(d.files)) && RecordsKnown(t, d.deps)
  {
  }

  /** An edge that hits, or whose process does what the tools say. */
  ghost predicate AsExpected(t: Tools, job: Job, turn: Turn, d: Disk, hit: bool)
  {
    hit || Behaves(t, job.command, ContentsOf(d.files), turn.process)
  }

  /**
   Transparency. Such an edge succeeds and keeps everything accounted for. If no hit can be stale it leaves exactly the
   files and the log of a plain run and a backed record; without stale lists the record is that of a plain run, and
   nothing but the cache can tell the difference. An edge that fails leaves the logs and a genuine cache.
   */
  lemma CacheDoesNotShow(t: Tools, job: Job, turn: Turn, d: Disk, d': Disk, ok: bool, hit: bool)
    requires JobOf(t, job.command, job) && EdgeOutcome(t, job, turn, d, d', ok, hit)
    requires WellBehaved(t, job.command, d) && CacheOk(t, d.cache)
    ensures AsExpected(t, job, turn, d, hit) ==> ok && Accountable(t, d')
    ensures AsExpected(t, job, turn, d, hit) && NoStaleHits(t) ==>
              RanLike(t, job.command, ContentsOf(d.files), turn.now, d, d')
    ensures AsExpected(t, job, turn, d, hit) && NoStaleHits(t) && NoStaleLists(t) ==>
              d' == RunEffect(t, job.command, ContentsOf(d.files), turn.now, d).(cache := d'.cache)
    ensures !ok ==> CacheOk(t, d'.cache) && d'.log == d.log && d'.deps == d.deps
  {
    var x, c := job.command, ContentsOf(d.files);
    WellBehavedParts(t, x, d);
    hide WellBehaved;
    if AsExpected(t, job, turn, d, hit) {
      ExpectedIsStep(t, job, turn, d, d', ok, hit);
      RunsAlikeAfterwards(t, x, turn.now, d);
      hide Deterministic, Reported, OwnTargets, OutputsOccur, CacheOk, RunEffect, EdgeSucceeds, EdgeOutcome, JobOf,
          SameRun, ContentsOf, RanLike, Placeable, Occurring, RecordsKnown, NoStaleHits, NoStaleLists, AsExpected;
      SuccessKeepsAccountable(t, x, c, turn.now, d, d');
      if NoStaleHits(t) {
        SuccessIsRun(t, x, c, turn.now, d, d');
        if NoStaleLists(t) {
          SuccessIsExactlyRun(t, x, c, turn.now, d, d');
        }
      }
    } else if !ok {
      FailureKeepsGenuine(t, job, turn, d, d', hit);
    }
  }

  lemma ExpectedIsStep(t: Tools, job: Job, turn: Turn, d: Disk, d': Disk, ok: bool, hit: bool)
    requires JobOf(t, job.command, job) && EdgeOutcome(t, job, turn, d, d', ok, hit)
    requires AsExpected(t, job, turn, d, hit)
    ensures ok && EdgeSucceeds(t, job.command, ContentsOf(d.files), turn.now, d, d')
  {
    if hit {
      HitIsStep(t, job, turn, d, d');
    } else {
      MissIsStep(t, job, turn, d, d', ok);
    }
  }

  lemma FailureKeepsGenuine(t: Tools, job: Job, turn: Turn, d: Disk, d': Disk, hit: bool)
    requires EdgeOutcome(t, job, turn, d, d', false, hit) && CacheOk(t, d.cache)
    ensures CacheOk(t, d'.cache) && d'.log == d.log && d'.deps == d.deps
  {
    hide CacheOk, Completed, Completes, Restored, InCache, Deposited, AfterMiss, Written, Pruned;
    assert d'.cache == AfterMiss(t, job, d);
    MissPrunes(t, job, d);
    PruningKeepsOk(t, d.cache, d'.cache);
  }

  // ------------------------------------------------------------------------------------------
  // Any sequence of edges
  // ------------------------------------------------------------------------------------------

  /** An edge, the loss or damage of cache files, or anything that leaves the cache alone and files no records. */
  datatype Event =
    | Executed(job: Job, turn: Turn, ok: bool, hit: bool)
    | CacheDecays
    | Elsewhere

  ghost predicate Happens(t: Tools, event: Event, d: Disk, d': Disk)
  {
    match event
    case Executed(job, turn, ok, hit) => EdgeOutcome(t, job, turn, d, d', ok, hit)
    case CacheDecays => Decayed(t.contentHash, d.cache, d'.cache) && d' == d.(cache := d'.cache)
    case Elsewhere => d'.cache == d.cache && forall q :: q in d'.deps ==> q in d.deps && d'.deps[q] == d.deps[q]
  }

  /** A process that is started either fails or does what the tools say, on files of the history. */
  ghost predicate Honest(t: Tools, event: Event, d: Disk)
  {
    event.Executed? ==>
      && JobOf(t, event.job.command, event.job) && Placeable(t, event.job.command)
      && Occurring(t, ContentsOf(d.files)) && (!event.ok || AsExpected(t, event.job, event.turn, d, event.hit))
  }

  /** The effect without a cache, as far as files and log go, and the records where lists cannot be stale. */
  ghost predicate PlainEffect(t: Tools, event: Event, d: Disk, d': Disk)
  {
    event.Executed? ==>
      if !event.ok then d'.log == d.log && d'.deps == d.deps
      else
        && RanLike(t, event.job.command, ContentsOf(d.files), event.turn.now, d, d')
        && (NoStaleLists(t) ==>
             d' == RunEffect(t, event.job.command, ContentsOf(d.files), event.turn.now, d).(cache := d'.cache))
  }

  /** Records and cache come from the history. */
  ghost predicate Traceable(t: Tools, d: Disk)
  {
    RecordsKnown(t, d.deps) && CacheOk(t, d.cache)
  }

  lemma EventIsPlain(t: Tools, event: Event, d: Disk, d': Disk)
    requires Disciplined(t) && NoStaleHits(t)
    requires Happens(t, event, d, d') && Honest(t, event, d) && Traceable(t, d)
    ensures PlainEffect(t, event, d, d') && Traceable(t, d')
  {
    hide CacheOk, EdgeOutcome, JobOf, Disciplined, Placeable, AsExpected, RanLike, Decayed, NoStaleHits, NoStaleLists,
        Occurring, RecordFor, RunEffect, ContentsOf;
    match event
    case Executed(job, turn, ok, hit) => CacheDoesNotShow(t, job, turn, d, d', ok, hit);
    case CacheDecays => DecayKeepsOk(t, d.cache, d'.cache);
    case Elsewhere =>
  }

  /**
   Over any sequence of edges, succeeding and failing, with files of the cache lost or damaged in between, files of the
   project changed and records lost in between, every successful edge leaves what a plain run leaves.
   */
  lemma {:induction false} CacheNeverShows(t: Tools, events: seq<Event>, states: seq<Disk>, k: nat)
    requires Disciplined(t) && NoStaleHits(t)
    requires |states| == |events| + 1 && k <= |events| && Traceable(t, states[0])
    requires forall j :: 0 <= j < |events| ==> Happens(t, events[j], states[j], states[j + 1])
    requires forall j :: 0 <= j < |events| ==> Honest(t, events[j], states[j])
    ensures Traceable(t, states[k])
    ensures forall j :: 0 <= j < k ==> PlainEffect(t, events[j], states[j], states[j + 1])
    decreases k
  {
    hide Disciplined, NoStaleHits, Traceable, Happens, Honest, PlainEffect;
    if k > 0 {
      CacheNeverShows(t, events, states, k - 1);
      EventIsPlain(t, events[k - 1], states[k - 1], states[k]);
    }
  }
}
