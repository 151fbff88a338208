/**
 The disk during a scheduled build. Every edge that has run successfully stays fresh until the end, so a
 successful run leaves exactly the files that the serial executor leaves, for any number of workers and
 under any schedule.
 */
module ScheduledBuild {
  import opened Prelude
  import opened Graphs
  import opened Planner
  import opened Scheduler
  import opened World
  import opened Cache
  import opened CachedEdges
  import opened SchedulerSteps
  import opened SchedulerSafety
  import opened SchedulerResults
  import opened Execution

  ghost predicate NoYounger(w: World, files: Files, f: EdgeId, e: EdgeId)
    requires f < |w.command| && e < |w.command|
  {
    forall p, o :: p in w.tools.outputs(w.command[f]) && o in w.tools.outputs(w.command[e]) && o in files ==>
                     p in files && files[p].mtime <= files[o].mtime
  }

  /** Outputs of planned ancestors are no younger than the outputs of `e`. */
  ghost predicate TimesOk(w: World, P: set<EdgeId>, files: Files, e: EdgeId)
    requires e < |w.command|
  {
    forall f: EdgeId :: f in P && f < |w.command| && Ancestor(w.g, f, e) ==> NoYounger(w, files, f, e)
  }

  /** The log has the hash of `x` for all its outputs. */
  ghost predicate Logged(t: Tools, x: Command, log: map<Path, nat>)
  {
    forall o :: o in t.outputs(x) ==> o in log && log[o] == t.hash(x)
  }

  /** All outputs of `x` are there, and were written no earlier than `start`. */
  ghost predicate WrittenSince(t: Tools, x: Command, start: int, files: Files)
  {
    forall o :: o in t.outputs(x) ==> o in files && start <= files[o].mtime
  }

  /** The logs describe the last run of `x`, whose outputs were written no earlier than `start`. */
  ghost predicate Recorded(t: Tools, x: Command, start: int, d: Disk)
  {
    && Logged(t, x, d.log) && WrittenSince(t, x, start, d.files)
    && (t.depTarget(x).Some? ==>
         t.depTarget(x).value in d.deps && Backed(t, x, d.deps[t.depTarget(x).value], ContentsOf(d.files)))
  }

  /** What holds of an edge that has run, whatever the cache handed out: it is logged, and stamped in order. */
  ghost predicate Stamped(w: World, P: set<EdgeId>, start: int, d: Disk, e: EdgeId)
    requires e < |w.command|
  {
    && Logged(w.tools, w.command[e], d.log) && WrittenSince(w.tools, w.command[e], start, d.files)
    && TimesOk(w, P, d.files, e)
  }

  ghost predicate Fresh(w: World, P: set<EdgeId>, start: int, d: Disk, e: EdgeId)
    requires e < |w.command|
  {
    && Consistent(w.tools, w.command[e], ContentsOf(d.files))
    && Recorded(w.tools, w.command[e], start, d)
    && TimesOk(w, P, d.files, e)
  }

  /** `d'` differs from `d` only in what belongs to the outputs of `x`, and in one record of dependencies. */
  ghost predicate Touches(t: Tools, x: Command, d: Disk, d': Disk)
  {
    && (forall p :: p !in t.outputs(x) ==> SameAt(d, d', p))
    && (forall p :: t.depTarget(x) != Some(p) ==> SameRecord(d.deps, d'.deps, p))
  }

  /** File, log entry and record of `p` are the same. */
  ghost predicate SameAt(d: Disk, d': Disk, p: Path)
  {
    && SameFile(d.files, d'.files, p)
    && (p in d.log <==> p in d'.log) && (p in d.log ==> d.log[p] == d'.log[p])
    && SameRecord(d.deps, d'.deps, p)
  }

  ghost predicate SameRecord(deps: map<Path, seq<Path>>, deps': map<Path, seq<Path>>, p: Path)
  {
    (p in deps <==> p in deps') && (p in deps ==> deps[p] == deps'[p])
  }

  ghost predicate Settled(s: Sys, e: EdgeId)
  {
    e in s.done || exists i :: 0 <= i < |s.workers| && s.workers[i] == Ran(e, true)
  }

  /** No planned command reports its dependencies under `p`. */
  ghost predicate NotATarget(w: World, P: set<EdgeId>, p: Path)
  {
    forall e: EdgeId :: e in P && e < |w.command| ==> w.tools.depTarget(w.command[e]) != Some(p)
  }

  ghost predicate RecordsKept(w: World, P: set<EdgeId>, deps: map<Path, seq<Path>>, deps': map<Path, seq<Path>>)
  {
    forall p :: NotATarget(w, P, p) ==> SameRecord(deps, deps', p)
  }

  ghost predicate OutsideKept(w: World, P: set<EdgeId>, d: Disk, d': Disk)
  {
    && (forall p :: p !in OutputsOf(w, P) ==> SameAt(d, d', p))
    && RecordsKept(w, P, d.deps, d'.deps)
  }

  /** What holds without any trust in the cache: only planned outputs change, and time goes on. */
  ghost predicate OutsideInv(w: World, P: set<EdgeId>, d0: Disk, d: Disk)
  {
    OutsideKept(w, P, d0, d) && ClockAhead(d) && d0.clock <= d.clock
  }

  /** What a running command saw occurs, and is what it would see now. */
  ghost predicate Informed(t: Tools, x: Command, seen: Contents, d: Disk)
  {
    Occurring(t, seen) && Alike(t, x, seen, ContentsOf(d.files))
  }

  /** Edges that have run are fresh, if no hit can be stale; all the rest holds in any case. */
  ghost predicate DiskInv(w: World, P: set<EdgeId>, d0: Disk, s: Sys)
  {
    && OutsideInv(w, P, d0, s.disk) && Accountable(w.tools, s.disk)
    && (NoStaleHits(w.tools) ==> AllFresh(w, P, d0, s))
    && (forall i :: 0 <= i < |s.workers| && s.workers[i].Running? && s.workers[i].edge < |w.command| ==>
         Informed(w.tools, w.command[s.workers[i].edge], s.workers[i].seen, s.disk))
  }

  ghost predicate AllFresh(w: World, P: set<EdgeId>, d0: Disk, s: Sys)
  {
    forall e: EdgeId :: Settled(s, e) && e < |w.command| ==> Fresh(w, P, d0.clock, s.disk, e)
  }

  /** What the protocol guarantees about an edge that has been picked. */
  ghost predicate Active(g: Graph, P: set<EdgeId>, D: set<EdgeId>, e: EdgeId)
  {
    e in P && Producers(g, e) * P <= D
  }

  lemma ActiveEdges(w: World, plan: seq<EdgeId>, s: Sys)
    requires Books(NeedMap(w.g, Elems(plan)), s)
    ensures PrefixOf(w.g, Elems(plan), s.done)
    ensures forall e :: e in s.done || e in Held(s.workers) ==> Active(w.g, Elems(plan), s.done, e)
    ensures s.done !! Held(s.workers)
  {
    hide Held, Indegrees, Distinct, Counters, Lists, NoDup, Producers;
    var P, need := Elems(plan), NeedMap(w.g, Elems(plan));
    forall e | e in s.done || e in Held(s.workers)
      ensures e in need && need[e] <= s.done
    {
    }
    assert forall e :: e in need ==> need[e] == Producers(w.g, e) * P;
  }

  lemma ContentsTouched(t: Tools, x: Command, d: Disk, d': Disk)
    requires Touches(t, x, d, d')
    ensures OnlyOutputs(t, x, ContentsOf(d.files), ContentsOf(d'.files))
  {
  }

  lemma FailureTouches(t: Tools, x: Command, d: Disk, d': Disk)
    requires FailEffect(t, x, d, d')
    ensures Touches(t, x, d, d')
  {
    hide SameFile;
  }

  lemma SuccessTouches(t: Tools, x: Command, seen: Contents, now: int, d: Disk, d': Disk)
    requires OwnTargets(t) && EdgeSucceeds(t, x, seen, now, d, d')
    ensures Touches(t, x, d, d') && d'.clock == now
    ensures ClockAhead(d) && d.clock <= now ==> ClockAhead(d')
  {
    hide Touches, ClockAhead, RunEffect, Filed, Pruned, HasKey, Verified;
    if o, k :| Hits(t, x, seen, now, d, d', o, k) {
      HitTouches(t, x, seen, now, d, d', o, k);
    } else {
      var mid :| Runs(t, x, seen, now, d, d', mid);
      RunTouches(t, x, seen, now, d);
      ClockMoves(t, x, seen, now, d);
      hide Runs;
      TouchesIgnoresCache(t, x, d, RunEffect(t, x, seen, now, d), d'.cache);
    }
  }

  lemma HitTouches(t: Tools, x: Command, seen: Contents, now: int, d: Disk, d': Disk, o: Path, k: nat)
    requires Hits(t, x, seen, now, d, d', o, k)
    ensures Touches(t, x, d, d') && d'.clock == now
    ensures ClockAhead(d) && d.clock <= now ==> ClockAhead(d')
  {
    hide Snapshot, Verified;
    assert o in t.outputs(x);
  }

  lemma TouchesIgnoresCache(t: Tools, x: Command, d: Disk, d': Disk, cache: Cache)
    ensures Touches(t, x, d, d') ==> Touches(t, x, d, d'.(cache := cache))
    ensures ClockAhead(d') ==> ClockAhead(d'.(cache := cache))
  {
    hide SameFile, SameRecord;
    if Touches(t, x, d, d') {
      forall p | p !in t.outputs(x)
        ensures SameAt(d, d'.(cache := cache), p)
      {
        assert SameAt(d, d', p);
      }
    }
  }

  lemma ClockMoves(t: Tools, x: Command, seen: Contents, now: int, d: Disk)
    ensures RunEffect(t, x, seen, now, d).clock == now
    ensures ClockAhead(d) && d.clock <= now ==> ClockAhead(RunEffect(t, x, seen, now, d))
  {
  }

  lemma RunTouches(t: Tools, x: Command, seen: Contents, now: int, d: Disk)
    requires OwnTargets(t)
    ensures Touches(t, x, d, RunEffect(t, x, seen, now, d))
  {
    var d' := RunEffect(t, x, seen, now, d);
    assert t.depTarget(x).Some? ==> t.depTarget(x).value in t.outputs(x);
    forall p | p !in t.outputs(x)
      ensures SameAt(d, d', p)
    {
      assert p !in WriteOutputs(t, x, seen, now);
    }
    hide SameFile, WriteOutputs;
  }

  /** A write by `f` elsewhere leaves a fresh edge fresh. */
  lemma FreshStays(w: World, P: set<EdgeId>, C: set<EdgeId>, D: set<EdgeId>, start: int, e: EdgeId, f: EdgeId,
      d: Disk, d': Disk)
    requires ValidWorld(w) && Sealed(w.g, P, C) && PrefixOf(w.g, P, D)
    requires Active(w.g, P, D, e) && f in P && f !in D && e != f && e < |w.command| && f < |w.command|
    requires Fresh(w, P, start, d, e) && Touches(w.tools, w.command[f], d, d')
    ensures Fresh(w, P, start, d', e)
  {
    hide Sealed, PrefixOf, Producers, Acyclic, Valid, Ordered;
    hide Consistent, Touches, Recorded, TimesOk, OnlyOutputs;
    ContentsTouched(w.tools, w.command[f], d, d');
    WriteKeepsConsistent(w, P, C, D, e, f, ContentsOf(d.files), ContentsOf(d'.files));
    RecordStays(w, P, C, D, start, e, f, d, d');
    TimesStay(w, P, C, D, e, f, d, d');
  }

  lemma RecordStays(w: World, P: set<EdgeId>, C: set<EdgeId>, D: set<EdgeId>, start: int, e: EdgeId, f: EdgeId,
      d: Disk, d': Disk)
    requires ValidWorld(w) && Sealed(w.g, P, C) && PrefixOf(w.g, P, D)
    requires Active(w.g, P, D, e) && f in P && f !in D && e != f && e < |w.command| && f < |w.command|
    requires Recorded(w.tools, w.command[e], start, d) && Touches(w.tools, w.command[f], d, d')
    ensures Recorded(w.tools, w.command[e], start, d')
  {
    hide Sealed, PrefixOf, Producers, Acyclic, Valid, Ordered;
    var t, x := w.tools, w.command[e];
    EdgesOfPlan(w.g, P, C, e);
    EdgesOfPlan(w.g, P, C, f);
    OutputsApart(w, e, f);
    var c, c' := ContentsOf(d.files), ContentsOf(d'.files);
    ContentsTouched(t, w.command[f], d, d');
    WriteIsUnseen(w, P, C, D, e, f, c, c');
    hide Alike, OnlyOutputs, ContentsOf, Declared, Backed, Reported, CollisionFree, OutputsOccur;
    if t.depTarget(x).Some? {
      assert t.depTarget(x).value in t.outputs(x);
      BackedStays(t, x, d.deps[t.depTarget(x).value], c, c');
    }
    hide Deterministic;
  }

  lemma TimesStay(w: World, P: set<EdgeId>, C: set<EdgeId>, D: set<EdgeId>, e: EdgeId, f: EdgeId, d: Disk, d': Disk)
    requires ValidWorld(w) && Sealed(w.g, P, C) && PrefixOf(w.g, P, D)
    requires Active(w.g, P, D, e) && f in P && f !in D && e != f && e < |w.command| && f < |w.command|
    requires TimesOk(w, P, d.files, e) && Touches(w.tools, w.command[f], d, d')
    ensures TimesOk(w, P, d'.files, e)
  {
    hide Sealed, PrefixOf, Producers, Acyclic, Valid, Ordered, Disciplined, Declared, Ancestor;
    EdgesOfPlan(w.g, P, C, e);
    EdgesOfPlan(w.g, P, C, f);
    OutputsApart(w, e, f);
    forall a: EdgeId | a in P && a < |w.command| && Ancestor(w.g, a, e)
      ensures NoYounger(w, d'.files, a, e)
    {
      AncestorsInPrefix(w.g, P, C, D, a, e);
      EdgesOfPlan(w.g, P, C, a);
      OutputsApart(w, a, f);
      assert NoYounger(w, d.files, a, e);
    }
  }

  /** A command that runs on what it has seen comes out fresh. */
  lemma FreshAfterRun(w: World, P: set<EdgeId>, C: set<EdgeId>, D: set<EdgeId>, start: int, e: EdgeId,
                      seen: Contents, now: int, d: Disk, d': Disk)
    requires ValidWorld(w) && Sealed(w.g, P, C) && PrefixOf(w.g, P, D)
    requires Active(w.g, P, D, e) && e !in D && e < |w.command|
    requires Alike(w.tools, w.command[e], seen, ContentsOf(d.files))
    requires RanLike(w.tools, w.command[e], seen, now, d, d')
    requires ClockAhead(d) && start <= d.clock <= now
    requires forall a: EdgeId :: a in D && a < |w.command| ==> Fresh(w, P, start, d, a)
    ensures Fresh(w, P, start, d', e)
  {
    hide Sealed, PrefixOf, Producers, Acyclic, Valid, Ordered, Declared, TimesOk, Fresh, RunEffect, Recorded, Active,
        Alike, Reported, CollisionFree, OutputsOccur;
    SameOutcomeAfterRun(w, P, C, D, e, seen, now, d);
    forall a: EdgeId | a in D && a < |w.command|
      ensures Stamped(w, P, start, d, a)
    {
      FreshIsStamped(w, P, start, d, a);
    }
    var ran := RunEffect(w.tools, w.command[e], seen, now, d);
    RunTouches(w.tools, w.command[e], seen, now, d);
    RunIsNow(w.tools, w.command[e], seen, now, d);
    hide Stamped, Touches;
    TimesAfterWrite(w, P, C, D, start, e, now, d, ran);
    RunIsRecorded(w.tools, w.command[e], seen, now, start, d, d');
    FreshFromParts(w, P, start, d', e);
  }

  /** The command would do the same on the state it leaves as on the state it saw. */
  lemma SameOutcomeAfterRun(w: World, P: set<EdgeId>, C: set<EdgeId>, D: set<EdgeId>, e: EdgeId,
                            seen: Contents, now: int, d: Disk)
    requires ValidWorld(w) && Sealed(w.g, P, C) && PrefixOf(w.g, P, D)
    requires Active(w.g, P, D, e) && e !in D && e < |w.command|
    requires Alike(w.tools, w.command[e], seen, ContentsOf(d.files))
    ensures Alike(w.tools, w.command[e], seen, ContentsOf(RunEffect(w.tools, w.command[e], seen, now, d).files))
    ensures SameRun(w.tools, w.command[e], seen, ContentsOf(RunEffect(w.tools, w.command[e], seen, now, d).files))
  {
    hide Sealed, PrefixOf, Producers, Acyclic, Valid, Ordered, Declared, RunEffect, Touches, Alike;
    var t, x := w.tools, w.command[e];
    var d' := RunEffect(t, x, seen, now, d);
    RunTouches(t, x, seen, now, d);
    ContentsTouched(t, x, d, d');
    WriteIsUnseen(w, P, C, D, e, e, ContentsOf(d.files), ContentsOf(d'.files));
    StillAlike(t, x, seen, ContentsOf(d.files), ContentsOf(d'.files));
    AlikeRunsAlike(t, x, seen, ContentsOf(d'.files));
  }

  lemma StillAlike(t: Tools, x: Command, b: Contents, c: Contents, d: Contents)
    requires Alike(t, x, b, c) && Alike(t, x, c, d)
    ensures Alike(t, x, b, d)
  {
    hide MaySee;
  }

  lemma FreshFromParts(w: World, P: set<EdgeId>, start: int, d: Disk, e: EdgeId)
    requires e < |w.command|
    requires Consistent(w.tools, w.command[e], ContentsOf(d.files))
    requires Recorded(w.tools, w.command[e], start, d)
    requires TimesOk(w, P, d.files, e)
    ensures Fresh(w, P, start, d, e)
  {
  }

  lemma RunIsRecorded(t: Tools, x: Command, seen: Contents, now: int, start: int, d: Disk, d': Disk)
    requires Deterministic(t) && RanLike(t, x, seen, now, d, d') && start <= now
    requires Alike(t, x, seen, ContentsOf(RunEffect(t, x, seen, now, d).files))
    requires SameRun(t, x, seen, ContentsOf(RunEffect(t, x, seen, now, d).files))
    ensures Recorded(t, x, start, d')
    ensures Consistent(t, x, ContentsOf(d'.files)) && d'.files == RunEffect(t, x, seen, now, d).files
  {
    OutputsRecorded(t, x, seen, now, start, d, d');
    hide RunEffect, Backed, Deterministic, SameRun;
    if t.depTarget(x).Some? {
      BackedStays(t, x, d'.deps[t.depTarget(x).value], seen, ContentsOf(RunEffect(t, x, seen, now, d).files));
    }
    hide Alike, ContentsOf;
  }

  lemma OutputsRecorded(t: Tools, x: Command, seen: Contents, now: int, start: int, d: Disk, d': Disk)
    requires RanLike(t, x, seen, now, d, d') && start <= now
    requires SameRun(t, x, seen, ContentsOf(RunEffect(t, x, seen, now, d).files))
    ensures Consistent(t, x, ContentsOf(d'.files)) && d'.files == RunEffect(t, x, seen, now, d).files
    ensures forall o :: o in t.outputs(x) ==> o in d'.log && d'.log[o] == t.hash(x)
    ensures forall o :: o in t.outputs(x) ==> o in d'.files && start <= d'.files[o].mtime
  {
    hide Backed;
  }

  lemma RunIsNow(t: Tools, x: Command, seen: Contents, now: int, d: Disk)
    ensures forall o :: o in t.outputs(x) ==>
              o in RunEffect(t, x, seen, now, d).files && RunEffect(t, x, seen, now, d).files[o].mtime == now
  {
  }

  lemma FreshIsStamped(w: World, P: set<EdgeId>, start: int, d: Disk, e: EdgeId)
    requires e < |w.command| && Fresh(w, P, start, d, e)
    ensures Stamped(w, P, start, d, e)
  {
    hide TimesOk, Consistent, Logged, WrittenSince;
  }

  /** What `e` writes now is no older than what its planned ancestors wrote. */
  lemma TimesAfterWrite(w: World, P: set<EdgeId>, C: set<EdgeId>, D: set<EdgeId>, start: int, e: EdgeId, now: int,
                        d: Disk, d': Disk)
    requires ValidWorld(w) && Sealed(w.g, P, C) && PrefixOf(w.g, P, D)
    requires Active(w.g, P, D, e) && e !in D && e < |w.command|
    requires ClockAhead(d) && d.clock <= now && Touches(w.tools, w.command[e], d, d')
    requires forall o :: o in w.tools.outputs(w.command[e]) ==> o in d'.files && d'.files[o].mtime == now
    requires forall a: EdgeId :: a in D && a < |w.command| ==> Stamped(w, P, start, d, a)
    ensures TimesOk(w, P, d'.files, e)
  {
    hide Sealed, PrefixOf, Producers, Acyclic, Valid, Ordered, Disciplined, Declared, Ancestor, Stamped, TimesOk,
        Touches, ClockAhead;
    forall a: EdgeId | a in P && a < |w.command| && Ancestor(w.g, a, e)
      ensures NoYounger(w, d'.files, a, e)
    {
      AncestorsInPrefix(w.g, P, C, D, a, e);
      NewestIsLast(w, P, start, e, a, now, d, d');
    }
    TimesFromAll(w, P, d'.files, e);
  }

  lemma NewestIsLast(w: World, P: set<EdgeId>, start: int, e: EdgeId, a: EdgeId, now: int, d: Disk, d': Disk)
    requires e < |w.command| && a < |w.command| && ClockAhead(d) && d.clock <= now
    requires Touches(w.tools, w.command[e], d, d') && Stamped(w, P, start, d, a)
    requires forall o :: o in w.tools.outputs(w.command[e]) ==> o in d'.files && d'.files[o].mtime == now
    ensures NoYounger(w, d'.files, a, e)
  {
    hide TimesOk, Logged;
    forall p | p in w.tools.outputs(w.command[a])
      ensures p in d'.files && d'.files[p].mtime <= now
    {
      if p !in w.tools.outputs(w.command[e]) {
        assert SameAt(d, d', p);
      }
    }
  }

  lemma TimesFromAll(w: World, P: set<EdgeId>, files: Files, e: EdgeId)
    requires e < |w.command|
    requires forall f: EdgeId :: f in P && f < |w.command| && Ancestor(w.g, f, e) ==> NoYounger(w, files, f, e)
    ensures TimesOk(w, P, files, e)
  {
  }

  // ------------------------------------------------------------------------------------------
  // Every step keeps the disk invariant
  // ------------------------------------------------------------------------------------------

  /** Steps that write nothing. */
  lemma DiskQuiet(w: World, P: set<EdgeId>, d0: Disk, s: Sys, s': Sys)
    requires DiskInv(w, P, d0, s) && s'.disk == s.disk
    requires forall e :: Settled(s', e) ==> Settled(s, e)
    requires forall i :: 0 <= i < |s'.workers| && s'.workers[i].Running? ==>
      s'.workers[i].seen == ContentsOf(s.disk.files) || (i < |s.workers| && s.workers[i] == s'.workers[i])
    ensures DiskInv(w, P, d0, s')
  {
    hide Settled, Fresh, OutsideInv, CacheOk, RecordsKnown, Occurring, ContentsOf, MaySee, NoStaleHits;
  }

  lemma SettledEdges(s: Sys, s': Sys, i: nat, e: EdgeId)
    requires i < |s.workers| == |s'.workers| && s'.workers == s.workers[i := s'.workers[i]]
    requires s'.done == s.done && Settled(s', e) && s'.workers[i] != Ran(e, true)
    ensures Settled(s, e)
  {
  }

  lemma QuietWorkerStep(w: World, P: set<EdgeId>, d0: Disk, s: Sys, step: Step, s': Sys)
    requires DiskInv(w, P, d0, s) && Next(w, s, step, s')
    requires step.Loop? || step.Read? || step.Flag? || step.WorkerWakes? || step.NotifyMain?
    ensures DiskInv(w, P, d0, s')
  {
    hide DiskInv, Settled;
    forall e | Settled(s', e)
      ensures Settled(s, e)
    {
      SettledEdges(s, s', step.i, e);
    }
    DiskQuiet(w, P, d0, s, s');
  }

  lemma QuietFinish(w: World, P: set<EdgeId>, d0: Disk, s: Sys, i: nat, s': Sys)
    requires DiskInv(w, P, d0, s) && FinishStep(w.g, s, i, s')
    ensures DiskInv(w, P, d0, s')
  {
    hide DiskInv, FinishedBy;
    forall e | Settled(s', e)
      ensures Settled(s, e)
    {
      assert s.workers[i] == Ran(At(s, i).edge, true);
    }
    DiskQuiet(w, P, d0, s, s');
  }

  lemma QuietWakeup(w: World, P: set<EdgeId>, d0: Disk, s: Sys, step: Step, s': Sys)
    requires DiskInv(w, P, d0, s) && Next(w, s, step, s')
    requires step.Announce? || step.NotifyWorkers? || step.Main? || step.MainWakes?
    ensures DiskInv(w, P, d0, s')
  {
    NobodySleeps(s.workers);
    hide DiskInv, Wake, MainEnabled;
    assert s'.disk == s.disk && s'.done == s.done && |s'.workers| == |s.workers|;
    forall i | 0 <= i < |s'.workers| && (s'.workers[i].Running? || s'.workers[i].Ran?)
      ensures s'.workers[i] == s.workers[i]
    {
    }
    DiskQuiet(w, P, d0, s, s');
  }

  /** Worker `i` alone runs `f`; all edges that ran or run are active, and none of them is `f`. */
  ghost predicate Writer(g: Graph, P: set<EdgeId>, s: Sys, i: nat, f: EdgeId)
  {
    && i < |s.workers| && s.workers[i].Running? && s.workers[i].edge == f
    && PrefixOf(g, P, s.done) && Active(g, P, s.done, f) && f !in s.done
    && (forall e :: Settled(s, e) ==> e != f && Active(g, P, s.done, e))
    && (forall j :: 0 <= j < |s.workers| && j != i && s.workers[j].Running? ==>
         s.workers[j].edge != f && Active(g, P, s.done, s.workers[j].edge))
  }

  lemma WriterFacts(w: World, plan: seq<EdgeId>, s: Sys, i: nat)
    requires Books(NeedMap(w.g, Elems(plan)), s) && i < |s.workers| && s.workers[i].Running?
    ensures Writer(w.g, Elems(plan), s, i, s.workers[i].edge)
  {
    hide *;
    ActiveEdges(w, plan, s);
    WriterFromActive(w.g, NeedMap(w.g, Elems(plan)), Elems(plan), s, i);
  }

  lemma WriterFromActive(g: Graph, need: map<EdgeId, set<EdgeId>>, P: set<EdgeId>, s: Sys, i: nat)
    requires Books(need, s) && i < |s.workers| && s.workers[i].Running?
    requires PrefixOf(g, P, s.done) && s.done !! Held(s.workers)
    requires forall e :: e in s.done || e in Held(s.workers) ==> Active(g, P, s.done, e)
    ensures Writer(g, P, s, i, s.workers[i].edge)
  {
    hide Books, Held, PrefixOf, Active, Settled, Writer;
    SettledAreActive(g, need, P, s, i);
    HoldersAreActive(g, need, P, s, i);
    HolderHolds(s.workers, i);
    assert EdgeOf(s.workers[i]) == Some(s.workers[i].edge);
    WriterFromParts(g, P, s, i, s.workers[i].edge);
  }

  lemma WriterFromParts(g: Graph, P: set<EdgeId>, s: Sys, i: nat, f: EdgeId)
    requires i < |s.workers| && s.workers[i].Running? && s.workers[i].edge == f
    requires PrefixOf(g, P, s.done) && Active(g, P, s.done, f) && f !in s.done
    requires forall e :: Settled(s, e) ==> e != f && Active(g, P, s.done, e)
    requires forall j :: 0 <= j < |s.workers| && j != i && s.workers[j].Running? ==>
               s.workers[j].edge != f && Active(g, P, s.done, s.workers[j].edge)
    ensures Writer(g, P, s, i, f)
  {
    hide PrefixOf, Active, Settled;
  }

  lemma SettledAreActive(g: Graph, need: map<EdgeId, set<EdgeId>>, P: set<EdgeId>, s: Sys, i: nat)
    requires Books(need, s) && i < |s.workers| && s.workers[i].Running?
    requires forall e :: e in s.done || e in Held(s.workers) ==> Active(g, P, s.done, e)
    ensures forall e :: Settled(s, e) ==> e != s.workers[i].edge && Active(g, P, s.done, e)
  {
    hide Books, Held, Active, Settled;
    forall e | Settled(s, e)
      ensures e != s.workers[i].edge && Active(g, P, s.done, e)
    {
      SettledIsActive(need, s, i, e);
    }
  }

  lemma HoldersAreActive(g: Graph, need: map<EdgeId, set<EdgeId>>, P: set<EdgeId>, s: Sys, i: nat)
    requires Books(need, s) && i < |s.workers| && s.workers[i].Running?
    requires forall e :: e in s.done || e in Held(s.workers) ==> Active(g, P, s.done, e)
    ensures forall j :: 0 <= j < |s.workers| && j != i && s.workers[j].Running? ==>
              s.workers[j].edge != s.workers[i].edge && Active(g, P, s.done, s.workers[j].edge)
  {
    hide Books, Held, Active, Settled;
    forall j | 0 <= j < |s.workers| && j != i && s.workers[j].Running?
      ensures s.workers[j].edge != s.workers[i].edge && Active(g, P, s.done, s.workers[j].edge)
    {
      HolderHolds(s.workers, j);
      OthersDiffer(need, s, i, j);
    }
  }

  lemma OthersDiffer(need: map<EdgeId, set<EdgeId>>, s: Sys, i: nat, j: nat)
    requires Books(need, s) && i < |s.workers| && j < |s.workers| && i != j
    requires s.workers[i].Running? && s.workers[j].Running?
    ensures s.workers[i].edge != s.workers[j].edge
  {
    hide Places, Indegrees, Counters, Lists, Held;
    assert EdgeOf(s.workers[i]).Some? && EdgeOf(s.workers[j]).Some?;
    if i < j {
      assert EdgeOf(s.workers[i]) != EdgeOf(s.workers[j]);
    } else {
      assert EdgeOf(s.workers[j]) != EdgeOf(s.workers[i]);
    }
  }

  lemma HolderHolds(ws: seq<Pc>, i: nat)
    requires i < |ws| && EdgeOf(ws[i]).Some?
    ensures EdgeOf(ws[i]).value in Held(ws)
  {
  }

  lemma SettledIsActive(need: map<EdgeId, set<EdgeId>>, s: Sys, i: nat, e: EdgeId)
    requires Books(need, s) && i < |s.workers| && s.workers[i].Running? && Settled(s, e)
    ensures e != s.workers[i].edge && (e in s.done || e in Held(s.workers))
  {
    hide Indegrees, Counters, Lists, NoDup;
    var f := s.workers[i].edge;
    HolderHolds(s.workers, i);
    if e !in s.done {
      var j :| 0 <= j < |s.workers| && s.workers[j] == Ran(e, true);
      HolderHolds(s.workers, j);
      assert EdgeOf(s.workers[i]) == Some(f) && EdgeOf(s.workers[j]) == Some(e) && i != j;
    }
  }

  /** A command ends, well or badly: only its own outputs changed. */
  lemma DiskWrite(w: World, P: set<EdgeId>, C: set<EdgeId>, d0: Disk, s: Sys, i: nat, f: EdgeId, ok: bool, s': Sys)
    requires ValidWorld(w) && Sealed(w.g, P, C)
    requires Writer(w.g, P, s, i, f) && f < |w.command| && DiskInv(w, P, d0, s)
    requires s' == Move(s, i, Ran(f, ok)).(disk := s'.disk)
    requires Touches(w.tools, w.command[f], s.disk, s'.disk) && ClockAhead(s'.disk) && s.disk.clock <= s'.disk.clock
    requires ok && NoStaleHits(w.tools) ==> Fresh(w, P, d0.clock, s'.disk, f)
    requires Accountable(w.tools, s'.disk)
    ensures DiskInv(w, P, d0, s')
  {
    assert f in P;
    hide Fresh, Touches, ValidWorld, Sealed, Active, PrefixOf, OutsideKept, ClockAhead, Informed, Settled, Accountable,
        NoStaleHits;
    OutsideStays(w, P, C, d0, s.disk, s'.disk, f);
    if NoStaleHits(w.tools) {
      forall e: EdgeId | Settled(s', e) && e < |w.command|
        ensures Fresh(w, P, d0.clock, s'.disk, e)
      {
        SettledStaysFresh(w, P, C, d0, s, i, f, ok, s', e);
      }
    }
    forall j | 0 <= j < |s'.workers| && s'.workers[j].Running? && s'.workers[j].edge < |w.command|
      ensures Informed(w.tools, w.command[s'.workers[j].edge], s'.workers[j].seen, s'.disk)
    {
      RunningStaysInformed(w, P, C, s.done, s.workers[j].edge, f, s.workers[j].seen, s.disk, s'.disk);
    }
  }

  lemma OutsideStays(w: World, P: set<EdgeId>, C: set<EdgeId>, d0: Disk, d: Disk, d': Disk, f: EdgeId)
    requires ValidWorld(w) && Sealed(w.g, P, C) && f in P && f < |w.command|
    requires OutsideKept(w, P, d0, d) && Touches(w.tools, w.command[f], d, d')
    ensures OutsideKept(w, P, d0, d')
  {
    EdgesOfPlan(w.g, P, C, f);
    OutputsAreOutputs(w, P, f);
    hide ValidWorld, Sealed, OutputsOf;
    forall p | p !in OutputsOf(w, P)
      ensures SameAt(d0, d', p)
    {
      assert SameAt(d0, d, p) && SameAt(d, d', p);
    }
    RecordsStay(w, P, d0, d, d', f);
  }

  lemma RecordsStay(w: World, P: set<EdgeId>, d0: Disk, d: Disk, d': Disk, f: EdgeId)
    requires f in P && f < |w.command|
    requires RecordsKept(w, P, d0.deps, d.deps) && Touches(w.tools, w.command[f], d, d')
    ensures RecordsKept(w, P, d0.deps, d'.deps)
  {
    hide SameAt;
    forall p | NotATarget(w, P, p)
      ensures SameRecord(d0.deps, d'.deps, p)
    {
      assert SameRecord(d0.deps, d.deps, p) && SameRecord(d.deps, d'.deps, p);
    }
  }

  lemma OutputsAreOutputs(w: World, P: set<EdgeId>, f: EdgeId)
    requires Declared(w) && IsEdge(w.g, f) && f in P
    ensures w.tools.outputs(w.command[f]) <= OutputsOf(w, P)
  {
    forall p | p in w.tools.outputs(w.command[f])
      ensures p in OutputsOf(w, P)
    {
      assert p in Elems(w.g.edges[f].outputs);
      assert p in w.g.edges[f].outputs;
    }
  }

  lemma SettledStaysFresh(w: World, P: set<EdgeId>, C: set<EdgeId>, d0: Disk, s: Sys, i: nat, f: EdgeId, ok: bool,
                          s': Sys, e: EdgeId)
    requires ValidWorld(w) && Sealed(w.g, P, C)
    requires Writer(w.g, P, s, i, f) && f < |w.command| && AllFresh(w, P, d0, s)
    requires s' == Move(s, i, Ran(f, ok)).(disk := s'.disk)
    requires Touches(w.tools, w.command[f], s.disk, s'.disk)
    requires ok ==> Fresh(w, P, d0.clock, s'.disk, f)
    requires Settled(s', e) && e < |w.command|
    ensures Fresh(w, P, d0.clock, s'.disk, e)
  {
    hide Fresh, Touches, ValidWorld, Sealed, PrefixOf, Settled;
    if !(e == f && ok) {
      SettledEdges(s, s', i, e);
      FreshStays(w, P, C, s.done, d0.clock, e, f, s.disk, s'.disk);
    }
  }

  lemma RunningStaysInformed(w: World, P: set<EdgeId>, C: set<EdgeId>, D: set<EdgeId>, e: EdgeId, f: EdgeId,
                             seen: Contents, d: Disk, d': Disk)
    requires ValidWorld(w) && Sealed(w.g, P, C) && PrefixOf(w.g, P, D)
    requires Active(w.g, P, D, e) && Active(w.g, P, D, f) && f !in D && e < |w.command| && f < |w.command|
    requires Touches(w.tools, w.command[f], d, d')
    requires Informed(w.tools, w.command[e], seen, d)
    ensures Informed(w.tools, w.command[e], seen, d')
  {
    hide ValidWorld, Sealed, PrefixOf, Touches, ContentsOf, Producers, Alike, Occurring;
    ContentsTouched(w.tools, w.command[f], d, d');
    WriteIsUnseen(w, P, C, D, e, f, ContentsOf(d.files), ContentsOf(d'.files));
    StillAlike(w.tools, w.command[e], seen, ContentsOf(d.files), ContentsOf(d'.files));
  }

  lemma DiskStep(w: World, plan: seq<EdgeId>, C: set<EdgeId>, d0: Disk, s: Sys, step: Step, s': Sys)
    requires ValidWorld(w) && Sealed(w.g, Elems(plan), C)
    requires Inv(w, plan, s) && DiskInv(w, Elems(plan), d0, s) && Next(w, s, step, s')
    ensures DiskInv(w, Elems(plan), d0, s')
  {
    hide ValidWorld, Sealed, Books, Control, DiskInv, FinishedBy, Wake, MainEnabled, NeedMap, EdgeSucceeds, FailEffect;
    match step
    case Succeed(i, now) => DiskSucceed(w, plan, C, d0, s, i, now, s');
    case Fail(i) => DiskFail(w, plan, C, d0, s, i, s');
    case Finish(i) => QuietFinish(w, Elems(plan), d0, s, i, s');
    case Announce(_) => QuietWakeup(w, Elems(plan), d0, s, step, s');
    case NotifyWorkers(_) => QuietWakeup(w, Elems(plan), d0, s, step, s');
    case Main => QuietWakeup(w, Elems(plan), d0, s, step, s');
    case MainWakes => QuietWakeup(w, Elems(plan), d0, s, step, s');
    case _ => QuietWorkerStep(w, Elems(plan), d0, s, step, s');
  }

  lemma DiskFail(w: World, plan: seq<EdgeId>, C: set<EdgeId>, d0: Disk, s: Sys, i: nat, s': Sys)
    requires ValidWorld(w) && Sealed(w.g, Elems(plan), C)
    requires Inv(w, plan, s) && DiskInv(w, Elems(plan), d0, s) && FailStep(w, s, i, s')
    ensures DiskInv(w, Elems(plan), d0, s')
  {
    hide Sealed, Books, Control, NeedMap, Touches, AllFresh, Writer, OutsideInv, Accountable, Settled, Informed,
        NoStaleHits, ValidWorld, Fresh, ClockAhead, SameFile, Occurring, Pruned;
    WriterFacts(w, plan, s, i);
    FailureTouches(w.tools, w.command[At(s, i).edge], s.disk, s'.disk);
    FailureKeepsAccountable(w.tools, w.command[At(s, i).edge], s.disk, s'.disk);
    hide DiskInv;
    DiskWrite(w, Elems(plan), C, d0, s, i, At(s, i).edge, false, s');
  }

  lemma DiskSucceed(w: World, plan: seq<EdgeId>, C: set<EdgeId>, d0: Disk, s: Sys, i: nat, now: int, s': Sys)
    requires ValidWorld(w) && Sealed(w.g, Elems(plan), C)
    requires Inv(w, plan, s) && DiskInv(w, Elems(plan), d0, s) && SucceedStep(w, s, i, now, s')
    ensures DiskInv(w, Elems(plan), d0, s')
  {
    hide ValidWorld, Sealed, Books, Control, DiskInv, NeedMap, Touches, Fresh, Writer, EdgeSucceeds, NoStaleHits,
        Accountable, ClockAhead;
    var P, f := Elems(plan), At(s, i).edge;
    WriterFacts(w, plan, s, i);
    ClockOf(w, P, d0, s);
    SuccessOfWriter(w, P, C, d0, s, i, f, now, s'.disk);
    DiskWrite(w, P, C, d0, s, i, f, true, s');
  }

  /** What a worker's success does to the disk. */
  lemma SuccessOfWriter(w: World, P: set<EdgeId>, C: set<EdgeId>, d0: Disk, s: Sys, i: nat, f: EdgeId, now: int,
                        d: Disk)
    requires ValidWorld(w) && Sealed(w.g, P, C)
    requires Writer(w.g, P, s, i, f) && f < |w.command| && DiskInv(w, P, d0, s) && s.disk.clock <= now
    requires EdgeSucceeds(w.tools, w.command[f], s.workers[i].seen, now, s.disk, d)
    ensures Touches(w.tools, w.command[f], s.disk, d) && ClockAhead(d) && d.clock == now
    ensures Accountable(w.tools, d)
    ensures NoStaleHits(w.tools) ==> Fresh(w, P, d0.clock, d, f)
  {
    var t, x, seen := w.tools, w.command[f], s.workers[i].seen;
    AccountOfWriter(w, P, C, d0, s, i, f, now, d);
    ClockOf(w, P, d0, s);
    hide Sealed, Writer, DiskInv, Touches, Fresh, Accountable, EdgeSucceeds, ClockAhead, NoStaleHits, RanLike;
    if NoStaleHits(t) {
      FreshWriter(w, P, C, d0, s, i, f, now, d);
    }
    SuccessTouches(t, x, seen, now, s.disk, d);
  }

  lemma AccountOfWriter(w: World, P: set<EdgeId>, C: set<EdgeId>, d0: Disk, s: Sys, i: nat, f: EdgeId, now: int,
                        d: Disk)
    requires ValidWorld(w) && Sealed(w.g, P, C)
    requires Writer(w.g, P, s, i, f) && f < |w.command| && DiskInv(w, P, d0, s)
    requires EdgeSucceeds(w.tools, w.command[f], s.workers[i].seen, now, s.disk, d)
    ensures Accountable(w.tools, d)
    ensures NoStaleHits(w.tools) ==> RanLike(w.tools, w.command[f], s.workers[i].seen, now, s.disk, d)
  {
    var t, x, seen := w.tools, w.command[f], s.workers[i].seen;
    WriterIsPlaceable(w, P, C, s, i, f);
    hide Valid, Acyclic, Ordered, Sealed, PrefixOf, Active, Settled, AllFresh, OutsideInv, Accountable, EdgeSucceeds,
        RunEffect, Alike, ContentsOf, SameRun, Deterministic, Reported, CollisionFree, Occurring, Placeable,
        NoStaleHits, RanLike, OutputsOccur, OwnTargets;
    SameOutcomeAfterRun(w, P, C, s.done, f, seen, now, s.disk);
    hide DiskInv, Writer;
    SuccessKeepsAccountable(t, x, seen, now, s.disk, d);
    if NoStaleHits(t) {
      SuccessIsRun(t, x, seen, now, s.disk, d);
    }
  }

  /** An edge of a plan does not depend on its own outputs. */
  lemma WriterIsPlaceable(w: World, P: set<EdgeId>, C: set<EdgeId>, s: Sys, i: nat, f: EdgeId)
    requires ValidWorld(w) && Sealed(w.g, P, C) && Writer(w.g, P, s, i, f) && f < |w.command|
    ensures Placeable(w.tools, w.command[f])
  {
    hide Sealed, PrefixOf, Settled, Active, Writer, Valid, Acyclic, Disciplined, Ordered, Declared;
    WriterIsActive(w.g, P, s, i, f);
    EdgeIsPlaceable(w, P, C, s.done, f);
  }

  lemma WriterIsActive(g: Graph, P: set<EdgeId>, s: Sys, i: nat, f: EdgeId)
    requires Writer(g, P, s, i, f)
    ensures f in P && PrefixOf(g, P, s.done) && Active(g, P, s.done, f) && f !in s.done
  {
    hide PrefixOf, Settled;
  }

  lemma EdgeIsPlaceable(w: World, P: set<EdgeId>, C: set<EdgeId>, D: set<EdgeId>, f: EdgeId)
    requires ValidWorld(w) && Sealed(w.g, P, C) && PrefixOf(w.g, P, D) && Active(w.g, P, D, f) && f !in D
    requires f < |w.command|
    ensures Placeable(w.tools, w.command[f])
  {
    var t, x := w.tools, w.command[f];
    hide Sealed, PrefixOf, Acyclic, Disciplined, Ordered, Producers, Valid, Discovered;
    EdgesOfPlan(w.g, P, C, f);
    assert t.known(x);
    OutputIsThere(w, f);
    forall c: Contents
      ensures Discovered(t, x, c) !! t.outputs(x)
    {
      WriteIsElsewhere(w, P, C, D, f, f, c);
    }
    forall o | o in t.outputs(x)
      ensures o !in t.inputs(x)
    {
      NeedsNotItself(w, P, D, f, o);
    }
  }

  lemma OutputIsThere(w: World, f: EdgeId)
    requires Declared(w) && IsEdge(w.g, f)
    ensures w.tools.outputs(w.command[f]) != {}
  {
    assert w.g.edges[f].outputs[0] in Elems(w.g.edges[f].outputs);
  }

  lemma NeedsNotItself(w: World, P: set<EdgeId>, D: set<EdgeId>, f: EdgeId, o: Path)
    requires Valid(w.g) && Declared(w) && IsEdge(w.g, f) && o in w.tools.outputs(w.command[f])
    requires Active(w.g, P, D, f) && f !in D
    ensures o !in w.tools.inputs(w.command[f])
  {
    if o in w.tools.inputs(w.command[f]) {
      ReaderNeedsWriter(w, f, o);
    }
  }

  lemma ReaderNeedsWriter(w: World, f: EdgeId, o: Path)
    requires Valid(w.g) && Declared(w) && IsEdge(w.g, f) && o in w.tools.outputs(w.command[f])
    requires o in w.tools.inputs(w.command[f])
    ensures f in Producers(w.g, f)
  {
    OutputsProducer(w, f, o);
    assert o in Elems(w.g.edges[f].inputs);
  }

  lemma ClockOf(w: World, P: set<EdgeId>, d0: Disk, s: Sys)
    requires DiskInv(w, P, d0, s)
    ensures ClockAhead(s.disk) && d0.clock <= s.disk.clock
  {
    hide AllFresh, OutsideKept, Settled, Accountable, NoStaleHits, Informed;
  }

  lemma FreshWriter(w: World, P: set<EdgeId>, C: set<EdgeId>, d0: Disk, s: Sys, i: nat, f: EdgeId, now: int, d: Disk)
    requires ValidWorld(w) && Sealed(w.g, P, C) && NoStaleHits(w.tools)
    requires Writer(w.g, P, s, i, f) && f < |w.command| && DiskInv(w, P, d0, s) && s.disk.clock <= now
    requires RanLike(w.tools, w.command[f], s.workers[i].seen, now, s.disk, d)
    ensures Fresh(w, P, d0.clock, d, f)
  {
    hide ValidWorld, Sealed, PrefixOf, Fresh, OutsideKept, RanLike, Active, ClockAhead, Accountable, Alike, Occurring,
        NoStaleHits;
    forall a: EdgeId | a in s.done && a < |w.command|
      ensures Fresh(w, P, d0.clock, s.disk, a)
    {
      assert Settled(s, a);
    }
    FreshAfterRun(w, P, C, s.done, d0.clock, f, s.workers[i].seen, now, s.disk, d);
  }

  lemma {:induction false} AlwaysDiskInv(w: World, plan: seq<EdgeId>, C: set<EdgeId>, jobs: nat, d0: Disk,
                                         run: seq<Sys>, steps: seq<Step>, k: nat)
    requires ValidWorld(w) && Runnable(w, plan, jobs) && Sealed(w.g, Elems(plan), C) && ClockAhead(d0)
    requires Accountable(w.tools, d0) && IsRun(w, plan, jobs, d0, run, steps) && k < |run|
    ensures DiskInv(w, Elems(plan), d0, run[k])
  {
    hide ValidWorld, Sealed, Inv, Next, Started, AllFresh, OutputsOf, Accountable, NoStaleHits;
    if k == 0 {
      InitDisk(w, plan, jobs, d0, run[0]);
    } else {
      hide DiskInv, Init;
      AlwaysDiskInv(w, plan, C, jobs, d0, run, steps, k - 1);
      AlwaysInv(w, plan, jobs, d0, run, steps, k - 1);
      assert Next(w, run[k - 1], steps[k - 1], run[k]);
      DiskStep(w, plan, C, d0, run[k - 1], steps[k - 1], run[k]);
    }
  }

  lemma InitDisk(w: World, plan: seq<EdgeId>, jobs: nat, d0: Disk, s: Sys)
    requires Init(w, plan, jobs, d0, s) && ClockAhead(d0)
    ensures OutsideInv(w, Elems(plan), d0, s.disk)
    ensures Accountable(w.tools, d0) ==> DiskInv(w, Elems(plan), d0, s)
  {
    hide Fresh, OutputsOf, Started, Accountable, NoStaleHits;
  }

  // ------------------------------------------------------------------------------------------
  // What holds with any cache
  // ------------------------------------------------------------------------------------------

  lemma AnyStepOutside(w: World, plan: seq<EdgeId>, C: set<EdgeId>, d0: Disk, s: Sys, step: Step, s': Sys)
    requires ValidWorld(w) && Sealed(w.g, Elems(plan), C)
    requires Inv(w, plan, s) && OutsideInv(w, Elems(plan), d0, s.disk) && Next(w, s, step, s')
    ensures OutsideInv(w, Elems(plan), d0, s'.disk)
  {
    hide ValidWorld, Sealed, Control, FinishedBy, Wake, MainEnabled, NeedMap, EdgeSucceeds, FailEffect, OutsideInv,
        Books, Inv;
    match step
    case Succeed(i, now) => OutsideWrite(w, plan, C, d0, s, i, true, now, s'.disk);
    case Fail(i) => OutsideWrite(w, plan, C, d0, s, i, false, 0, s'.disk);
    case _ => assert s'.disk == s.disk;
  }

  lemma OutsideWrite(w: World, plan: seq<EdgeId>, C: set<EdgeId>, d0: Disk, s: Sys, i: nat, ok: bool, now: int,
                     d: Disk)
    requires ValidWorld(w) && Sealed(w.g, Elems(plan), C)
    requires Inv(w, plan, s) && OutsideInv(w, Elems(plan), d0, s.disk)
    requires i < |s.workers| && s.workers[i].Running? && s.workers[i].edge < |w.command|
    requires if ok then s.disk.clock <= now &&
                 EdgeSucceeds(w.tools, w.command[s.workers[i].edge], s.workers[i].seen, now, s.disk, d)
             else FailEffect(w.tools, w.command[s.workers[i].edge], s.disk, d)
    ensures OutsideInv(w, Elems(plan), d0, d)
  {
    hide Sealed, Control, NeedMap, Books, OutsideKept, Touches, EdgeSucceeds, PrefixOf, ClockAhead, Valid, Acyclic;
    var f := s.workers[i].edge;
    var x := w.command[f];
    WriterFacts(w, plan, s, i);
    if ok {
      SuccessTouches(w.tools, x, s.workers[i].seen, now, s.disk, d);
    } else {
      FailureTouches(w.tools, x, s.disk, d);
    }
    hide ValidWorld, FailEffect;
    OutsideStays(w, Elems(plan), C, d0, s.disk, d, f);
  }

  lemma {:induction false} AlwaysOutside(w: World, plan: seq<EdgeId>, C: set<EdgeId>, jobs: nat, d0: Disk,
                                         run: seq<Sys>, steps: seq<Step>, k: nat)
    requires ValidWorld(w) && Runnable(w, plan, jobs) && Sealed(w.g, Elems(plan), C) && ClockAhead(d0)
    requires IsRun(w, plan, jobs, d0, run, steps) && k < |run|
    ensures OutsideInv(w, Elems(plan), d0, run[k].disk)
  {
    hide ValidWorld, Sealed, Inv, Next, Started, OutsideInv, DiskInv;
    if k == 0 {
      InitDisk(w, plan, jobs, d0, run[0]);
    } else {
      hide Init;
      AlwaysOutside(w, plan, C, jobs, d0, run, steps, k - 1);
      AlwaysInv(w, plan, jobs, d0, run, steps, k - 1);
      assert Next(w, run[k - 1], steps[k - 1], run[k]);
      AnyStepOutside(w, plan, C, d0, run[k - 1], steps[k - 1], run[k]);
    }
  }

  /** A build stopped anywhere has changed nothing but planned outputs and their log entries, whatever was cached. */
  lemma OnlyPlannedOutputsChange(w: World, plan: seq<EdgeId>, C: set<EdgeId>, jobs: nat, d0: Disk, s: Sys)
    requires ValidWorld(w) && Runnable(w, plan, jobs) && Sealed(w.g, Elems(plan), C) && ClockAhead(d0)
    requires Reachable(w, plan, jobs, d0, s)
    ensures OutsideKept(w, Elems(plan), d0, s.disk) && ClockAhead(s.disk) && d0.clock <= s.disk.clock
  {
    hide ValidWorld, Runnable, Sealed, ClockAhead, OutsideKept, Next, Init;
    var run, steps :| IsRun(w, plan, jobs, d0, run, steps) && run[|steps|] == s;
    AlwaysOutside(w, plan, C, jobs, d0, run, steps, |steps|);
  }

  /** A record is the old one, or what a planned command reported on some state of the files. */
  ghost predicate RecordsExplained(w: World, P: set<EdgeId>, deps: map<Path, seq<Path>>, deps': map<Path, seq<Path>>)
  {
    forall p :: SameRecord(deps, deps', p) || (p in deps' && Explained(w, P, p, deps'[p]))
  }

  ghost predicate Explained(w: World, P: set<EdgeId>, p: Path, record: seq<Path>)
  {
    exists e: EdgeId, c: Contents :: e in P && e < |w.command| && w.tools.depTarget(w.command[e]) == Some(p) &&
                                     record == w.tools.deps(w.command[e], c)
  }

  /** The logs and the time stamps tell what ran, whatever was cached. */
  ghost predicate LogInv(w: World, P: set<EdgeId>, d0: Disk, s: Sys)
  {
    && (forall e: EdgeId :: Settled(s, e) && e < |w.command| ==> Stamped(w, P, d0.clock, s.disk, e))
    && RecordsExplained(w, P, d0.deps, s.disk.deps)
  }

  lemma SuccessLogs(t: Tools, x: Command, seen: Contents, now: int, d: Disk, d': Disk)
    requires EdgeSucceeds(t, x, seen, now, d, d')
    ensures Logged(t, x, d'.log)
    ensures forall o :: o in t.outputs(x) ==> o in d'.files && d'.files[o].mtime == now
    ensures forall p :: SameRecord(d.deps, d'.deps, p) ||
                        (t.depTarget(x) == Some(p) && p in d'.deps && d'.deps[p] == t.deps(x, seen))
  {
    hide Filed, Pruned, Snapshot, Verified, ContentsOf, Deposits;
    if o, k :| Hits(t, x, seen, now, d, d', o, k) {
      assert t.outputs(x) == {o};
    } else {
      var mid :| Runs(t, x, seen, now, d, d', mid);
      RunIsNow(t, x, seen, now, d);
      hide WriteOutputs;
    }
  }

  /** A write of `f` leaves the log entries and stamps of other edges alone. */
  lemma StampedStays(w: World, P: set<EdgeId>, C: set<EdgeId>, D: set<EdgeId>, start: int, e: EdgeId, f: EdgeId,
      d: Disk, d': Disk)
    requires ValidWorld(w) && Sealed(w.g, P, C) && PrefixOf(w.g, P, D)
    requires Active(w.g, P, D, e) && f in P && f !in D && e != f && e < |w.command| && f < |w.command|
    requires Stamped(w, P, start, d, e) && Touches(w.tools, w.command[f], d, d')
    ensures Stamped(w, P, start, d', e)
  {
    hide Sealed, PrefixOf, Producers, Acyclic, Valid, Ordered, Touches, TimesOk, Disciplined, Logged, WrittenSince;
    TimesStay(w, P, C, D, e, f, d, d');
    EdgesOfPlan(w.g, P, C, e);
    EdgesOfPlan(w.g, P, C, f);
    OthersStayLogged(w, start, e, f, d, d');
  }

  lemma OthersStayLogged(w: World, start: int, e: EdgeId, f: EdgeId, d: Disk, d': Disk)
    requires Valid(w.g) && Declared(w) && IsEdge(w.g, e) && IsEdge(w.g, f) && e != f
    requires Logged(w.tools, w.command[e], d.log) && WrittenSince(w.tools, w.command[e], start, d.files)
    requires Touches(w.tools, w.command[f], d, d')
    ensures Logged(w.tools, w.command[e], d'.log) && WrittenSince(w.tools, w.command[e], start, d'.files)
  {
    OutputsApart(w, e, f);
    hide Valid, Declared;
    forall o | o in w.tools.outputs(w.command[e])
      ensures SameAt(d, d', o)
    {
    }
  }

  /** The writer itself. */
  lemma StampedAfterWrite(w: World, P: set<EdgeId>, C: set<EdgeId>, D: set<EdgeId>, start: int, e: EdgeId, now: int,
                          d: Disk, d': Disk)
    requires ValidWorld(w) && Sealed(w.g, P, C) && PrefixOf(w.g, P, D)
    requires Active(w.g, P, D, e) && e !in D && e < |w.command|
    requires ClockAhead(d) && start <= d.clock <= now && Touches(w.tools, w.command[e], d, d')
    requires Logged(w.tools, w.command[e], d'.log)
    requires forall o :: o in w.tools.outputs(w.command[e]) ==> o in d'.files && d'.files[o].mtime == now
    requires forall a: EdgeId :: a in D && a < |w.command| ==> Stamped(w, P, start, d, a)
    ensures Stamped(w, P, start, d', e)
  {
    hide ValidWorld, Sealed, PrefixOf, Active, Touches, ClockAhead, Logged, TimesOk;
    TimesAfterWrite(w, P, C, D, start, e, now, d, d');
  }

  /** All edges that have run are stamped after a worker's write. */
  lemma StampsAfter(w: World, plan: seq<EdgeId>, C: set<EdgeId>, d0: Disk, s: Sys, i: nat, ok: bool, now: int, s': Sys)
    requires ValidWorld(w) && Sealed(w.g, Elems(plan), C) && Inv(w, plan, s)
    requires OutsideInv(w, Elems(plan), d0, s.disk) && LogInv(w, Elems(plan), d0, s)
    requires i < |s.workers| && s.workers[i].Running? && s.workers[i].edge < |w.command|
    requires s' == Move(s, i, Ran(s.workers[i].edge, ok)).(disk := s'.disk)
    requires Touches(w.tools, w.command[s.workers[i].edge], s.disk, s'.disk)
    requires ok ==> s.disk.clock <= now && WritesNow(w.tools, w.command[s.workers[i].edge], now, s'.disk)
    ensures forall e: EdgeId :: Settled(s', e) && e < |w.command| ==> Stamped(w, Elems(plan), d0.clock, s'.disk, e)
  {
    var P, f := Elems(plan), s.workers[i].edge;
    WriterFacts(w, plan, s, i);
    hide ValidWorld, Sealed, Inv, Touches, Stamped, OutsideKept, ClockAhead, RecordsExplained, Settled, WritesNow,
        Writer;
    forall e: EdgeId | Settled(s', e) && e < |w.command|
      ensures Stamped(w, P, d0.clock, s'.disk, e)
    {
      if e == f && ok {
        StampedWriter(w, P, C, d0, s, i, f, now, s'.disk);
      } else {
        SettledEdges(s, s', i, e);
        SettledStaysStamped(w, P, C, d0.clock, s, i, f, s'.disk, e);
      }
    }
  }

  /** All outputs of `x` are written at this moment, and logged. */
  ghost predicate WritesNow(t: Tools, x: Command, now: int, d: Disk)
  {
    Logged(t, x, d.log) && forall o :: o in t.outputs(x) ==> o in d.files && d.files[o].mtime == now
  }

  lemma StampedWriter(w: World, P: set<EdgeId>, C: set<EdgeId>, d0: Disk, s: Sys, i: nat, f: EdgeId, now: int, d: Disk)
    requires ValidWorld(w) && Sealed(w.g, P, C) && Writer(w.g, P, s, i, f) && f < |w.command|
    requires OutsideInv(w, P, d0, s.disk) && s.disk.clock <= now && Touches(w.tools, w.command[f], s.disk, d)
    requires forall e: EdgeId :: Settled(s, e) && e < |w.command| ==> Stamped(w, P, d0.clock, s.disk, e)
    requires WritesNow(w.tools, w.command[f], now, d)
    ensures Stamped(w, P, d0.clock, d, f)
  {
    hide ValidWorld, Sealed, PrefixOf, Active, Touches, Stamped, OutsideKept, ClockAhead, Logged;
    forall a: EdgeId | a in s.done && a < |w.command|
      ensures Stamped(w, P, d0.clock, s.disk, a)
    {
      assert Settled(s, a);
    }
    StampedAfterWrite(w, P, C, s.done, d0.clock, f, now, s.disk, d);
  }

  lemma SettledStaysStamped(w: World, P: set<EdgeId>, C: set<EdgeId>, start: int, s: Sys, i: nat, f: EdgeId, d: Disk,
                            e: EdgeId)
    requires ValidWorld(w) && Sealed(w.g, P, C) && Writer(w.g, P, s, i, f) && f < |w.command|
    requires Touches(w.tools, w.command[f], s.disk, d) && Settled(s, e) && e < |w.command|
    requires Stamped(w, P, start, s.disk, e)
    ensures Stamped(w, P, start, d, e)
  {
    assert f in P by { WriterPlans(w.g, P, s, i, f); }
    hide ValidWorld, Sealed, PrefixOf, Touches, Stamped, Settled;
    StampedStays(w, P, C, s.done, start, e, f, s.disk, d);
  }

  lemma LogSucceed(w: World, plan: seq<EdgeId>, C: set<EdgeId>, d0: Disk, s: Sys, i: nat, now: int, s': Sys)
    requires ValidWorld(w) && Sealed(w.g, Elems(plan), C) && OutsideInv(w, Elems(plan), d0, s.disk)
    requires Inv(w, plan, s) && LogInv(w, Elems(plan), d0, s) && SucceedStep(w, s, i, now, s')
    ensures LogInv(w, Elems(plan), d0, s')
  {
    hide Valid, Acyclic, Ordered, Sealed, Books, Control, NeedMap, EdgeSucceeds, Touches, PrefixOf, Active, Logged;
    hide Deterministic, Reported, CollisionFree, OutputsOccur, Declared, RecordsExplained, Settled, Stamped, OutsideInv;
    var P, f := Elems(plan), At(s, i).edge;
    WriterFacts(w, plan, s, i);
    var x, seen := w.command[f], At(s, i).seen;
    SuccessTouches(w.tools, x, seen, now, s.disk, s'.disk);
    SuccessLogs(w.tools, x, seen, now, s.disk, s'.disk);
    assert f in P by { WriterPlans(w.g, P, s, i, f); }
    RecordsStayExplained(w, P, d0.deps, s.disk.deps, s'.disk.deps, f, seen);
    hide OwnTargets, SameRecord, Disciplined;
    StampsAfter(w, plan, C, d0, s, i, true, now, s');
  }

  lemma LogFail(w: World, plan: seq<EdgeId>, C: set<EdgeId>, d0: Disk, s: Sys, i: nat, s': Sys)
    requires ValidWorld(w) && Sealed(w.g, Elems(plan), C) && OutsideInv(w, Elems(plan), d0, s.disk)
    requires Inv(w, plan, s) && LogInv(w, Elems(plan), d0, s) && FailStep(w, s, i, s')
    ensures LogInv(w, Elems(plan), d0, s')
  {
    hide ValidWorld, Sealed, Inv, Touches, Logged, RecordsExplained, Settled, Stamped, OutsideInv, SameFile, Occurring,
        Pruned, ClockAhead;
    FailureTouches(w.tools, w.command[At(s, i).edge], s.disk, s'.disk);
    StampsAfter(w, plan, C, d0, s, i, false, 0, s');
  }

  lemma WriterPlans(g: Graph, P: set<EdgeId>, s: Sys, i: nat, f: EdgeId)
    requires Writer(g, P, s, i, f)
    ensures f in P
  {
    hide PrefixOf, Settled;
  }

  lemma RecordsStayExplained(w: World, P: set<EdgeId>, deps0: map<Path, seq<Path>>, deps: map<Path, seq<Path>>,
                             deps': map<Path, seq<Path>>, f: EdgeId, c: Contents)
    requires RecordsExplained(w, P, deps0, deps) && f in P && f < |w.command|
    requires forall p :: SameRecord(deps, deps', p) ||
               (w.tools.depTarget(w.command[f]) == Some(p) && p in deps' && deps'[p] == w.tools.deps(w.command[f], c))
    ensures RecordsExplained(w, P, deps0, deps')
  {
    hide Explained;
    forall p
      ensures SameRecord(deps0, deps', p) || (p in deps' && Explained(w, P, p, deps'[p]))
    {
      if !SameRecord(deps, deps', p) {
        RunExplains(w, P, p, f, c);
      }
    }
  }

  lemma RunExplains(w: World, P: set<EdgeId>, p: Path, f: EdgeId, c: Contents)
    requires f in P && f < |w.command| && w.tools.depTarget(w.command[f]) == Some(p)
    ensures Explained(w, P, p, w.tools.deps(w.command[f], c))
  {
  }

  /** No other step settles an edge. */
  lemma SettledBefore(w: World, s: Sys, step: Step, s': Sys, e: EdgeId)
    requires Next(w, s, step, s') && !step.Succeed? && Settled(s', e)
    ensures Settled(s, e)
  {
    hide FinishedBy, Wake, MainEnabled, FailEffect;
    if step.Announce? || step.NotifyWorkers? || step.Main? || step.MainWakes? {
      NobodySleeps(s.workers);
      if i :| 0 <= i < |s'.workers| && s'.workers[i] == Ran(e, true) {
        assert s.workers[i] == Ran(e, true);
      }
    } else if step.Finish? {
      assert s.workers[step.i] == Ran(At(s, step.i).edge, true);
    } else {
      SettledEdges(s, s', step.i, e);
    }
  }

  lemma LogStep(w: World, plan: seq<EdgeId>, C: set<EdgeId>, d0: Disk, s: Sys, step: Step, s': Sys)
    requires ValidWorld(w) && Sealed(w.g, Elems(plan), C) && OutsideInv(w, Elems(plan), d0, s.disk)
    requires Inv(w, plan, s) && LogInv(w, Elems(plan), d0, s) && Next(w, s, step, s')
    ensures LogInv(w, Elems(plan), d0, s')
  {
    hide ValidWorld, Sealed, FinishedBy, Wake, MainEnabled, EdgeSucceeds, FailEffect, Inv, Settled, Stamped,
        RecordsExplained, OutsideInv;
    if step.Succeed? {
      LogSucceed(w, plan, C, d0, s, step.i, step.now, s');
    } else if step.Fail? {
      LogFail(w, plan, C, d0, s, step.i, s');
    } else {
      forall e | Settled(s', e)
        ensures Settled(s, e)
      {
        SettledBefore(w, s, step, s', e);
      }
      assert s'.disk == s.disk;
    }
  }

  lemma {:induction false} AlwaysLogged(w: World, plan: seq<EdgeId>, C: set<EdgeId>, jobs: nat, d0: Disk,
                                        run: seq<Sys>, steps: seq<Step>, k: nat)
    requires ValidWorld(w) && Runnable(w, plan, jobs) && Sealed(w.g, Elems(plan), C) && ClockAhead(d0)
    requires IsRun(w, plan, jobs, d0, run, steps) && k < |run|
    ensures LogInv(w, Elems(plan), d0, run[k])
  {
    hide ValidWorld, Sealed, Inv, Next, Started, Stamped, ClockAhead, OutsideInv;
    if k > 0 {
      hide Init, LogInv;
      AlwaysLogged(w, plan, C, jobs, d0, run, steps, k - 1);
      AlwaysOutside(w, plan, C, jobs, d0, run, steps, k - 1);
      AlwaysInv(w, plan, jobs, d0, run, steps, k - 1);
      assert Next(w, run[k - 1], steps[k - 1], run[k]);
      LogStep(w, plan, C, d0, run[k - 1], steps[k - 1], run[k]);
    }
  }

  /** After a successful run logs and time stamps tell what ran, whatever was cached. */
  lemma SuccessIsLogged(w: World, plan: seq<EdgeId>, C: set<EdgeId>, jobs: nat, d0: Disk, s: Sys)
    requires ValidWorld(w) && Runnable(w, plan, jobs) && Sealed(w.g, Elems(plan), C) && ClockAhead(d0)
    requires Reachable(w, plan, jobs, d0, s) && s.main.Returned? && !s.sh.failed
    ensures forall e: EdgeId :: e in plan ==> e < |w.command| && Stamped(w, Elems(plan), d0.clock, s.disk, e)
    ensures RecordsExplained(w, Elems(plan), d0.deps, s.disk.deps)
  {
    ReturnValue(w, plan, jobs, d0, s);
    hide ValidWorld, Sealed, Next, Init, Held, Topological, Stamped, RecordsExplained, ClockAhead;
    var run, steps :| IsRun(w, plan, jobs, d0, run, steps) && run[|steps|] == s;
    AlwaysLogged(w, plan, C, jobs, d0, run, steps, |steps|);
    forall e: EdgeId | e in plan
      ensures e < |w.command| && Stamped(w, Elems(plan), d0.clock, s.disk, e)
    {
      assert e in Elems(plan) && e in AllEdges(w.g);
      assert Settled(s, e);
    }
  }

  // ------------------------------------------------------------------------------------------
  // What holds without stale hits
  // ------------------------------------------------------------------------------------------

  /** A build stopped anywhere leaves contents, records and a cache that the history accounts for, whatever the keys. */
  lemma StaysAccountable(w: World, plan: seq<EdgeId>, C: set<EdgeId>, jobs: nat, d0: Disk, s: Sys)
    requires ValidWorld(w) && Runnable(w, plan, jobs) && Sealed(w.g, Elems(plan), C) && ClockAhead(d0)
    requires Accountable(w.tools, d0) && Reachable(w, plan, jobs, d0, s)
    ensures Accountable(w.tools, s.disk)
  {
    hide ValidWorld, Runnable, Sealed, ClockAhead, OutsideInv, Next, Init, Accountable, AllFresh, NoStaleHits;
    var run, steps :| IsRun(w, plan, jobs, d0, run, steps) && run[|steps|] == s;
    AlwaysDiskInv(w, plan, C, jobs, d0, run, steps, |steps|);
  }

  /** After a successful run every planned edge is fresh: consistent, logged and stamped in order. */
  lemma SuccessMakesFresh(w: World, plan: seq<EdgeId>, C: set<EdgeId>, jobs: nat, d0: Disk, s: Sys)
    requires ValidWorld(w) && Runnable(w, plan, jobs) && Sealed(w.g, Elems(plan), C) && ClockAhead(d0)
    requires NoStaleHits(w.tools) && Accountable(w.tools, d0)
    requires Reachable(w, plan, jobs, d0, s) && s.main.Returned? && !s.sh.failed
    ensures forall e: EdgeId :: e in plan ==> e < |w.command| && Fresh(w, Elems(plan), d0.clock, s.disk, e)
  {
    ReturnValue(w, plan, jobs, d0, s);
    hide ValidWorld, Sealed, ClockAhead, OutsideInv, Fresh, Next, Init, Held, Topological, NoStaleHits, Accountable;
    var run, steps :| IsRun(w, plan, jobs, d0, run, steps) && run[|steps|] == s;
    AlwaysDiskInv(w, plan, C, jobs, d0, run, steps, |steps|);
    forall e: EdgeId | e in plan
      ensures e < |w.command| && Fresh(w, Elems(plan), d0.clock, s.disk, e)
    {
      assert e in Elems(plan) && e in AllEdges(w.g);
      assert Settled(s, e);
    }
  }

  /**
   Schedule independence: whatever the number of workers and the interleaving, a successful run ends with the
   file contents that the serial executor produces over any topological order of the plan.
   */
  lemma {:induction false} ScheduleIndependence(w: World, plan: seq<EdgeId>, C: set<EdgeId>, jobs: nat, d0: Disk,
      s: Sys, order: seq<EdgeId>)
    requires ValidWorld(w) && Runnable(w, plan, jobs) && Sealed(w.g, Elems(plan), C) && ClockAhead(d0)
    requires NoStaleHits(w.tools) && Accountable(w.tools, d0)
    requires Reachable(w, plan, jobs, d0, s) && s.main.Returned? && !s.sh.failed
    requires Topological(w.g, order) && multiset(order) == multiset(plan)
    ensures forall i :: 0 <= i < |order| ==> order[i] < |w.command|
    ensures ContentsOf(s.disk.files) == SerialRun(w, order, ContentsOf(d0.files))
  {
    hide ValidWorld, Sealed, ClockAhead, Reachable, Topological, Runnable, NoStaleHits, Accountable;
    SuccessMakesFresh(w, plan, C, jobs, d0, s);
    OnlyPlannedOutputsChange(w, plan, C, jobs, d0, s);
    PermutationElems(order, plan);
    FreshIsConsistent(w, Elems(plan), d0, s.disk);
    hide Fresh, OutsideKept;
    SerialRunIsTheOutcome(w, Elems(plan), C, order, ContentsOf(d0.files), ContentsOf(s.disk.files));
  }

  lemma FreshIsConsistent(w: World, P: set<EdgeId>, d0: Disk, d: Disk)
    requires forall e: EdgeId :: e in P ==> e < |w.command| && Fresh(w, P, d0.clock, d, e)
    requires OutsideKept(w, P, d0, d)
    ensures AllConsistent(w, P, ContentsOf(d.files))
    ensures SameElsewhere(w, P, ContentsOf(d0.files), ContentsOf(d.files))
  {
    hide OutputsOf, Recorded, TimesOk;
  }

  /**
   Two successful runs of one plan, under whatever schedules, agree on the log, without stale hits on the contents, and
   without stale lists on the records.
   */
  lemma {:induction false} SchedulesAgree(w: World, plan: seq<EdgeId>, C: set<EdgeId>, d0: Disk, jobs: nat, s: Sys,
                                          jobs': nat, s': Sys)
    requires ValidWorld(w) && Sealed(w.g, Elems(plan), C) && ClockAhead(d0)
    requires Runnable(w, plan, jobs) && Reachable(w, plan, jobs, d0, s) && s.main.Returned? && !s.sh.failed
    requires Runnable(w, plan, jobs') && Reachable(w, plan, jobs', d0, s') && s'.main.Returned? && !s'.sh.failed
    ensures s.disk.log == s'.disk.log
    ensures Accountable(w.tools, d0) && NoStaleHits(w.tools) ==> ContentsOf(s.disk.files) == ContentsOf(s'.disk.files)
    ensures Accountable(w.tools, d0) && NoStaleHits(w.tools) && NoStaleLists(w.tools) ==> s.disk.deps == s'.disk.deps
  {
    hide ValidWorld, Sealed, ClockAhead, Reachable, Topological, Runnable, NoStaleHits, NoStaleLists, Accountable,
        OutsideKept, Fresh, Stamped;
    var P := Elems(plan);
    SuccessIsLogged(w, plan, C, jobs, d0, s);
    SuccessIsLogged(w, plan, C, jobs', d0, s');
    OnlyPlannedOutputsChange(w, plan, C, jobs, d0, s);
    OnlyPlannedOutputsChange(w, plan, C, jobs', d0, s');
    LogsAgree(w, P, C, d0, s.disk, s'.disk);
    if Accountable(w.tools, d0) && NoStaleHits(w.tools) {
      SuccessMakesFresh(w, plan, C, jobs, d0, s);
      SuccessMakesFresh(w, plan, C, jobs', d0, s');
      OutcomesAgree(w, P, C, d0, s.disk, s'.disk);
      if NoStaleLists(w.tools) {
        StaysAccountable(w, plan, C, jobs, d0, s);
        DeterministicTools(w);
        RecordsAgree(w, P, d0, s.disk, s'.disk);
      }
    }
  }

  lemma OutcomesAgree(w: World, P: set<EdgeId>, C: set<EdgeId>, d0: Disk, d: Disk, d': Disk)
    requires ValidWorld(w) && Sealed(w.g, P, C) && OutsideKept(w, P, d0, d) && OutsideKept(w, P, d0, d')
    requires forall e: EdgeId :: e in P ==> e < |w.command| && Fresh(w, P, d0.clock, d, e)
    requires forall e: EdgeId :: e in P ==> e < |w.command| && Fresh(w, P, d0.clock, d', e)
    ensures ContentsOf(d.files) == ContentsOf(d'.files)
  {
    hide ValidWorld, Sealed;
    FreshIsConsistent(w, P, d0, d);
    FreshIsConsistent(w, P, d0, d');
    hide OutsideKept, Fresh, AllConsistent;
    SameElsewhereTurns(w, P, ContentsOf(d0.files), ContentsOf(d.files), ContentsOf(d'.files));
    ConsistentStateIsUnique(w, P, C, ContentsOf(d.files), ContentsOf(d'.files));
  }

  lemma DeterministicTools(w: World)
    requires ValidWorld(w)
    ensures Deterministic(w.tools)
  {
  }

  lemma SameElsewhereTurns(w: World, P: set<EdgeId>, c: Contents, d: Contents, d': Contents)
    requires SameElsewhere(w, P, c, d) && SameElsewhere(w, P, c, d')
    ensures SameElsewhere(w, P, d, d')
  {
    hide OutputsOf;
  }

  lemma LogsAgree(w: World, P: set<EdgeId>, C: set<EdgeId>, d0: Disk, d: Disk, d': Disk)
    requires ValidWorld(w) && Sealed(w.g, P, C) && OutsideKept(w, P, d0, d) && OutsideKept(w, P, d0, d')
    requires forall e: EdgeId :: e in P ==> e < |w.command| && Stamped(w, P, d0.clock, d, e)
    requires forall e: EdgeId :: e in P ==> e < |w.command| && Stamped(w, P, d0.clock, d', e)
    ensures d.log == d'.log
  {
    hide Sealed, Valid, Acyclic, Disciplined, Ordered, OutputsOf, Stamped;
    forall p
      ensures (p in d.log <==> p in d'.log) && (p in d.log ==> d.log[p] == d'.log[p])
    {
      if p in OutputsOf(w, P) {
        var f := OutputWriter(w, P, p);
        StampedIsLogged(w, P, d0.clock, d, f, p);
        StampedIsLogged(w, P, d0.clock, d', f, p);
      } else {
        assert SameAt(d0, d, p) && SameAt(d0, d', p);
      }
    }
  }

  lemma OutputWriter(w: World, P: set<EdgeId>, p: Path) returns (f: EdgeId)
    requires Declared(w) && p in OutputsOf(w, P)
    ensures f in P && f < |w.command| && p in w.tools.outputs(w.command[f])
  {
    f :| f in P && IsEdge(w.g, f) && p in w.g.edges[f].outputs;
    assert p in Elems(w.g.edges[f].outputs);
  }

  lemma StampedIsLogged(w: World, P: set<EdgeId>, start: int, d: Disk, f: EdgeId, p: Path)
    requires f < |w.command| && Stamped(w, P, start, d, f) && p in w.tools.outputs(w.command[f])
    ensures p in d.log && d.log[p] == w.tools.hash(w.command[f])
  {
    hide TimesOk, WrittenSince;
  }

  lemma RecordsAgree(w: World, P: set<EdgeId>, d0: Disk, d: Disk, d': Disk)
    requires OutsideKept(w, P, d0, d) && OutsideKept(w, P, d0, d') && ContentsOf(d.files) == ContentsOf(d'.files)
    requires NoStaleLists(w.tools) && Deterministic(w.tools) && Accountable(w.tools, d)
    requires forall e: EdgeId :: e in P ==> e < |w.command| && Fresh(w, P, d0.clock, d, e)
    requires forall e: EdgeId :: e in P ==> e < |w.command| && Fresh(w, P, d0.clock, d', e)
    ensures d.deps == d'.deps
  {
    hide Fresh, NoStaleLists, Deterministic, OutputsOf, CacheOk, RecordsKnown, Occurring, ContentsOf;
    forall p
      ensures SameRecord(d.deps, d'.deps, p)
    {
      if e: EdgeId :| e in P && e < |w.command| && w.tools.depTarget(w.command[e]) == Some(p) {
        FreshRecord(w, P, d0.clock, d, e, p);
        FreshRecord(w, P, d0.clock, d', e, p);
      } else {
        assert NotATarget(w, P, p);
        assert SameRecord(d0.deps, d.deps, p) && SameRecord(d0.deps, d'.deps, p);
      }
    }
    hide *;
    SameRecordsEverywhere(d.deps, d'.deps);
  }

  lemma SameRecordsEverywhere(deps: map<Path, seq<Path>>, deps': map<Path, seq<Path>>)
    requires forall p :: SameRecord(deps, deps', p)
    ensures deps == deps'
  {
    assert forall p :: SameRecord(deps, deps', p) ==> (p in deps <==> p in deps');
  }

  /** The record of a fresh edge is what its command would report now. */
  lemma FreshRecord(w: World, P: set<EdgeId>, start: int, d: Disk, e: EdgeId, p: Path)
    requires e < |w.command| && Fresh(w, P, start, d, e) && w.tools.depTarget(w.command[e]) == Some(p)
    requires NoStaleLists(w.tools) && Deterministic(w.tools) && Occurring(w.tools, ContentsOf(d.files))
    ensures p in d.deps && d.deps[p] == w.tools.deps(w.command[e], ContentsOf(d.files))
  {
    hide TimesOk, Consistent, NoStaleLists, Deterministic, Occurring, Backed;
    BackedIsExact(w.tools, w.command[e], d.deps[p], ContentsOf(d.files));
  }
}
