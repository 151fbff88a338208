/**
 An incremental build against a full one. `Calm` says positively what the builder's three checks let pass;
 `UpToDate` says what one would like that to mean. A build that starts where calm commands are up to date ends
 where all commands of its scope are, which is where a full build ends.
 */
module Incremental {
  import opened Prelude
  import opened Graphs
  import opened World
  import opened Cache
  import opened CachedEdges
  import opened Builder
  import opened SchedulerSteps
  import opened Execution
  import opened ScheduledBuild

  /** The builder of `main` is given both logs. */
  function ViewOf(d: Disk): View
  {
    View(d.files, Some(d.log), Some(d.deps))
  }

  /** The files whose state is compared with output `o`: declared inputs and recorded dependencies. */
  function Watched(t: Tools, x: Command, deps: map<Path, seq<Path>>, o: Path): set<Path>
  {
    t.inputs(x) + if o in deps then Elems(deps[o]) else {}
  }

  /** Output `o` exists, was logged for this command, and is no older than what is watched, which exists. */
  ghost predicate CalmOutput(t: Tools, x: Command, d: Disk, o: Path)
  {
    && o in d.files && o in d.log && d.log[o] == t.hash(x)
    && forall p :: p in Watched(t, x, d.deps, o) ==> p in d.files && d.files[p].mtime <= d.files[o].mtime
  }

  ghost predicate Calm(t: Tools, x: Command, d: Disk)
  {
    forall o :: o in t.outputs(x) ==> CalmOutput(t, x, d, o)
  }

  /** The outputs are those of a run on the present files, and the record of dependencies is backed. */
  ghost predicate UpToDate(t: Tools, x: Command, d: Disk)
  {
    && Consistent(t, x, ContentsOf(d.files))
    && (t.depTarget(x).Some? ==>
         t.depTarget(x).value in d.deps && Backed(t, x, d.deps[t.depTarget(x).value], ContentsOf(d.files)))
  }

  /** Whatever the builder would let pass, under this or any other manifest, is up to date. */
  ghost predicate Sound(t: Tools, d: Disk)
  {
    forall x: Command :: t.known(x) && t.outputs(x) != {} && Calm(t, x, d) ==> UpToDate(t, x, d)
  }

  // ------------------------------------------------------------------------------------------
  // The three checks of the builder together
  // ------------------------------------------------------------------------------------------

  /** An edge has no direct reason exactly when its command is calm. */
  lemma NotStaleIffCalm(w: World, d: Disk, e: EdgeId)
    requires Declared(w) && IsEdge(w.g, e)
    ensures !Stale(w, ViewOf(d), e) <==> Calm(w.tools, w.command[e], d)
  {
    hide Direct;
    if Calm(w.tools, w.command[e], d) {
      forall r
        ensures !Direct(w, ViewOf(d), e, r)
      {
        CalmHasNoReason(w, d, e, r);
      }
    } else {
      var o :| o in w.tools.outputs(w.command[e]) && !CalmOutput(w.tools, w.command[e], d, o);
      var r := AgitatedHasReason(w, d, e, o);
      assert Direct(w, ViewOf(d), e, r);
    }
  }

  lemma CalmHasNoReason(w: World, d: Disk, e: EdgeId, r: Reason)
    requires Declared(w) && IsEdge(w.g, e) && Calm(w.tools, w.command[e], d)
    ensures !Direct(w, ViewOf(d), e, r)
  {
    var x, inputs, outputs := w.command[e], w.g.edges[e].inputs, w.g.edges[e].outputs;
    assert forall p :: p in inputs <==> p in Elems(inputs);
    assert forall p :: p in outputs <==> p in Elems(outputs);
    assert outputs[0] in w.tools.outputs(x);
    match r
    case OutputMissing(o) => assert o in outputs ==> CalmOutput(w.tools, x, d, o);
    case InputMissing(i) => assert i in inputs ==> i in Watched(w.tools, x, d.deps, outputs[0]);
    case InputNewer(i, o) => assert i in inputs ==> i in Watched(w.tools, x, d.deps, o);
    case CommandChanged(o) => assert o in outputs ==> CalmOutput(w.tools, x, d, o);
    case DynamicMissing(p, o) => assert o in d.deps && p in d.deps[o] ==> p in Watched(w.tools, x, d.deps, o);
    case DynamicNewer(p, o) => assert o in d.deps && p in d.deps[o] ==> p in Watched(w.tools, x, d.deps, o);
    case UpstreamDirty(_) =>
  }

  lemma AgitatedHasReason(w: World, d: Disk, e: EdgeId, o: Path) returns (r: Reason)
    requires Declared(w) && IsEdge(w.g, e)
    requires o in w.tools.outputs(w.command[e]) && !CalmOutput(w.tools, w.command[e], d, o)
    ensures Direct(w, ViewOf(d), e, r)
  {
    var x, inputs, outputs := w.command[e], w.g.edges[e].inputs, w.g.edges[e].outputs;
    assert o in Elems(outputs);
    if o !in d.files {
      r := OutputMissing(o);
    } else if !(o in d.log && d.log[o] == w.tools.hash(x)) {
      r := CommandChanged(o);
    } else {
      var p :| p in Watched(w.tools, x, d.deps, o) && !(p in d.files && d.files[p].mtime <= d.files[o].mtime);
      if p in w.tools.inputs(x) {
        assert p in Elems(inputs);
        r := if p !in d.files then InputMissing(p) else InputNewer(p, o);
      } else {
        assert p !in Elems(inputs);
        r := if p !in d.files then DynamicMissing(p, o) else DynamicNewer(p, o);
      }
    }
  }

  // ------------------------------------------------------------------------------------------
  // A planned build and its outcome
  // ------------------------------------------------------------------------------------------

  /** What `Builder.Build` promises about its plan and the scope `C` it was made for. */
  ghost predicate Planned(w: World, d: Disk, C: set<EdgeId>, plan: seq<EdgeId>)
  {
    && ProducerClosed(w.g, C) && C <= AllEdges(w.g)
    && DirtySet(w, ViewOf(d), C, Elems(plan)) && NoDup(plan)
  }

  /** The scheduler returned true on this plan and left `d`. */
  ghost predicate Built(w: World, plan: seq<EdgeId>, jobs: nat, d0: Disk, d: Disk)
  {
    exists s :: Reachable(w, plan, jobs, d0, s) && s.main.Returned? && !s.sh.failed && s.disk == d
  }

  /** No hit can be stale, and all contents before and after belong to the history. */
  ghost predicate Reliable(t: Tools, d0: Disk, d: Disk)
  {
    NoStaleHits(t) && Occurring(t, ContentsOf(d0.files)) && Occurring(t, ContentsOf(d.files))
  }

  /** Everything that the following proofs use about a successful run. */
  ghost predicate Outcome(w: World, C: set<EdgeId>, P: set<EdgeId>, d0: Disk, d: Disk)
  {
    && Reliable(w.tools, d0, d) && Sealed(w.g, P, C)
    && OutsideKept(w, P, d0, d) && ClockAhead(d) && d0.clock <= d.clock
    && (forall e: EdgeId :: e in P ==> e < |w.command| && Fresh(w, P, d0.clock, d, e))
    && (forall e: EdgeId :: e in C && e !in P ==> e < |w.command| && Calm(w.tools, w.command[e], d0))
  }

  lemma PlannedIsSealed(w: World, d: Disk, C: set<EdgeId>, plan: seq<EdgeId>)
    requires Planned(w, d, C, plan)
    ensures Sealed(w.g, Elems(plan), C) && StaleIn(w, ViewOf(d), C) <= Elems(plan)
    ensures NoDup(plan) && Elems(plan) <= AllEdges(w.g)
  {
    hide Stale, Producers, Dependents;
  }

  lemma OutcomeOf(w: World, C: set<EdgeId>, plan: seq<EdgeId>, jobs: nat, d0: Disk, d: Disk)
    requires ValidWorld(w) && Planned(w, d0, C, plan) && jobs > 0 && ClockAhead(d0)
    requires NoStaleHits(w.tools) && Accountable(w.tools, d0)
    requires Built(w, plan, jobs, d0, d)
    ensures Outcome(w, C, Elems(plan), d0, d) && Accountable(w.tools, d)
  {
    PlannedIsSealed(w, d0, C, plan);
    hide Planned, Sealed, Fresh, OutsideKept, Reachable, Valid, Acyclic, Disciplined, Ordered, Calm, ClockAhead;
    hide NoStaleHits, Occurring, RecordsKnown, CacheOk;
    assert Runnable(w, plan, jobs);
    var s :| Reachable(w, plan, jobs, d0, s) && s.main.Returned? && !s.sh.failed && s.disk == d;
    StaysAccountable(w, plan, C, jobs, d0, s);
    assert Reliable(w.tools, d0, d);
    hide Reliable, Accountable;
    SuccessMakesFresh(w, plan, C, jobs, d0, s);
    OnlyPlannedOutputsChange(w, plan, C, jobs, d0, s);
    BystandersWereCalm(w, C, plan, d0);
  }

  /** What a successful run leaves whatever was cached: planned outputs are logged and stamped, records explained. */
  ghost predicate Traced(w: World, C: set<EdgeId>, P: set<EdgeId>, d0: Disk, d: Disk)
  {
    && Sealed(w.g, P, C) && OutsideKept(w, P, d0, d) && ClockAhead(d)
    && (forall e: EdgeId :: e in P ==> e < |w.command| && Stamped(w, P, d0.clock, d, e))
    && (forall e: EdgeId :: e in C && e !in P ==> e < |w.command| && Calm(w.tools, w.command[e], d0))
    && RecordsExplained(w, P, d0.deps, d.deps)
  }

  lemma BuildIsTraced(w: World, C: set<EdgeId>, plan: seq<EdgeId>, jobs: nat, d0: Disk, d: Disk)
    requires ValidWorld(w) && Planned(w, d0, C, plan) && jobs > 0 && ClockAhead(d0)
    requires Built(w, plan, jobs, d0, d)
    ensures Traced(w, C, Elems(plan), d0, d)
  {
    PlannedIsSealed(w, d0, C, plan);
    hide Planned, Sealed, Stamped, OutsideKept, Reachable, Valid, Acyclic, Disciplined, Ordered, ClockAhead,
        RecordsExplained, Calm;
    assert Runnable(w, plan, jobs);
    var s :| Reachable(w, plan, jobs, d0, s) && s.main.Returned? && !s.sh.failed && s.disk == d;
    SuccessIsLogged(w, plan, C, jobs, d0, s);
    OnlyPlannedOutputsChange(w, plan, C, jobs, d0, s);
    BystandersWereCalm(w, C, plan, d0);
  }

  lemma BystandersWereCalm(w: World, C: set<EdgeId>, plan: seq<EdgeId>, d0: Disk)
    requires Declared(w) && C <= AllEdges(w.g) && StaleIn(w, ViewOf(d0), C) <= Elems(plan)
    ensures forall e: EdgeId :: e in C && e !in Elems(plan) ==> e < |w.command| && Calm(w.tools, w.command[e], d0)
  {
    hide Stale, Calm;
    forall e: EdgeId | e in C && e !in Elems(plan)
      ensures e < |w.command| && Calm(w.tools, w.command[e], d0)
    {
      assert IsEdge(w.g, e);
      NotStaleIffCalm(w, d0, e);
    }
  }

  // ------------------------------------------------------------------------------------------
  // Edges of the scope that the plan leaves out
  // ------------------------------------------------------------------------------------------

  lemma NoPlannedAncestor(g: Graph, P: set<EdgeId>, C: set<EdgeId>, e: EdgeId, f: EdgeId)
    requires Valid(g) && Sealed(g, P, C) && e in C && e !in P && Ancestor(g, f, e)
    ensures f in C && f !in P
  {
    hide Producers, Dependents, Valid;
    var S := C - P;
    forall x, y | x in S && y in Producers(g, x)
      ensures y in S
    {
      if y in P {
        assert IsEdge(g, x) && IsEdge(g, y);
        DependencyViews(g, x, y);
      }
    }
    assert ProducerClosed(g, S) && Producers(g, e) <= S;
  }

  lemma ProducerIsAncestor(g: Graph, f: EdgeId, e: EdgeId)
    requires f in Producers(g, e)
    ensures Ancestor(g, f, e)
  {
  }

  lemma WrittenBy(w: World, P: set<EdgeId>, p: Path) returns (f: EdgeId)
    requires Valid(w.g) && Declared(w) && p in OutputsOf(w, P)
    ensures f in P && IsEdge(w.g, f) && ProducerOf(w.g, p) == Some(f) && p in w.tools.outputs(w.command[f])
  {
    f :| f in P && IsEdge(w.g, f) && p in w.g.edges[f].outputs;
    assert p in Elems(w.g.edges[f].outputs);
    assert EdgeLinked(w.g, f);
  }

  /** Nothing that an edge outside the plan may touch is written by the plan. */
  lemma BystanderFiles(w: World, C: set<EdgeId>, P: set<EdgeId>, e: EdgeId, c: Contents, p: Path)
    requires ValidWorld(w) && Sealed(w.g, P, C) && e in C && e !in P && e < |w.command|
    requires p in w.tools.inputs(w.command[e]) || p in w.tools.outputs(w.command[e]) ||
             p in w.tools.sees(w.command[e], c) || p in Discovered(w.tools, w.command[e], c)
    ensures p !in OutputsOf(w, P)
  {
    hide OutputsOf, Sealed, Discovered, Producers, Acyclic, Disciplined, Valid, Ancestor;
    if p in OutputsOf(w, P) {
      var f := WrittenBy(w, P, p);
      assert IsEdge(w.g, e);
      if p in w.tools.outputs(w.command[e]) {
        OutputsApart(w, e, f);
      } else {
        if p in w.tools.inputs(w.command[e]) {
          assert p in Elems(w.g.edges[e].inputs);
          ProducersIn(w.g, e, f);
          ProducerIsAncestor(w.g, f, e);
        } else if p in w.tools.sees(w.command[e], c) {
          ReadsAreOrdered(w, e, c, p);
        }
        NoPlannedAncestor(w.g, P, C, e, f);
      }
    }
  }

  /** The files on the record of a command. */
  function RecordOf(t: Tools, x: Command, d: Disk): set<Path>
  {
    if t.depTarget(x).Some? && t.depTarget(x).value in d.deps then Elems(d.deps[t.depTarget(x).value]) else {}
  }

  /** The record is what the command would report now. */
  ghost predicate Exact(t: Tools, x: Command, d: Disk)
  {
    t.depTarget(x).Some? ==>
      t.depTarget(x).value in d.deps && d.deps[t.depTarget(x).value] == t.deps(x, ContentsOf(d.files))
  }

  /** The files that being up to date relies on: what is read, or else what is on the record and may be read. */
  ghost function Relied(t: Tools, x: Command, d: Disk): set<Path>
  {
    t.outputs(x) + SeenOnRecord(t, x, d) + (if Exact(t, x, d) then t.sees(x, ContentsOf(d.files)) else {})
  }

  ghost function SeenOnRecord(t: Tools, x: Command, d: Disk): set<Path>
  {
    set p | p in RecordOf(t, x, d) && MaySee(t, x, p)
  }

  /** What relies on no planned output is as up to date as before. */
  lemma UnchangedStaysUpToDate(w: World, P: set<EdgeId>, d0: Disk, d: Disk, x: Command)
    requires Disciplined(w.tools) && Reliable(w.tools, d0, d)
    requires OutsideKept(w, P, d0, d) && UpToDate(w.tools, x, d0)
    requires forall p :: p in Relied(w.tools, x, d0) ==> p !in OutputsOf(w, P)
    ensures UpToDate(w.tools, x, d)
  {
    hide OutputsOf, UpToDate, Disciplined, RecordsKept, RecordOf, Exact, Reliable;
    forall p | p in Relied(w.tools, x, d0)
      ensures SameFile(d0.files, d.files, p) && SameRecord(d0.deps, d.deps, p)
    {
      assert SameAt(d0, d, p);
    }
    OutputsAreRelied(w.tools, x, d0);
    hide Relied;
    UpToDateTransfers(w.tools, x, d0, d);
  }

  lemma OutputsAreRelied(t: Tools, x: Command, d: Disk)
    ensures t.outputs(x) <= Relied(t, x, d)
  {
    hide RecordOf, Exact;
  }

  /** Being up to date depends on the files it relies on, and on one record. */
  lemma UpToDateTransfers(t: Tools, x: Command, d0: Disk, d: Disk)
    requires Disciplined(t) && Reliable(t, d0, d) && UpToDate(t, x, d0)
    requires forall p :: p in Relied(t, x, d0) ==> SameFile(d0.files, d.files, p)
    requires forall o :: o in t.outputs(x) ==> SameRecord(d0.deps, d.deps, o)
    ensures UpToDate(t, x, d)
  {
    hide Consistent, Reported, CollisionFree, OutputsOccur, Deterministic, Backed, Reliable, Relied;
    if Exact(t, x, d0) {
      ExactTransfers(t, x, d0, d);
    } else {
      var o := t.depTarget(x).value;
      assert o in t.outputs(x);
      DecidedTransfers(t, x, o, d0, d);
    }
  }

  lemma ExactTransfers(t: Tools, x: Command, d0: Disk, d: Disk)
    requires Disciplined(t) && UpToDate(t, x, d0) && Exact(t, x, d0)
    requires forall p :: p in Relied(t, x, d0) ==> SameFile(d0.files, d.files, p)
    requires forall o :: o in t.outputs(x) ==> SameRecord(d0.deps, d.deps, o)
    ensures UpToDate(t, x, d)
  {
    hide Consistent, Reported, CollisionFree, OutputsOccur, SeenOnRecord, StillBacked;
    var c, c' := ContentsOf(d0.files), ContentsOf(d.files);
    AgreeOnRelied(t, x, d0, d, t.sees(x, c) + t.outputs(x));
    ConsistentTransfers(t, x, c, c');
    assert Agree(c, c', t.sees(x, c));
    assert SameRun(t, x, c, c');
    assert t.depTarget(x).Some? ==> t.depTarget(x).value in t.outputs(x);
  }

  lemma DecidedTransfers(t: Tools, x: Command, o: Path, d0: Disk, d: Disk)
    requires Deterministic(t) && Reliable(t, d0, d)
    requires UpToDate(t, x, d0) && !Exact(t, x, d0) && t.depTarget(x) == Some(o)
    requires forall p :: p in Relied(t, x, d0) ==> SameFile(d0.files, d.files, p)
    requires SameRecord(d0.deps, d.deps, o)
    ensures UpToDate(t, x, d)
  {
    hide Consistent, Deterministic, NoStaleHits, Occurring, Vouched, ContentsOf, MaySee, SeenAlike;
    var c, c', record := ContentsOf(d0.files), ContentsOf(d.files), d0.deps[o];
    var q, b: Contents, k, content :| StillBacked(t, x, q, record, b, c, k, content);
    RecordAgrees(t, x, o, record, d0, d, b);
    assert StillBacked(t, x, q, record, b, c', k, content);
    VouchedIsTrue(t, x, q, record, b, c, k, content);
    VouchedIsTrue(t, x, q, record, b, c', k, content);
    OneOutputOf(t, x, q, record, b, k, content);
    AgreeOnRelied(t, x, d0, d, t.outputs(x));
    hide Relied, Backed, StillBacked;
    SameOutputStays(t, x, q, c, c');
  }

  lemma RecordAgrees(t: Tools, x: Command, o: Path, record: seq<Path>, d0: Disk, d: Disk, b: Contents)
    requires t.depTarget(x) == Some(o) && o in d0.deps && d0.deps[o] == record
    requires forall p :: p in Relied(t, x, d0) ==> SameFile(d0.files, d.files, p)
    requires SeenAlike(t, x, record, b, ContentsOf(d0.files))
    ensures SeenAlike(t, x, record, b, ContentsOf(d.files))
  {
    hide MaySee, Exact;
    forall p | p in record && MaySee(t, x, p)
      ensures SameThere(b, ContentsOf(d.files), p)
    {
      assert p in RecordOf(t, x, d0);
      assert p in Relied(t, x, d0);
    }
  }

  lemma OneOutputOf(t: Tools, x: Command, q: Path, record: seq<Path>, b: Contents, k: nat, content: Content)
    requires Vouched(t, x, q, record, b, k, content)
    ensures t.outputs(x) == {q}
  {
    hide Placeable, Occurring, RecordFor, KeyIs, Genuine;
  }

  lemma AgreeOnRelied(t: Tools, x: Command, d0: Disk, d: Disk, paths: set<Path>)
    requires paths <= Relied(t, x, d0)
    requires forall p :: p in Relied(t, x, d0) ==> SameFile(d0.files, d.files, p)
    ensures Agree(ContentsOf(d0.files), ContentsOf(d.files), paths)
  {
    hide Relied;
  }

  lemma SameOutputStays(t: Tools, x: Command, o: Path, c: Contents, d: Contents)
    requires t.outputs(x) == {o} && Consistent(t, x, c) && Agree(c, d, t.outputs(x))
    requires t.output(x, o, d) == t.output(x, o, c)
    ensures Consistent(t, x, d)
  {
    assert o in t.outputs(x);
  }

  lemma FreshIsUpToDate(w: World, P: set<EdgeId>, start: int, d: Disk, e: EdgeId)
    requires e < |w.command| && Fresh(w, P, start, d, e)
    ensures UpToDate(w.tools, w.command[e], d)
  {
  }

  lemma ConsistentStays(w: World, C: set<EdgeId>, P: set<EdgeId>, d0: Disk, d: Disk, e: EdgeId)
    requires ValidWorld(w) && Outcome(w, C, P, d0, d) && e in C && e !in P && e < |w.command|
    requires Consistent(w.tools, w.command[e], ContentsOf(d0.files))
    ensures Consistent(w.tools, w.command[e], ContentsOf(d.files))
  {
    var t, x, c, c' := w.tools, w.command[e], ContentsOf(d0.files), ContentsOf(d.files);
    hide Valid, Acyclic, Ordered, Declared, Sealed, Calm, Fresh, OutputsOf, Discovered, Consistent, RecordsKept,
        Reliable;
    forall p | p in t.sees(x, c) + t.outputs(x)
      ensures (p in c <==> p in c') && (p in c ==> c[p] == c'[p])
    {
      BystanderFiles(w, C, P, e, c, p);
      assert SameAt(d0, d, p);
    }
    ConsistentTransfers(t, x, c, c');
  }

  lemma ScopeIsConsistent(w: World, C: set<EdgeId>, P: set<EdgeId>, d0: Disk, d: Disk)
    requires ValidWorld(w) && Outcome(w, C, P, d0, d)
    requires forall e: EdgeId :: e in C && e !in P && e < |w.command| ==>
               Consistent(w.tools, w.command[e], ContentsOf(d0.files))
    ensures AllConsistent(w, C, ContentsOf(d.files))
  {
    hide ValidWorld, Outcome, Consistent, Recorded, TimesOk, ContentsOf;
    forall e | e in C && e < |w.command|
      ensures Consistent(w.tools, w.command[e], ContentsOf(d.files))
    {
      if e in P {
        PlannedIsFresh(w, C, P, d0, d, e);
      } else {
        ConsistentStays(w, C, P, d0, d, e);
      }
    }
  }

  /**
   The main theorem. Start anywhere where edges without a direct reason have the right outputs; plan for some
   targets, or for none; run the plan with any number of workers under any schedule. If the run succeeds, every
   edge of the scope has the right outputs, and the files are those that a full serial build of the scope makes
   out of the same sources, from whatever older outputs `clean` starts.
   */
  lemma IncrementalEqualsFull(w: World, C: set<EdgeId>, plan: seq<EdgeId>, jobs: nat, d0: Disk, d: Disk,
                              order: seq<EdgeId>, clean: Contents)
    requires ValidWorld(w) && Planned(w, d0, C, plan) && jobs > 0 && ClockAhead(d0)
    requires NoStaleHits(w.tools) && Accountable(w.tools, d0)
    requires forall e: EdgeId :: e in C && e < |w.command| && !Stale(w, ViewOf(d0), e) ==>
               Consistent(w.tools, w.command[e], ContentsOf(d0.files))
    requires Built(w, plan, jobs, d0, d)
    requires Topological(w.g, order) && Elems(order) == C
    requires SameElsewhere(w, C, clean, ContentsOf(d0.files))
    ensures forall i :: 0 <= i < |order| ==> order[i] < |w.command|
    ensures AllConsistent(w, C, ContentsOf(d.files))
    ensures ContentsOf(d.files) == SerialRun(w, order, clean)
  {
    var P := Elems(plan);
    OutcomeOf(w, C, plan, jobs, d0, d);
    PlannedIsSealed(w, d0, C, plan);
    hide ValidWorld, Planned, Built, Consistent, Stale, Topological, SameElsewhere, AllConsistent, Outcome,
        NoStaleHits, Accountable;
    forall e: EdgeId | e in C && e !in P && e < |w.command|
      ensures Consistent(w.tools, w.command[e], ContentsOf(d0.files))
    {
    }
    ScopeIsConsistent(w, C, P, d0, d);
    OutcomeKeepsSources(w, C, P, clean, d0, d);
    ClosedIsSealed(w, C);
    SerialRunIsTheOutcome(w, C, C, order, clean, ContentsOf(d.files));
  }

  lemma UpToDateIsConsistent(w: World, C: set<EdgeId>, d: Disk)
    requires forall e: EdgeId :: e in C ==> e < |w.command| && UpToDate(w.tools, w.command[e], d)
    ensures AllConsistent(w, C, ContentsOf(d.files))
  {
    hide Consistent;
  }

  lemma OutcomeKeepsSources(w: World, C: set<EdgeId>, P: set<EdgeId>, clean: Contents, d0: Disk, d: Disk)
    requires Outcome(w, C, P, d0, d) && SameElsewhere(w, C, clean, ContentsOf(d0.files))
    ensures SameElsewhere(w, C, clean, ContentsOf(d.files))
  {
    hide Fresh, Calm, ProducerClosed, ConsumerClosed, AllEdges, Reliable;
    assert OutputsOf(w, P) <= OutputsOf(w, C);
    hide OutputsOf;
  }

  lemma ClosedIsSealed(w: World, C: set<EdgeId>)
    requires ProducerClosed(w.g, C) && C <= AllEdges(w.g)
    ensures Sealed(w.g, C, C)
  {
  }

  // ------------------------------------------------------------------------------------------
  // Soundness over a successful run
  // ------------------------------------------------------------------------------------------

  /** Every file is older than this moment. */
  ghost predicate ClockPast(d: Disk)
  {
    forall p :: p in d.files ==> d.files[p].mtime < d.clock
  }

  lemma PlannedFilesAreNew(w: World, C: set<EdgeId>, P: set<EdgeId>, d0: Disk, d: Disk, p: Path)
    requires ValidWorld(w) && Outcome(w, C, P, d0, d) && p in OutputsOf(w, P)
    ensures p in d.files && d0.clock <= d.files[p].mtime
  {
    hide OutputsOf, Sealed, OutsideKept, Calm, TimesOk, Consistent, Reliable;
    var f := WrittenBy(w, P, p);
  }

  /** A command that is calm afterwards and is not one of the plan owns no planned output. */
  lemma OthersKeepTheirOutputs(w: World, C: set<EdgeId>, P: set<EdgeId>, d0: Disk, d: Disk, x: Command, o: Path)
    requires ValidWorld(w) && Outcome(w, C, P, d0, d) && Calm(w.tools, x, d) && o in w.tools.outputs(x)
    requires w.tools.known(x)
    requires forall e: EdgeId :: e in P && e < |w.command| ==> w.command[e] != x
    ensures o !in OutputsOf(w, P)
  {
    hide OutputsOf, Sealed, OutsideKept, TimesOk, Consistent, Reliable;
    if o in OutputsOf(w, P) {
      var f := WrittenBy(w, P, o);
    }
  }

  /** ... and was calm before, watching nothing that the plan wrote. */
  lemma OthersWereCalm(w: World, C: set<EdgeId>, P: set<EdgeId>, d0: Disk, d: Disk, x: Command, o: Path)
    requires ValidWorld(w) && Outcome(w, C, P, d0, d) && ClockPast(d0)
    requires CalmOutput(w.tools, x, d, o) && o !in OutputsOf(w, P)
    ensures CalmOutput(w.tools, x, d0, o)
    ensures Watched(w.tools, x, d0.deps, o) !! OutputsOf(w, P)
  {
    assert OutsideKept(w, P, d0, d) && d0.clock <= d.clock;
    hide OutputsOf, Outcome, Fresh, Calm, ValidWorld;
    forall p | p in Watched(w.tools, x, d.deps, o)
      ensures p !in OutputsOf(w, P)
    {
      if p in OutputsOf(w, P) {
        PlannedFilesAreNew(w, C, P, d0, d, p);
      }
    }
    assert Watched(w.tools, x, d.deps, o) == Watched(w.tools, x, d0.deps, o);
  }

  /** What being up to date relies on, beside the outputs, is watched through each, or one, of them. */
  lemma ReliedIsWatched(t: Tools, x: Command, d: Disk, p: Path)
    requires Disciplined(t) && t.outputs(x) != {}
    requires p in Relied(t, x, d) && p !in t.outputs(x)
    ensures exists o :: o in t.outputs(x) && p in Watched(t, x, d.deps, o)
  {
    hide Deterministic, CollisionFree, ContentsOf;
    var c := ContentsOf(d.files);
    if p in RecordOf(t, x, d) {
      assert p in Watched(t, x, d.deps, t.depTarget(x).value);
    } else {
      assert p !in SeenOnRecord(t, x, d);
      assert p in t.inputs(x) + Discovered(t, x, c);
      var o :| o in t.outputs(x);
      assert p in Watched(t, x, d.deps, o);
    }
  }

  /** A successful run keeps soundness, for the commands of every manifest. */
  lemma SuccessKeepsSound(w: World, C: set<EdgeId>, P: set<EdgeId>, d0: Disk, d: Disk)
    requires ValidWorld(w) && Outcome(w, C, P, d0, d) && ClockPast(d0) && Sound(w.tools, d0)
    ensures Sound(w.tools, d)
  {
    hide ValidWorld, Outcome, UpToDate, Calm, Fresh;
    forall x: Command | w.tools.known(x) && w.tools.outputs(x) != {} && Calm(w.tools, x, d)
      ensures UpToDate(w.tools, x, d)
    {
      if e: EdgeId :| e in P && e < |w.command| && w.command[e] == x {
        PlannedIsFresh(w, C, P, d0, d, e);
        FreshIsUpToDate(w, P, d0.clock, d, e);
      } else {
        OtherStaysUpToDate(w, C, P, d0, d, x);
      }
    }
  }

  lemma PlannedIsFresh(w: World, C: set<EdgeId>, P: set<EdgeId>, d0: Disk, d: Disk, e: EdgeId)
    requires Outcome(w, C, P, d0, d) && e in P
    ensures e < |w.command| && Fresh(w, P, d0.clock, d, e)
  {
  }

  lemma OtherStaysUpToDate(w: World, C: set<EdgeId>, P: set<EdgeId>, d0: Disk, d: Disk, x: Command)
    requires ValidWorld(w) && Outcome(w, C, P, d0, d) && ClockPast(d0) && Sound(w.tools, d0)
    requires w.tools.known(x) && w.tools.outputs(x) != {} && Calm(w.tools, x, d)
    requires forall e: EdgeId :: e in P && e < |w.command| ==> w.command[e] != x
    ensures UpToDate(w.tools, x, d)
  {
    var t := w.tools;
    hide UpToDate, OutputsOf, CalmOutput, ClockPast, Sealed, OutsideKept, Fresh, Watched, Valid, Acyclic, Ordered,
        Disciplined, Relied, Reliable;
    forall o | o in t.outputs(x)
      ensures o !in OutputsOf(w, P) && CalmOutput(t, x, d0, o) && Watched(t, x, d0.deps, o) !! OutputsOf(w, P)
    {
      OthersKeepTheirOutputs(w, C, P, d0, d, x, o);
      OthersWereCalm(w, C, P, d0, d, x, o);
    }
    assert Calm(t, x, d0);
    assert UpToDate(t, x, d0);
    forall p | p in Relied(t, x, d0)
      ensures p !in OutputsOf(w, P)
    {
      if p !in t.outputs(x) {
        ReliedIsWatched(t, x, d0, p);
      }
    }
    UnchangedStaysUpToDate(w, P, d0, d, x);
  }

  // ------------------------------------------------------------------------------------------
  // Building again
  // ------------------------------------------------------------------------------------------

  /** All sources that the scope names exist. */
  ghost predicate SourcesExist(w: World, C: set<EdgeId>, d: Disk)
  {
    forall e: EdgeId, p ::
      (e in C && IsEdge(w.g, e) && p in w.g.edges[e].inputs && ProducerOf(w.g, p).None?) ==> p in d.files
  }

  /** All sources on the records of the scope exist. */
  ghost predicate ReportedExist(w: World, C: set<EdgeId>, d: Disk)
  {
    forall e: EdgeId, p ::
      (e in C && e < |w.command| && p in RecordOf(w.tools, w.command[e], d) && ProducerOf(w.g, p).None?) ==>
        p in d.files
  }

  /** The record under `o` is one that a run of `x` itself leaves there. */
  ghost predicate OwnRecord(t: Tools, x: Command, o: Path, record: seq<Path>)
  {
    t.depTarget(x) == Some(o) && exists c: Contents :: record == t.deps(x, c)
  }

  /** `p` is on a record under output `o` of edge `e` that no run of its command leaves there (any more). */
  ghost predicate Leftover(w: World, d: Disk, e: EdgeId, o: Path, p: Path)
  {
    && e < |w.command| && o in w.tools.outputs(w.command[e]) && o in d.deps && p in d.deps[o]
    && !OwnRecord(w.tools, w.command[e], o, d.deps[o])
  }

  /** What leftover records name exists and is no younger than the output it is filed under. */
  ghost predicate LeftoversCalm(w: World, C: set<EdgeId>, d: Disk)
  {
    forall e: EdgeId, o, p :: e in C && Leftover(w, d, e, o, p) ==> NotNewer(d, o, p)
  }

  ghost predicate NotNewer(d: Disk, o: Path, p: Path)
  {
    p in d.files && o in d.files && d.files[p].mtime <= d.files[o].mtime
  }

  /** Leftover records obey the same order as live ones. */
  ghost predicate LeftoversOrdered(w: World, C: set<EdgeId>, d: Disk)
  {
    forall e: EdgeId, o, p ::
      (e in C && Leftover(w, d, e, o, p) && ProducerOf(w.g, p).Some?) ==> Ancestor(w.g, ProducerOf(w.g, p).value, e)
  }

  /** No leftover record names a source file that is gone. */
  ghost predicate LeftoversExist(w: World, C: set<EdgeId>, d: Disk)
  {
    forall e: EdgeId, o, p ::
      (e in C && Leftover(w, d, e, o, p) && ProducerOf(w.g, p).None?) ==> p in d.files
  }

  /** What `e` watches after the build comes from an ancestor or is a source that was there before. */
  ghost predicate WellWatched(w: World, C: set<EdgeId>, d0: Disk, e: EdgeId, p: Path)
  {
    if ProducerOf(w.g, p).Some? then ProducerOf(w.g, p).value in C && Ancestor(w.g, ProducerOf(w.g, p).value, e)
    else p in d0.files
  }

  lemma SourceIsNotPlanned(w: World, P: set<EdgeId>, p: Path)
    requires Valid(w.g) && Declared(w) && ProducerOf(w.g, p).None?
    ensures p !in OutputsOf(w, P)
  {
    if p in OutputsOf(w, P) {
      var f := WrittenBy(w, P, p);
    }
  }

  lemma PlannedIsStamped(w: World, C: set<EdgeId>, P: set<EdgeId>, d0: Disk, d: Disk, e: EdgeId)
    requires Traced(w, C, P, d0, d) && e in P
    ensures e < |w.command| && Stamped(w, P, d0.clock, d, e)
  {
  }

  lemma TracedKeepsOutside(w: World, C: set<EdgeId>, P: set<EdgeId>, d0: Disk, d: Disk)
    requires Traced(w, C, P, d0, d)
    ensures Sealed(w.g, P, C) && OutsideKept(w, P, d0, d)
  {
  }

  /** A source is as it was before. */
  lemma SourceStays(w: World, C: set<EdgeId>, P: set<EdgeId>, d0: Disk, d: Disk, p: Path)
    requires ValidWorld(w) && Traced(w, C, P, d0, d) && ProducerOf(w.g, p).None?
    ensures SameAt(d0, d, p)
  {
    TracedKeepsOutside(w, C, P, d0, d);
    hide Traced, Sealed, Valid, Acyclic, Disciplined, Ordered, Declared, OutputsOf, SameAt, RecordsKept;
    SourceIsNotPlanned(w, P, p);
  }

  /** A file that `e` watches and that exists after the build is no younger than the outputs of `e`. */
  lemma WatchedIsOlder(w: World, C: set<EdgeId>, P: set<EdgeId>, d0: Disk, d: Disk, e: EdgeId, o: Path, p: Path)
    requires ValidWorld(w) && Traced(w, C, P, d0, d) && ClockAhead(d0)
    requires e in P && e < |w.command| && o in w.tools.outputs(w.command[e])
    requires WellWatched(w, C, d0, e, p) && p in d.files
    ensures NotNewer(d, o, p)
  {
    PlannedIsStamped(w, C, P, d0, d, e);
    if p in OutputsOf(w, P) {
      hide OutputsOf, Traced, Acyclic, Ordered, Disciplined, Ancestor, Logged;
      var f := WrittenBy(w, P, p);
      assert NoYounger(w, d.files, f, e);
    } else {
      TracedKeepsOutside(w, C, P, d0, d);
      hide OutputsOf, Traced, ValidWorld, RecordsKept, Logged, TimesOk;
      assert SameAt(d0, d, p);
    }
  }

  lemma AncestorInScope(g: Graph, C: set<EdgeId>, f: EdgeId, e: EdgeId)
    requires ProducerClosed(g, C) && e in C && Ancestor(g, f, e)
    ensures f in C
  {
    hide Producers;
  }

  lemma DeclaredInputIsWell(w: World, C: set<EdgeId>, d0: Disk, e: EdgeId, p: Path)
    requires IsEdge(w.g, e) && e in C && p in w.g.edges[e].inputs
    requires ProducerClosed(w.g, C) && SourcesExist(w, C, d0)
    ensures WellWatched(w, C, d0, e, p)
  {
    if ProducerOf(w.g, p).Some? {
      ProducersIn(w.g, e, ProducerOf(w.g, p).value);
      hide Producers;
      ProducerIsAncestor(w.g, ProducerOf(w.g, p).value, e);
      AncestorInScope(w.g, C, ProducerOf(w.g, p).value, e);
    }
  }

  /** What a record of the command itself names comes from an ancestor or is a source. */
  lemma ReportedIsWell(w: World, C: set<EdgeId>, P: set<EdgeId>, d0: Disk, d: Disk, e: EdgeId, o: Path, p: Path)
    requires ValidWorld(w) && Traced(w, C, P, d0, d) && ReportedExist(w, C, d)
    requires ProducerClosed(w.g, C) && e in C && IsEdge(w.g, e)
    requires o in d.deps && OwnRecord(w.tools, w.command[e], o, d.deps[o]) && p in d.deps[o]
    ensures WellWatched(w, C, d0, e, p)
  {
    hide Traced, Acyclic, Disciplined, Valid, Producers, ProducerClosed;
    assert p in RecordOf(w.tools, w.command[e], d);
    if ProducerOf(w.g, p).Some? {
      var c: Contents :| d.deps[o] == w.tools.deps(w.command[e], c);
      assert p in Discovered(w.tools, w.command[e], c);
      AncestorInScope(w.g, C, ProducerOf(w.g, p).value, e);
    } else {
      SourceStays(w, C, P, d0, d, p);
    }
  }

  /** What is generated within the scope exists afterwards. */
  lemma GeneratedExists(w: World, C: set<EdgeId>, P: set<EdgeId>, d0: Disk, d: Disk, f: EdgeId, p: Path)
    requires ValidWorld(w) && Traced(w, C, P, d0, d) && f in C && ProducerOf(w.g, p) == Some(f)
    ensures p in d.files
  {
    GeneratedIsOutput(w, C, P, d0, d, f, p);
    hide ValidWorld;
    if f in P {
      PlannedIsStamped(w, C, P, d0, d, f);
      hide Traced, Logged, TimesOk;
    } else {
      BystanderOutput(w, C, P, d0, d, f, p);
      hide Traced, Watched;
    }
  }

  lemma GeneratedIsOutput(w: World, C: set<EdgeId>, P: set<EdgeId>, d0: Disk, d: Disk, f: EdgeId, p: Path)
    requires ValidWorld(w) && Traced(w, C, P, d0, d) && f in C && ProducerOf(w.g, p) == Some(f)
    ensures f < |w.command| && p in w.tools.outputs(w.command[f])
  {
    assert C <= AllEdges(w.g);
    hide Traced, Acyclic, Ordered, Disciplined;
    assert IsEdge(w.g, f);
    assert NodeLinked(w.g, p);
    assert p in Elems(w.g.edges[f].outputs);
  }

  /** What is well watched exists after the build. */
  lemma WellWatchedExists(w: World, C: set<EdgeId>, P: set<EdgeId>, d0: Disk, d: Disk, e: EdgeId, p: Path)
    requires ValidWorld(w) && Traced(w, C, P, d0, d) && WellWatched(w, C, d0, e, p)
    ensures p in d.files
  {
    hide ValidWorld, Traced, Ancestor;
    if ProducerOf(w.g, p).Some? {
      GeneratedExists(w, C, P, d0, d, ProducerOf(w.g, p).value, p);
    } else {
      SourceStays(w, C, P, d0, d, p);
    }
  }

  lemma WellWatchedByBystander(w: World, C: set<EdgeId>, P: set<EdgeId>, d0: Disk, e: EdgeId, p: Path)
    requires ValidWorld(w) && Sealed(w.g, P, C) && e in C && e !in P && WellWatched(w, C, d0, e, p)
    ensures p !in OutputsOf(w, P)
  {
    hide OutputsOf, Sealed, Valid, Ancestor, Acyclic, Disciplined, Ordered;
    if ProducerOf(w.g, p).Some? {
      NoPlannedAncestor(w.g, P, C, e, ProducerOf(w.g, p).value);
      if p in OutputsOf(w, P) {
        var f := WrittenBy(w, P, p);
      }
    } else {
      SourceIsNotPlanned(w, P, p);
    }
  }

  lemma BystanderOutput(w: World, C: set<EdgeId>, P: set<EdgeId>, d0: Disk, d: Disk, e: EdgeId, o: Path)
    requires ValidWorld(w) && Traced(w, C, P, d0, d)
    requires e in C && e !in P && e < |w.command| && o in w.tools.outputs(w.command[e])
    ensures SameAt(d0, d, o) && CalmOutput(w.tools, w.command[e], d0, o)
  {
    hide OutputsOf, Stamped, Sealed, RecordsKept, RecordsExplained, ValidWorld;
    BystanderFiles(w, C, P, e, ContentsOf(d.files), o);
  }

  lemma OutputIsLogged(w: World, C: set<EdgeId>, P: set<EdgeId>, d0: Disk, d: Disk, e: EdgeId, o: Path)
    requires ValidWorld(w) && Traced(w, C, P, d0, d)
    requires e in C && e < |w.command| && o in w.tools.outputs(w.command[e])
    ensures o in d.files && o in d.log && d.log[o] == w.tools.hash(w.command[e])
  {
    hide ValidWorld;
    if e in P {
      PlannedIsStamped(w, C, P, d0, d, e);
      hide Traced, TimesOk;
    } else {
      BystanderOutput(w, C, P, d0, d, e, o);
      hide Traced, Watched;
    }
  }

  /** What is well watched exists and is no younger than the output. */
  lemma WellWatchedIsCalm(w: World, C: set<EdgeId>, P: set<EdgeId>, d0: Disk, d: Disk, e: EdgeId, o: Path, p: Path)
    requires ValidWorld(w) && Traced(w, C, P, d0, d) && ClockAhead(d0)
    requires e in C && e < |w.command| && o in w.tools.outputs(w.command[e])
    requires WellWatched(w, C, d0, e, p) && p in Watched(w.tools, w.command[e], d.deps, o)
    ensures NotNewer(d, o, p)
  {
    hide ValidWorld, WellWatched, ClockAhead;
    WellWatchedExists(w, C, P, d0, d, e, p);
    if e in P {
      hide Traced;
      WatchedIsOlder(w, C, P, d0, d, e, o, p);
    } else {
      BystanderOutput(w, C, P, d0, d, e, o);
      TracedKeepsOutside(w, C, P, d0, d);
      hide Traced, Sealed, RecordsKept, OutputsOf;
      WellWatchedByBystander(w, C, P, d0, e, p);
      assert SameAt(d0, d, p);
    }
  }

  /** The three ways a file comes to be watched for output `o` of `e`. */
  lemma WatchedIsCalm(w: World, C: set<EdgeId>, P: set<EdgeId>, d0: Disk, d: Disk, e: EdgeId, o: Path, p: Path)
    requires ValidWorld(w) && C <= AllEdges(w.g) && ProducerClosed(w.g, C) && Traced(w, C, P, d0, d) && ClockAhead(d0)
    requires SourcesExist(w, C, d0) && ReportedExist(w, C, d) && LeftoversCalm(w, C, d)
    requires e in C && e < |w.command| && o in w.tools.outputs(w.command[e])
    requires p in Watched(w.tools, w.command[e], d.deps, o)
    ensures NotNewer(d, o, p)
  {
    DeclaredOf(w);
    InputsAreDeclared(w, C, e, p);
    hide ValidWorld, Traced, Declared, ClockAhead, SourcesExist, ReportedExist, ProducerClosed, WellWatched,
        OwnRecord, AllEdges;
    if p in w.tools.inputs(w.command[e]) {
      DeclaredInputIsWell(w, C, d0, e, p);
      WellWatchedIsCalm(w, C, P, d0, d, e, o, p);
    } else if OwnRecord(w.tools, w.command[e], o, d.deps[o]) {
      ReportedIsWell(w, C, P, d0, d, e, o, p);
      WellWatchedIsCalm(w, C, P, d0, d, e, o, p);
    } else {
      assert Leftover(w, d, e, o, p);
    }
  }

  lemma InputsAreDeclared(w: World, C: set<EdgeId>, e: EdgeId, p: Path)
    requires Declared(w) && e in C && C <= AllEdges(w.g)
    ensures IsEdge(w.g, e) && (p in w.tools.inputs(w.command[e]) ==> p in w.g.edges[e].inputs)
  {
    assert IsEdge(w.g, e);
    assert p in Elems(w.g.edges[e].inputs) ==> p in w.g.edges[e].inputs;
  }

  lemma EverythingIsCalm(w: World, C: set<EdgeId>, P: set<EdgeId>, d0: Disk, d: Disk, e: EdgeId)
    requires ValidWorld(w) && C <= AllEdges(w.g) && ProducerClosed(w.g, C) && Traced(w, C, P, d0, d) && ClockAhead(d0)
    requires SourcesExist(w, C, d0) && ReportedExist(w, C, d) && LeftoversCalm(w, C, d)
    requires e in C && e < |w.command|
    ensures Calm(w.tools, w.command[e], d)
  {
    hide Traced, ValidWorld, Watched, SourcesExist, LeftoversCalm, ReportedExist, ProducerClosed, ClockAhead;
    forall o | o in w.tools.outputs(w.command[e])
      ensures CalmOutput(w.tools, w.command[e], d, o)
    {
      OutputIsLogged(w, C, P, d0, d, e, o);
      forall p | p in Watched(w.tools, w.command[e], d.deps, o)
        ensures NotNewer(d, o, p)
      {
        WatchedIsCalm(w, C, P, d0, d, e, o, p);
      }
    }
  }

  lemma CalmSeesSource(w: World, P: set<EdgeId>, d0: Disk, d: Disk, x: Command, o: Path, p: Path)
    requires Valid(w.g) && Declared(w) && OutsideKept(w, P, d0, d) && Calm(w.tools, x, d)
    requires o in w.tools.outputs(x) && p in Watched(w.tools, x, d.deps, o)
    ensures p in d.files && (ProducerOf(w.g, p).None? ==> p in d0.files)
  {
    hide Watched, OutputsOf, RecordsKept, Valid, Declared;
    assert CalmOutput(w.tools, x, d, o);
    if ProducerOf(w.g, p).None? {
      SourceIsNotPlanned(w, P, p);
      assert SameAt(d0, d, p);
    }
  }

  /** Where every command is calm after a build, no source is missing, and leftover records are calm. */
  lemma CalmScopeMissesNothing(w: World, C: set<EdgeId>, P: set<EdgeId>, d0: Disk, d: Disk)
    requires ValidWorld(w) && Traced(w, C, P, d0, d)
    requires forall e: EdgeId :: e in C ==> e < |w.command| && Calm(w.tools, w.command[e], d)
    ensures SourcesExist(w, C, d0) && ReportedExist(w, C, d) && LeftoversCalm(w, C, d)
  {
    hide Calm, ProducerOf, Traced, ValidWorld, RecordOf, Leftover;
    forall e: EdgeId, p | e in C && IsEdge(w.g, e) && p in w.g.edges[e].inputs && ProducerOf(w.g, p).None?
      ensures p in d0.files
    {
      DeclaredIsThere(w, C, P, d0, d, e, p);
    }
    forall e: EdgeId, p | e in C && e < |w.command| && ProducerOf(w.g, p).None? &&
                          p in RecordOf(w.tools, w.command[e], d)
      ensures p in d.files
    {
      ReportedIsThere(w, C, P, d0, d, e, p);
    }
    forall e: EdgeId, o, p | e in C && Leftover(w, d, e, o, p)
      ensures NotNewer(d, o, p)
    {
      LeftoverIsCalm(w, d, e, o, p);
    }
  }

  lemma DeclaredIsThere(w: World, C: set<EdgeId>, P: set<EdgeId>, d0: Disk, d: Disk, e: EdgeId, p: Path)
    requires ValidWorld(w) && Traced(w, C, P, d0, d) && IsEdge(w.g, e) && e in C && e < |w.command|
    requires Calm(w.tools, w.command[e], d) && p in w.g.edges[e].inputs && ProducerOf(w.g, p).None?
    ensures p in d0.files
  {
    var o := w.g.edges[e].outputs[0];
    assert o in Elems(w.g.edges[e].outputs) && p in Elems(w.g.edges[e].inputs);
    TracedKeepsOutside(w, C, P, d0, d);
    hide Traced, Calm, Acyclic, Disciplined, Ordered, Valid, OutsideKept;
    CalmSeesSource(w, P, d0, d, w.command[e], o, p);
  }

  lemma ReportedIsThere(w: World, C: set<EdgeId>, P: set<EdgeId>, d0: Disk, d: Disk, e: EdgeId, p: Path)
    requires ValidWorld(w) && Traced(w, C, P, d0, d) && e in C && e < |w.command|
    requires Calm(w.tools, w.command[e], d) && p in RecordOf(w.tools, w.command[e], d)
    ensures p in d.files
  {
    TracedKeepsOutside(w, C, P, d0, d);
    hide Traced, Calm, Acyclic, Ordered, Valid, OutsideKept, Declared, Deterministic, Reported, CollisionFree,
        OutputsOccur;
    var o := w.tools.depTarget(w.command[e]).value;
    CalmSeesSource(w, P, d0, d, w.command[e], o, p);
  }

  lemma LeftoverIsCalm(w: World, d: Disk, e: EdgeId, o: Path, p: Path)
    requires Leftover(w, d, e, o, p) && Calm(w.tools, w.command[e], d)
    ensures NotNewer(d, o, p)
  {
    hide OwnRecord;
    assert CalmOutput(w.tools, w.command[e], d, o);
    assert p in Watched(w.tools, w.command[e], d.deps, o);
  }

  /**
   Building again after a success, whatever the directory and the cache held before. The builder finds nothing to do
   exactly when no source is gone that the manifest or the record of an edge names, and what leftover records name
   exists and is no younger than their outputs.
   */
  lemma NoOpRebuild(w: World, C: set<EdgeId>, plan: seq<EdgeId>, jobs: nat, d0: Disk, d: Disk)
    requires ValidWorld(w) && Planned(w, d0, C, plan) && jobs > 0 && ClockAhead(d0) && Built(w, plan, jobs, d0, d)
    ensures DirtySet(w, ViewOf(d), C, {}) <==>
            SourcesExist(w, C, d0) && ReportedExist(w, C, d) && LeftoversCalm(w, C, d)
  {
    var P := Elems(plan);
    BuildIsTraced(w, C, plan, jobs, d0, d);
    ScopeOf(w, d0, C, plan);
    DeclaredOf(w);
    hide Planned, ValidWorld, Built, Traced, Calm, ReportedExist, SourcesExist, DirtySet, LeftoversCalm, ClockAhead,
        ProducerClosed, Declared;
    if SourcesExist(w, C, d0) && ReportedExist(w, C, d) && LeftoversCalm(w, C, d) {
      forall e | e in C
        ensures e < |w.command| && Calm(w.tools, w.command[e], d)
      {
        EverythingIsCalm(w, C, P, d0, d, e);
      }
    } else if forall e: EdgeId :: e in C ==> e < |w.command| && Calm(w.tools, w.command[e], d) {
      CalmScopeMissesNothing(w, C, P, d0, d);
    }
    NothingDirtyIffCalm(w, C, d);
  }

  lemma ScopeOf(w: World, d0: Disk, C: set<EdgeId>, plan: seq<EdgeId>)
    requires Declared(w) && Planned(w, d0, C, plan)
    ensures C <= AllEdges(w.g) && ProducerClosed(w.g, C) && forall e: EdgeId :: e in C ==> e < |w.command|
  {
    hide DirtySet, ProducerClosed;
    forall e: EdgeId | e in C
      ensures e < |w.command|
    {
      assert IsEdge(w.g, e);
    }
  }

  /** Where leftover records name no generated file but of ancestors, nothing but a source that is gone can matter. */
  lemma NoOpRebuildOrdered(w: World, C: set<EdgeId>, plan: seq<EdgeId>, jobs: nat, d0: Disk, d: Disk)
    requires ValidWorld(w) && Planned(w, d0, C, plan) && jobs > 0 && ClockAhead(d0) && Built(w, plan, jobs, d0, d)
    requires LeftoversOrdered(w, C, d)
    ensures DirtySet(w, ViewOf(d), C, {}) <==>
            SourcesExist(w, C, d0) && ReportedExist(w, C, d) && LeftoversExist(w, C, d)
  {
    NoOpRebuild(w, C, plan, jobs, d0, d);
    BuildIsTraced(w, C, plan, jobs, d0, d);
    ScopeOf(w, d0, C, plan);
    hide Planned, ValidWorld, Built, Traced, ReportedExist, SourcesExist, DirtySet, ClockAhead, ProducerClosed,
        Leftover;
    if LeftoversExist(w, C, d) {
      forall e: EdgeId, o, p | e in C && Leftover(w, d, e, o, p)
        ensures NotNewer(d, o, p)
      {
        OrderedLeftover(w, C, Elems(plan), d0, d, e, o, p);
      }
    } else {
      assert !LeftoversCalm(w, C, d);
    }
  }

  lemma OrderedLeftover(w: World, C: set<EdgeId>, P: set<EdgeId>, d0: Disk, d: Disk, e: EdgeId, o: Path, p: Path)
    requires ValidWorld(w) && C <= AllEdges(w.g) && ProducerClosed(w.g, C) && Traced(w, C, P, d0, d) && ClockAhead(d0)
    requires e in C && Leftover(w, d, e, o, p)
    requires if ProducerOf(w.g, p).Some? then Ancestor(w.g, ProducerOf(w.g, p).value, e) else p in d.files
    ensures NotNewer(d, o, p)
  {
    assert p in Watched(w.tools, w.command[e], d.deps, o);
    hide Traced, ClockAhead, ProducerClosed, ValidWorld, OwnRecord, Ancestor;
    if ProducerOf(w.g, p).Some? {
      AncestorInScope(w.g, C, ProducerOf(w.g, p).value, e);
    } else {
      SourceStays(w, C, P, d0, d, p);
    }
    WellWatchedIsCalm(w, C, P, d0, d, e, o, p);
  }

  lemma DeclaredOf(w: World)
    requires ValidWorld(w)
    ensures Declared(w)
  {
  }

  lemma NothingDirtyIffCalm(w: World, C: set<EdgeId>, d: Disk)
    requires Declared(w) && C <= AllEdges(w.g)
    ensures DirtySet(w, ViewOf(d), C, {}) <==> forall e: EdgeId :: e in C ==>
        e < |w.command| && Calm(w.tools, w.command[e], d)
  {
    hide Stale, Calm;
    forall e | e in C
      ensures IsEdge(w.g, e) && (!Stale(w, ViewOf(d), e) <==> Calm(w.tools, w.command[e], d))
    {
      assert IsEdge(w.g, e);
      NotStaleIffCalm(w, d, e);
    }
    var stale := StaleIn(w, ViewOf(d), C);
    assert forall e: EdgeId :: e in stale <==> e in C && !Calm(w.tools, w.command[e], d);
    assert DirtySet(w, ViewOf(d), C, {}) <==> stale == {};
  }

  /** The record of an output changes only if it is its own edge's depfile target. */
  lemma RecordOfOutput(w: World, C: set<EdgeId>, P: set<EdgeId>, d0: Disk, d: Disk, e: EdgeId, o: Path)
    requires ValidWorld(w) && C <= AllEdges(w.g) && Traced(w, C, P, d0, d)
    requires e in C && e < |w.command| && o in w.tools.outputs(w.command[e])
    ensures w.tools.depTarget(w.command[e]) == Some(o) || SameRecord(d0.deps, d.deps, o)
  {
    hide OutputsOf, Acyclic, Valid, Ordered, Deterministic, Reported, CollisionFree, OutputsOccur, RecordsExplained,
        Stamped, Calm;
    if w.tools.depTarget(w.command[e]) != Some(o) {
      forall f: EdgeId | f in P && f < |w.command|
        ensures w.tools.depTarget(w.command[f]) != Some(o)
      {
        if f != e {
          OutputsApart(w, e, f);
        }
      }
      assert NotATarget(w, P, o);
    }
  }

  /** A record that its edge does not replace, and that names a missing source, keeps the edge stale for ever. */
  lemma MissingLeftoverStays(w: World, C: set<EdgeId>, P: set<EdgeId>, d0: Disk, d: Disk, e: EdgeId, o: Path, p: Path)
    requires ValidWorld(w) && C <= AllEdges(w.g) && Traced(w, C, P, d0, d)
    requires e in C && Leftover(w, d0, e, o, p) && w.tools.depTarget(w.command[e]) != Some(o)
    requires ProducerOf(w.g, p).None? && p !in d0.files
    ensures !Calm(w.tools, w.command[e], d)
    ensures Leftover(w, d, e, o, p) && p !in d.files
  {
    RecordOfOutput(w, C, P, d0, d, e, o);
    SourceIsNotPlanned(w, P, p);
    assert SameAt(d0, d, p);
    hide Traced, ValidWorld;
    assert p in Watched(w.tools, w.command[e], d.deps, o) && p !in d.files;
    assert !CalmOutput(w.tools, w.command[e], d, o);
  }
}
