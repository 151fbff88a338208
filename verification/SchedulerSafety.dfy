/**
 The scheduler's invariant holds in every state of every run, and what follows from it: each planned edge is
 in one place, counters count, no edge is picked early or twice, nothing starts after a failure.
 */
module SchedulerSafety {
  import opened Prelude
  import opened Graphs
  import opened Planner
  import opened Scheduler
  import opened World
  import opened CachedEdges
  import opened SchedulerSteps

  lemma InitInv(w: World, plan: seq<EdgeId>, jobs: nat, disk: Disk, s: Sys)
    requires Runnable(w, plan, jobs) && Init(w, plan, jobs, disk, s)
    ensures Inv(w, plan, s)
  {
    InitBooks(w, plan, jobs, disk, s);
    assert !s.sh.stopping && !s.sh.failed;
    hide Started, Books, Runnable, Control;
    InitControl(s);
  }

  lemma InitControl(s: Sys)
    requires s.main == Spawning(0) && forall i :: 0 <= i < |s.workers| ==> s.workers[i].NotStarted?
    requires !s.sh.stopping && !s.sh.failed && s.lost == {}
    ensures Control(s)
  {
    hide WorkersOwed, MainOwed, Decision;
  }

  lemma InitBooks(w: World, plan: seq<EdgeId>, jobs: nat, disk: Disk, s: Sys)
    requires Runnable(w, plan, jobs) && Init(w, plan, jobs, disk, s)
    ensures Books(NeedMap(w.g, Elems(plan)), s)
  {
    hide Places, Lists, Indegrees, Free, Valid, AllEdges, NoDup, NeedMap;
    var need := NeedMap(w.g, Elems(plan));
    assert Held(s.workers) == {} && Distinct(s.workers);
    hide Held, Distinct;
    InitPlaces(need, s.sh.ready);
    NeedKeys(w.g, Elems(plan));
    NoDupSize(plan);
    ListsNothing<EdgeId>();
    assert Counters(|need.Keys|, s.sh, {}, {}, {});
    assert {} + s.done + s.lost == {};
  }

  lemma InitPlaces(need: map<EdgeId, set<EdgeId>>, ready: seq<EdgeId>)
    requires Lists(ready, Free(need, need.Keys, {}))
    ensures Places(need, ready, {}, {}, {})
  {
    forall e | e in need
      ensures e in Elems(ready) <==> need[e] <= {}
    {
      ListsIn(ready, Free(need, need.Keys, {}), e);
    }
  }

  // ------------------------------------------------------------------------------------------
  // Steps and the edges
  // ------------------------------------------------------------------------------------------

  /** Steps that move no edge keep the books. */
  lemma BooksUntouched(need: map<EdgeId, set<EdgeId>>, s: Sys, s': Sys)
    requires Books(need, s)
    requires |s.workers| == |s'.workers|
    requires forall i :: 0 <= i < |s.workers| ==> EdgeOf(s.workers[i]) == EdgeOf(s'.workers[i])
    requires s'.sh == s.sh.(stopping := s'.sh.stopping, failed := s'.sh.failed)
    requires s'.done == s.done && s'.lost == s.lost && s'.picks == s.picks
    ensures Books(need, s')
  {
    SameEdgesHeld(s.workers, s'.workers);
  }

  lemma CountersPick(total: int, sh: Shared, held: set<EdgeId>, done: set<EdgeId>, lost: set<EdgeId>, e: EdgeId)
    requires Counters(total, sh, held, done, lost) && e !in held && sh.ready != []
    ensures Counters(total, Picked(sh), held + {e}, done, lost)
  {
    assert |held + {e}| == |held| + 1;
  }

  lemma CountersFlag(total: int, sh: Shared, held: set<EdgeId>, done: set<EdgeId>, lost: set<EdgeId>, e: EdgeId)
    requires Counters(total, sh, held, done, lost) && e in held && e !in lost
    ensures Counters(total, FailedState(sh), held - {e}, done, lost + {e})
  {
    assert |held - {e}| == |held| - 1;
    assert |lost + {e}| == |lost| + 1;
  }

  lemma CountersFinish(total: int, g: Graph, sh: Shared, sh': Shared,
                       held: set<EdgeId>, done: set<EdgeId>, lost: set<EdgeId>, e: EdgeId)
    requires Counters(total, sh, held, done, lost) && e in held && e !in done && FinishedBy(g, e, sh, sh')
    ensures Counters(total, sh', held - {e}, done + {e}, lost)
  {
    assert |held - {e}| == |held| - 1;
    assert |done + {e}| == |done| + 1;
  }

  lemma HeldPlace(need: map<EdgeId, set<EdgeId>>, ready: seq<EdgeId>, held: set<EdgeId>,
                  done: set<EdgeId>, lost: set<EdgeId>, e: EdgeId)
    requires Places(need, ready, held, done, lost) && e in held
    ensures e in need && e !in done && e !in lost
  {
  }

  lemma Moved(held: set<EdgeId>, done: set<EdgeId>, lost: set<EdgeId>, e: EdgeId)
    requires e in held
    ensures (held - {e}) + done + (lost + {e}) == held + done + lost
    ensures (held - {e}) + (done + {e}) + lost == held + done + lost
  {
  }

  lemma QueueGrows(g: Graph, e: EdgeId, sh: Shared, sh': Shared)
    requires FinishedBy(g, e, sh, sh')
    ensures |sh.ready| <= |sh'.ready| && sh'.ready == sh.ready + sh'.ready[|sh.ready|..]
  {
  }

  /** The ledger of one edge changing hands, apart from the workers that hold edges. */
  ghost predicate Ledger(need: map<EdgeId, set<EdgeId>>, sh: Shared, held: set<EdgeId>,
                         done: set<EdgeId>, lost: set<EdgeId>, picks: seq<EdgeId>)
  {
    && Places(need, sh.ready, held, done, lost)
    && Indegrees(need, done, sh.indegree)
    && Counters(|need.Keys|, sh, held, done, lost)
    && Lists(picks, held + done + lost)
  }

  lemma LedgerPick(need: map<EdgeId, set<EdgeId>>, sh: Shared, held: set<EdgeId>,
                   done: set<EdgeId>, lost: set<EdgeId>, picks: seq<EdgeId>)
    requires Ledger(need, sh, held, done, lost, picks) && sh.ready != []
    ensures sh.ready[0] !in held
    ensures Ledger(need, Picked(sh), held + {sh.ready[0]}, done, lost, picks + [sh.ready[0]])
  {
    hide Places, Lists, Indegrees, Counters;
    var e := sh.ready[0];
    PlacesPick(need, sh.ready, held, done, lost);
    ListsAppend(picks, held + done + lost, e);
    CountersPick(|need.Keys|, sh, held, done, lost, e);
    Joined(held, done, lost, e);
  }

  lemma Joined(held: set<EdgeId>, done: set<EdgeId>, lost: set<EdgeId>, e: EdgeId)
    ensures (held + {e}) + done + lost == (held + done + lost) + {e}
  {
  }

  lemma LedgerFlag(need: map<EdgeId, set<EdgeId>>, sh: Shared, held: set<EdgeId>,
                   done: set<EdgeId>, lost: set<EdgeId>, picks: seq<EdgeId>, e: EdgeId)
    requires Ledger(need, sh, held, done, lost, picks) && e in held
    ensures Ledger(need, FailedState(sh), held - {e}, done, lost + {e}, picks)
  {
    hide Places, Lists, Indegrees, Counters;
    HeldPlace(need, sh.ready, held, done, lost, e);
    PlacesLose(need, sh.ready, held, done, lost, e);
    CountersFlag(|need.Keys|, sh, held, done, lost, e);
    Moved(held, done, lost, e);
  }

  lemma BooksPick(need: map<EdgeId, set<EdgeId>>, s: Sys, i: nat, s': Sys)
    requires Books(need, s) && LoopStep(s, i, s') && Decision(s.sh).Pick?
    ensures Books(need, s')
  {
    hide Held, Places, Lists, Indegrees, Distinct, Counters;
    LedgerPick(need, s.sh, Held(s.workers), s.done, s.lost, s.picks);
    GrabHeld(s.workers, i, Holding(s.sh.ready[0]), s.sh.ready[0]);
  }

  lemma BooksFlag(need: map<EdgeId, set<EdgeId>>, s: Sys, i: nat, s': Sys)
    requires Books(need, s) && FlagStep(s, i, s')
    ensures Books(need, s')
  {
    hide Held, Lists, Indegrees, Distinct, Counters, Places;
    DropHeld(s.workers, i, FailWorkers, At(s, i).edge);
    LedgerFlag(need, s.sh, Held(s.workers), s.done, s.lost, s.picks, At(s, i).edge);
  }

  lemma BooksFinish(g: Graph, P: set<EdgeId>, s: Sys, i: nat, s': Sys)
    requires Valid(g) && P <= AllEdges(g)
    requires Books(NeedMap(g, P), s) && FinishStep(g, s, i, s')
    ensures Books(NeedMap(g, P), s')
  {
    hide Held, Lists, Distinct, Valid, Free, AllEdges, Counters, Places, Indegrees, Consumers, FinishedBy, NeedMap;
    var need, e := NeedMap(g, P), At(s, i).edge;
    DropHeld(s.workers, i, Announcing, e);
    HeldPlace(need, s.sh.ready, Held(s.workers), s.done, s.lost, e);
    FinishRelation(g, P, s, e, s'.sh);
    BooksFinished(need, g, s, i, s');
  }

  lemma BooksFinished(need: map<EdgeId, set<EdgeId>>, g: Graph, s: Sys, i: nat, s': Sys)
    requires Books(need, s) && FinishStep(g, s, i, s') && |s.sh.ready| <= |s'.sh.ready|
    requires Indegrees(need, s.done + {At(s, i).edge}, s'.sh.indegree)
    requires Lists(s'.sh.ready[|s.sh.ready|..],
                   Free(need, Consumers(need, need.Keys, At(s, i).edge), s.done + {At(s, i).edge}))
    ensures Books(need, s')
  {
    hide Held, Lists, Distinct, Free, Counters, Places, Indegrees, Consumers, FinishedBy;
    var e, held := At(s, i).edge, Held(s.workers);
    DropHeld(s.workers, i, Announcing, e);
    HeldPlace(need, s.sh.ready, held, s.done, s.lost, e);
    QueueGrows(g, e, s.sh, s'.sh);
    PlacesFinish(need, s.sh.ready, held, s.done, s.lost, e, s'.sh.ready[|s.sh.ready|..]);
    CountersFinish(|need.Keys|, g, s.sh, s'.sh, held, s.done, s.lost, e);
    Moved(held, s.done, s.lost, e);
  }

  lemma DegreeKeys(need: map<EdgeId, set<EdgeId>>, done: set<EdgeId>, indegree: map<EdgeId, int>)
    requires Indegrees(need, done, indegree)
    ensures indegree.Keys == need.Keys
  {
  }

  /** `finish_edge` in terms of the plan: indegrees count one producer less, and exactly the freed edges join. */
  lemma FinishRelation(g: Graph, P: set<EdgeId>, s: Sys, e: EdgeId, sh': Shared)
    requires Valid(g) && P <= AllEdges(g) && e in NeedMap(g, P) && e !in s.done
    requires Indegrees(NeedMap(g, P), s.done, s.sh.indegree) && FinishedBy(g, e, s.sh, sh')
    ensures |s.sh.ready| <= |sh'.ready|
    ensures Indegrees(NeedMap(g, P), s.done + {e}, sh'.indegree)
    ensures Lists(sh'.ready[|s.sh.ready|..],
                  Free(NeedMap(g, P), Consumers(NeedMap(g, P), NeedMap(g, P).Keys, e), s.done + {e}))
  {
    var need := NeedMap(g, P);
    hide Lists, Valid, Zeroed, Free, Dependents, Producers, AllEdges, Indegrees, Consumers, Decremented;
    assert need.Keys == P;
    DegreeKeys(need, s.done, s.sh.indegree);
    ReleasedAreConsumers(g, P, e);
    hide NeedMap;
    DegreesFinish(need, s.done, e, s.sh.indegree, sh'.indegree);
  }

  lemma BooksStep(w: World, P: set<EdgeId>, s: Sys, step: Step, s': Sys)
    requires Valid(w.g) && P <= AllEdges(w.g)
    requires Books(NeedMap(w.g, P), s) && Next(w, s, step, s') && Control(s)
    ensures Books(NeedMap(w.g, P), s')
  {
    hide Books, FailEffect, EdgeSucceeds, Valid, AllEdges, FinishedBy, Control, Picked, FailedState, NeedMap;
    match step
    case Loop(i) =>
      if Decision(s.sh).Pick? {
        BooksPick(NeedMap(w.g, P), s, i, s');
      } else {
        BooksUntouched(NeedMap(w.g, P), s, s');
      }
    case Finish(i) => BooksFinish(w.g, P, s, i, s');
    case Flag(i) => BooksFlag(NeedMap(w.g, P), s, i, s');
    case Main => BooksMain(NeedMap(w.g, P), s, s');
    case _ => BooksUntouched(NeedMap(w.g, P), s, s');
  }

  lemma BooksMain(need: map<EdgeId, set<EdgeId>>, s: Sys, s': Sys)
    requires Books(need, s) && MainEnabled(s) && s' == MainMove(s) && Control(s)
    ensures Books(need, s')
  {
    hide Books;
    BooksUntouched(need, s, s');
  }

  // ------------------------------------------------------------------------------------------
  // Steps and the threads
  // ------------------------------------------------------------------------------------------

  /** Program counters that owe no notification. */
  predicate Quiet(pc: Pc)
  {
    pc.Looping? || pc.Asleep? || pc.Holding? || pc.Running? || pc.Ran? || pc.Exited?
  }

  /** Worker `i` moves; flags, counters of the main predicate and all other threads stay. */
  ghost predicate OneMoves(s: Sys, i: nat, s': Sys)
  {
    && i < |s.workers| && |s'.workers| == |s.workers|
    && (forall j :: 0 <= j < |s.workers| && j != i ==> s'.workers[j] == s.workers[j])
    && s'.main == s.main && s'.lost == s.lost
    && s'.sh.stopping == s.sh.stopping && s'.sh.failed == s.sh.failed
    && s'.sh.total == s.sh.total && s'.sh.completed == s.sh.completed
  }

  lemma ControlOne(s: Sys, i: nat, s': Sys)
    requires Control(s) && OneMoves(s, i, s') && Quiet(s.workers[i]) && Quiet(s'.workers[i])
    requires s.workers[i].Exited? ==> s'.workers[i].Exited?
    requires s'.workers[i].Exited? ==> s.sh.stopping
    requires s'.workers[i].Asleep? ==> Decision(s'.sh).Sleep?
    requires Decision(s.sh).Sleep? ==> Decision(s'.sh).Sleep?
    ensures Control(s')
  {
    OwedStays(s, i, s');
    if j :| 0 <= j < |s'.workers| && s'.workers[j].Asleep? && j != i {
      assert s.workers[j].Asleep?;
    }
  }

  lemma OwedStays(s: Sys, i: nat, s': Sys)
    requires OneMoves(s, i, s') && Quiet(s.workers[i])
    ensures WorkersOwed(s) ==> WorkersOwed(s')
    ensures MainOwed(s) ==> MainOwed(s')
  {
    if j :| 0 <= j < |s.workers| && (s.workers[j].Announcing? || s.workers[j].FailWorkers?) {
      assert s'.workers[j] == s.workers[j];
    }
    if j :| 0 <= j < |s.workers| && OwesFailure(s.workers[j]) {
      assert s'.workers[j] == s.workers[j];
    }
  }

  lemma ControlWorker(w: World, s: Sys, step: Step, s': Sys)
    requires Control(s) && Next(w, s, step, s')
    requires step.Loop? || step.Read? || step.Succeed? || step.Fail? || step.WorkerWakes?
    ensures Control(s')
  {
    hide FailEffect, EdgeSucceeds, NoLostWakeup, MainPlace;
    ControlOne(s, step.i, s');
  }

  lemma ControlFinish(w: World, s: Sys, i: nat, s': Sys)
    requires Control(s) && Next(w, s, Finish(i), s') && s.sh.completed != s.sh.total
    ensures Control(s')
  {
    assert s'.workers[i].Announcing?;
    assert WorkersOwed(s');
    assert s'.sh.failed == s.sh.failed && s'.sh.stopping == s.sh.stopping && s'.sh.total == s.sh.total;
    hide FinishedBy;
  }

  /** After `condition_.notify_all()` no worker sleeps. */
  lemma NobodySleeps(ws: seq<Pc>)
    ensures |Wake(ws)| == |ws|
    ensures forall i :: 0 <= i < |ws| ==> Wake(ws)[i] == Roused(ws[i]) && !Wake(ws)[i].Asleep?
  {
  }

  lemma ControlAnnounce(w: World, s: Sys, i: nat, s': Sys)
    requires Control(s) && Next(w, s, Announce(i), s')
    ensures Control(s')
  {
    NobodySleeps(s.workers);
    if j :| 0 <= j < |s.workers| && OwesFailure(s.workers[j]) {
      assert OwesFailure(s'.workers[j]);
    }
  }

  lemma ControlFlag(w: World, s: Sys, i: nat, s': Sys)
    requires Control(s) && Next(w, s, Flag(i), s')
    ensures Control(s')
  {
    assert s'.workers[i].FailWorkers?;
    assert At(s, i).edge in s'.lost;
  }

  lemma ControlNotify(w: World, s: Sys, step: Step, s': Sys)
    requires Control(s) && Next(w, s, step, s')
    requires step.NotifyWorkers? || step.NotifyMain?
    ensures Control(s')
  {
    if step.NotifyWorkers? {
      NobodySleeps(s.workers);
      assert s'.workers[step.i].FailMain?;
    } else {
      if j :| 0 <= j < |s.workers| && (s.workers[j].Announcing? || s.workers[j].FailWorkers?) {
        assert s'.workers[j] == s.workers[j];
      }
      if j :| 0 <= j < |s.workers| && s'.workers[j].Asleep? {
        assert s.workers[j].Asleep?;
      }
    }
  }

  lemma ControlMain(w: World, s: Sys, s': Sys)
    requires Control(s) && MainEnabled(s) && s' == MainMove(s)
    ensures Control(s')
  {
    if s.main.Opening? || s.main.ClosingNotify? {
      ControlMainWakes(s);
    } else if s.main.Spawning? && s.main.next < |s.workers| {
      ControlSpawns(s);
    } else {
      assert s'.workers == s.workers;
      assert WorkersOwed(s) ==> WorkersOwed(s');
    }
  }

  lemma ControlMainWakes(s: Sys)
    requires Control(s) && (s.main.Opening? || s.main.ClosingNotify?)
    ensures Control(MainMove(s))
  {
    NobodySleeps(s.workers);
  }

  lemma ControlSpawns(s: Sys)
    requires Control(s) && s.main.Spawning? && s.main.next < |s.workers|
    ensures Control(MainMove(s))
  {
    var s' := MainMove(s);
    if j :| 0 <= j < |s.workers| && (s.workers[j].Announcing? || s.workers[j].FailWorkers?) {
      assert s'.workers[j] == s.workers[j];
    }
    if j :| 0 <= j < |s'.workers| && s'.workers[j].Asleep? {
      assert s.workers[j].Asleep?;
    }
  }

  lemma ControlStep(need: map<EdgeId, set<EdgeId>>, w: World, s: Sys, step: Step, s': Sys)
    requires Books(need, s) && Control(s) && Next(w, s, step, s')
    ensures Control(s')
  {
    hide Books, Control, FailEffect, EdgeSucceeds, FinishedBy, Decision, Wake;
    match step
    case Finish(i) =>
      NotComplete(need, s, i);
      ControlFinish(w, s, i, s');
    case Announce(i) => ControlAnnounce(w, s, i, s');
    case Flag(i) => ControlFlag(w, s, i, s');
    case NotifyWorkers(i) => ControlNotify(w, s, step, s');
    case NotifyMain(i) => ControlNotify(w, s, step, s');
    case Main => ControlMain(w, s, s');
    case MainWakes => ControlMainWoken(s);
    case _ => ControlWorker(w, s, step, s');
  }

  lemma ControlMainWoken(s: Sys)
    requires Control(s) && s.main.Sleeping?
    ensures Control(s.(main := Waiting))
  {
    assert WorkersOwed(s) ==> WorkersOwed(s.(main := Waiting));
  }

  lemma NotComplete(need: map<EdgeId, set<EdgeId>>, s: Sys, i: nat)
    requires Books(need, s) && At(s, i).Ran?
    ensures s.sh.completed != s.sh.total
  {
    hide Indegrees, Lists, Distinct;
    CompleteMeansAllDone(need, s);
    assert EdgeOf(s.workers[i]) == Some(At(s, i).edge);
    assert At(s, i).edge in Held(s.workers);
  }

  /** Once the completed counter reaches the total, every planned edge is done and no worker holds one. */
  lemma CompleteMeansAllDone(need: map<EdgeId, set<EdgeId>>, s: Sys)
    requires Books(need, s)
    ensures s.sh.completed == s.sh.total <==> s.done == need.Keys
    ensures s.sh.completed == s.sh.total ==> Held(s.workers) == {} && s.lost == {} && s.sh.ready == []
  {
    hide Held, Indegrees, Lists, Distinct;
    SubsetSize(s.done, need.Keys);
    if s.sh.ready != [] {
      assert s.sh.ready[0] in Elems(s.sh.ready);
    }
  }

  lemma InvStep(w: World, plan: seq<EdgeId>, s: Sys, step: Step, s': Sys)
    requires Valid(w.g) && Elems(plan) <= AllEdges(w.g)
    requires Inv(w, plan, s) && Next(w, s, step, s')
    ensures Inv(w, plan, s')
  {
    hide Books, Control, Next, NeedMap, Valid, AllEdges;
    BooksStep(w, Elems(plan), s, step, s');
    ControlStep(NeedMap(w.g, Elems(plan)), w, s, step, s');
  }

  /** The invariant holds in every state that any run can reach. */
  lemma {:induction false} AlwaysInv(w: World, plan: seq<EdgeId>, jobs: nat, disk: Disk, run: seq<Sys>,
      steps: seq<Step>, k: nat)
    requires Runnable(w, plan, jobs) && IsRun(w, plan, jobs, disk, run, steps) && k < |run|
    ensures Inv(w, plan, run[k]) && |run[k].workers| == jobs
  {
    if k == 0 {
      InitInv(w, plan, jobs, disk, run[0]);
    } else {
      AlwaysInv(w, plan, jobs, disk, run, steps, k - 1);
      assert Next(w, run[k - 1], steps[k - 1], run[k]);
      InvStep(w, plan, run[k - 1], steps[k - 1], run[k]);
      SameCrew(w, run[k - 1], steps[k - 1], run[k]);
    }
  }

  lemma ReachableInv(w: World, plan: seq<EdgeId>, jobs: nat, disk: Disk, s: Sys)
    requires Runnable(w, plan, jobs) && Reachable(w, plan, jobs, disk, s)
    ensures Inv(w, plan, s) && |s.workers| == jobs
  {
    hide Inv, Runnable, Next, Init;
    var run, steps :| IsRun(w, plan, jobs, disk, run, steps) && run[|steps|] == s;
    AlwaysInv(w, plan, jobs, disk, run, steps, |steps|);
  }

  lemma SameCrew(w: World, s: Sys, step: Step, s': Sys)
    requires Next(w, s, step, s')
    ensures |s'.workers| == |s.workers|
  {
  }
}
