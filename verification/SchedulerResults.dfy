/**
 What the scheduler promises over whole runs: the places and counters of every edge, the order of picks, the
 meaning of the return value, and what a failure stops.
 */
module SchedulerResults {
  import opened Prelude
  import opened Graphs
  import opened Planner
  import opened Scheduler
  import opened World
  import opened CachedEdges
  import opened SchedulerSteps
  import opened SchedulerSafety

  datatype Place = Waits | Ready | InHand | Done | Lost

  ghost predicate IsAt(s: Sys, e: EdgeId, place: Place)
  {
    match place
    case Waits => e !in s.sh.ready && e !in Held(s.workers) && e !in s.done && e !in s.lost
    case Ready => e in s.sh.ready
    case InHand => e in Held(s.workers)
    case Done => e in s.done
    case Lost => e in s.lost
  }

  /** In-plan ancestors: the members of every set closed under in-plan producers that holds those of `e`. */
  ghost predicate PlanAncestor(need: map<EdgeId, set<EdgeId>>, f: EdgeId, e: EdgeId)
    requires e in need
  {
    forall S: set<EdgeId> :: NeedClosed(need, S) && need[e] <= S ==> f in S
  }

  ghost predicate NeedClosed(need: map<EdgeId, set<EdgeId>>, S: set<EdgeId>)
  {
    forall e :: e in S && e in need ==> need[e] <= S
  }

  lemma OnePlace(need: map<EdgeId, set<EdgeId>>, s: Sys, e: EdgeId)
    requires Books(need, s) && e in need
    ensures ExactlyOnePlace(s, e)
    ensures DegreeCounts(need[e], s, e)
  {
    hide Held, Distinct, Counters, Lists, NoDup, Pending;
    assert e in Elems(s.sh.ready) <==> e in s.sh.ready;
    var place := if e in s.sh.ready then Ready else if e in Held(s.workers) then InHand
                 else if e in s.done then Done else if e in s.lost then Lost else Waits;
    assert IsAt(s, e, place);
  }

  lemma CountersCount(need: map<EdgeId, set<EdgeId>>, s: Sys, e: EdgeId)
    requires Books(need, s) && e in need
    ensures CountersAgree(s, |need.Keys|)
  {
    hide Held, Distinct, Lists, NoDup, Pending;
    SubsetSize(s.done, need.Keys);
  }

  ghost predicate ExactlyOnePlace(s: Sys, e: EdgeId)
  {
    && (exists place :: IsAt(s, e, place))
    && (forall place, other :: IsAt(s, e, place) && IsAt(s, e, other) ==> other == place)
  }

  /** `needed` are the in-plan producers of `e`: `e` waits, and its indegree is positive, while one is not done. */
  ghost predicate DegreeCounts(needed: set<EdgeId>, s: Sys, e: EdgeId)
  {
    && (IsAt(s, e, Waits) <==> !(needed <= s.done))
    && e in s.sh.indegree && s.sh.indegree[e] == Pending(needed, s.done)
  }

  ghost predicate CountersAgree(s: Sys, total: int)
  {
    && s.sh.running == |Held(s.workers)| + |s.lost|
    && 0 <= s.sh.completed == |s.done| <= s.sh.total == total
  }

  /** In every reachable state each planned edge is in exactly one place, and the counters count places. */
  lemma EveryEdgeHasOnePlace(w: World, plan: seq<EdgeId>, jobs: nat, disk: Disk, s: Sys, e: EdgeId)
    requires Runnable(w, plan, jobs) && Reachable(w, plan, jobs, disk, s) && e in plan
    ensures ExactlyOnePlace(s, e)
    ensures DegreeCounts(Producers(w.g, e) * Elems(plan), s, e)
    ensures CountersAgree(s, |plan|)
  {
    hide Producers, Valid, Control, Books, Reachable, ExactlyOnePlace, DegreeCounts, CountersAgree;
    ReachableInv(w, plan, jobs, disk, s);
    NoDupSize(plan);
    var need := NeedMap(w.g, Elems(plan));
    assert e in need && need[e] == Producers(w.g, e) * Elems(plan) && need.Keys == Elems(plan);
    OnePlace(need, s, e);
    CountersCount(need, s, e);
  }

  /** Nobody sleeps through a change: a sleeper whose wait predicate holds is owed a notification. */
  lemma NoWakeupIsLost(w: World, plan: seq<EdgeId>, jobs: nat, disk: Disk, s: Sys)
    requires Runnable(w, plan, jobs) && Reachable(w, plan, jobs, disk, s)
    ensures NoLostWakeup(s)
  {
    hide Reachable, Runnable, Books, Flags, MainPlace, NoLostWakeup;
    ReachableInv(w, plan, jobs, disk, s);
  }

  /**
   In every reachable state the predicate of the main thread's wait holds exactly when an edge was lost to a failure
   or every planned edge is done.
   */
  lemma MainWaitsForTheEnd(w: World, plan: seq<EdgeId>, jobs: nat, disk: Disk, s: Sys)
    requires Runnable(w, plan, jobs) && Reachable(w, plan, jobs, disk, s)
    ensures MainDone(s.sh) <==> s.lost != {} || s.done == Elems(plan)
  {
    hide Reachable, Runnable, Books, NoLostWakeup, MainPlace, NeedMap;
    ReachableInv(w, plan, jobs, disk, s);
    CompleteMeansAllDone(NeedMap(w.g, Elems(plan)), s);
    NeedKeys(w.g, Elems(plan));
  }

  /** Edges are picked at most once, and only after all their in-plan producers went through `finish_edge`. */
  lemma PicksAreJustified(w: World, plan: seq<EdgeId>, jobs: nat, disk: Disk, s: Sys)
    requires Runnable(w, plan, jobs) && Reachable(w, plan, jobs, disk, s)
    ensures NoDup(s.picks) && Elems(s.picks) <= Elems(plan)
    ensures forall e :: e in s.picks ==> Producers(w.g, e) * Elems(plan) <= s.done
  {
    hide Producers, Control, Distinct, Held, Reachable, Runnable, Indegrees;
    ReachableInv(w, plan, jobs, disk, s);
    var need := NeedMap(w.g, Elems(plan));
    forall e | e in s.picks
      ensures e in need && need[e] <= s.done
    {
      ListsIn(s.picks, Held(s.workers) + s.done + s.lost, e);
    }
  }

  /**
   First in, first out: what was picked followed by what is ready only grows at its end. Of two edges in the queue the
   one in front is picked first, and nothing that becomes ready later overtakes them.
   */
  lemma {:induction false} FirstReadyFirstPicked(w: World, run: seq<Sys>, steps: seq<Step>, j: nat, k: nat)
    requires |run| == |steps| + 1 && j <= k < |run|
    requires forall i :: 0 <= i < |steps| ==> Next(w, run[i], steps[i], run[i + 1])
    ensures run[j].picks + run[j].sh.ready <= run[k].picks + run[k].sh.ready && run[j].picks <= run[k].picks
    decreases k
  {
    hide Next;
    if j < k {
      FirstReadyFirstPicked(w, run, steps, j, k - 1);
      assert Next(w, run[k - 1], steps[k - 1], run[k]);
      QueueStep(w, run[k - 1], steps[k - 1], run[k]);
    }
  }

  lemma QueueStep(w: World, s: Sys, step: Step, s': Sys)
    requires Next(w, s, step, s')
    ensures s.picks + s.sh.ready <= s'.picks + s'.sh.ready && s.picks <= s'.picks
  {
    hide FailEffect, EdgeSucceeds, Wake, MainEnabled, Decremented, Lists, Released, Zeroed;
    if step.Loop? && Decision(s.sh).Pick? {
      assert s'.picks + s'.sh.ready == s.picks + ([s.sh.ready[0]] + s.sh.ready[1..]);
    } else if step.Finish? {
      QueueExtends(s.sh.ready, s'.sh.ready);
    }
  }

  lemma QueueExtends(ready: seq<EdgeId>, ready': seq<EdgeId>)
    requires |ready| <= |ready'| && ready'[..|ready|] == ready
    ensures forall before: seq<EdgeId> :: before + ready <= before + ready'
  {
  }

  ghost predicate PickOrder(need: map<EdgeId, set<EdgeId>>, picks: seq<EdgeId>)
  {
    forall k :: 0 <= k < |picks| ==> picks[k] in need && need[picks[k]] <= Elems(picks[..k])
  }

  /** Whatever the interleaving, edges are picked in an order that puts producers first. */
  lemma {:induction false} PicksFollowTheGraph(w: World, plan: seq<EdgeId>, jobs: nat, disk: Disk,
                                               run: seq<Sys>, steps: seq<Step>, k: nat)
    requires Runnable(w, plan, jobs) && IsRun(w, plan, jobs, disk, run, steps) && k < |run|
    ensures PickOrder(NeedMap(w.g, Elems(plan)), run[k].picks)
  {
    hide Books, Control, NeedMap, Valid, Next;
    if k > 0 {
      PicksFollowTheGraph(w, plan, jobs, disk, run, steps, k - 1);
      AlwaysInv(w, plan, jobs, disk, run, steps, k - 1);
      assert Next(w, run[k - 1], steps[k - 1], run[k]);
      PickOrderStep(NeedMap(w.g, Elems(plan)), w, run[k - 1], steps[k - 1], run[k]);
    }
  }

  lemma PickOrderStep(need: map<EdgeId, set<EdgeId>>, w: World, s: Sys, step: Step, s': Sys)
    requires Books(need, s) && Next(w, s, step, s') && PickOrder(need, s.picks)
    ensures PickOrder(need, s'.picks)
  {
    hide FailEffect, EdgeSucceeds, FinishedBy, Wake, Books, MainEnabled;
    if step.Loop? && Decision(s.sh).Pick? {
      FrontIsFree(need, s);
      hide Books, Next;
      PickOrderGrows(need, s.picks, s.sh.ready[0]);
    } else {
      assert s'.picks == s.picks;
    }
  }

  lemma FrontIsFree(need: map<EdgeId, set<EdgeId>>, s: Sys)
    requires Books(need, s) && s.sh.ready != []
    ensures s.sh.ready[0] in need && need[s.sh.ready[0]] <= Elems(s.picks)
  {
    hide Held, Distinct, Indegrees, Counters, NoDup;
    assert s.sh.ready[0] in Elems(s.sh.ready);
  }

  lemma PickOrderGrows(need: map<EdgeId, set<EdgeId>>, picks: seq<EdgeId>, e: EdgeId)
    requires PickOrder(need, picks) && e in need && need[e] <= Elems(picks)
    ensures PickOrder(need, picks + [e])
  {
    var longer := picks + [e];
    forall k | 0 <= k < |longer|
      ensures longer[k] in need && need[longer[k]] <= Elems(longer[..k])
    {
      assert longer[..k] == picks[..k];
      assert picks[..|picks|] == picks;
    }
  }

  /**
   `run` returns true exactly when every planned edge executed successfully, each exactly once; all threads
   have ended by then. The order of execution was a topological order of the plan.
   */
  lemma ReturnValue(w: World, plan: seq<EdgeId>, jobs: nat, disk: Disk, s: Sys)
    requires Runnable(w, plan, jobs) && Reachable(w, plan, jobs, disk, s) && s.main.Returned?
    ensures !s.sh.failed <==> s.done == Elems(plan)
    ensures !s.sh.failed ==> Topological(w.g, s.picks) && multiset(s.picks) == multiset(plan) && s.lost == {}
    ensures Held(s.workers) == {} && forall i :: 0 <= i < |s.workers| ==> s.workers[i].Exited?
  {
    hide Inv, Next, Init, PickOrder, NeedMap;
    var run, steps :| IsRun(w, plan, jobs, disk, run, steps) && run[|steps|] == s;
    AlwaysInv(w, plan, jobs, disk, run, steps, |steps|);
    PicksFollowTheGraph(w, plan, jobs, disk, run, steps, |steps|);
    ReturnedState(w, plan, s);
  }

  lemma ReturnedState(w: World, plan: seq<EdgeId>, s: Sys)
    requires NoDup(plan) && Elems(plan) <= AllEdges(w.g)
    requires Inv(w, plan, s) && PickOrder(NeedMap(w.g, Elems(plan)), s.picks) && s.main.Returned?
    ensures !s.sh.failed <==> s.done == Elems(plan)
    ensures !s.sh.failed ==> Topological(w.g, s.picks) && multiset(s.picks) == multiset(plan) && s.lost == {}
    ensures Held(s.workers) == {} && forall i :: 0 <= i < |s.workers| ==> s.workers[i].Exited?
  {
    hide NeedMap, AllEdges, Producers, Topological, NoDup, Places, Indegrees, Distinct, PickOrder, NoLostWakeup;
    var need := NeedMap(w.g, Elems(plan));
    AllGoneHoldNothing(s.workers);
    hide Held;
    CompleteMeansAllDone(need, s);
    NeedKeys(w.g, Elems(plan));
    if !s.sh.failed {
      assert Held(s.workers) + s.done + s.lost == Elems(plan);
      PickOrderIsTopological(w.g, plan, s.picks);
    } else {
      LostIsNotDone(need, s);
    }
  }

  lemma AllGoneHoldNothing(ws: seq<Pc>)
    ensures (forall i :: 0 <= i < |ws| ==> ws[i].Exited?) ==> Held(ws) == {}
  {
  }

  lemma LostIsNotDone(need: map<EdgeId, set<EdgeId>>, s: Sys)
    requires Books(need, s) && s.lost != {}
    ensures s.done != need.Keys
  {
    hide Held, Distinct, Indegrees, Counters, NoDup, Lists;
    var f :| f in s.lost;
    assert f in need && f !in s.done;
  }

  lemma PickOrderIsTopological(g: Graph, plan: seq<EdgeId>, picks: seq<EdgeId>)
    requires NoDup(plan) && Elems(plan) <= AllEdges(g)
    requires Lists(picks, Elems(plan)) && PickOrder(NeedMap(g, Elems(plan)), picks)
    ensures Topological(g, picks) && multiset(picks) == multiset(plan)
  {
    hide Producers;
    var need := NeedMap(g, Elems(plan));
    NoDupPermutation(picks, plan);
    forall i | 0 <= i < |picks|
      ensures picks[i] in Elems(plan)
    {
      assert picks[i] in Elems(picks);
    }
    forall i, j | 0 <= i <= j < |picks|
      ensures picks[j] !in Producers(g, picks[i])
    {
      assert picks[j] !in Elems(picks[..i]);
      assert picks[j] !in need[picks[i]];
    }
  }

  /** A run can only return true on an acyclic plan. */
  lemma SuccessNeedsAcyclicPlan(w: World, plan: seq<EdgeId>, jobs: nat, disk: Disk, s: Sys)
    requires Runnable(w, plan, jobs) && Reachable(w, plan, jobs, disk, s) && s.main.Returned? && !s.sh.failed
    ensures Acyclic(w.g, Elems(plan))
  {
    hide Reachable, Held, Topological, Runnable;
    ReturnValue(w, plan, jobs, disk, s);
    TopologicalIsAcyclic(w.g, s.picks);
    PermutationElems(s.picks, plan);
  }

  /** After a failure was flagged nothing more is picked, whatever late finishers push on the queue. */
  lemma {:induction false} NothingStartsAfterFailure(w: World, run: seq<Sys>, steps: seq<Step>, j: nat, k: nat)
    requires |run| == |steps| + 1 && j <= k < |run|
    requires forall i :: 0 <= i < |steps| ==> Next(w, run[i], steps[i], run[i + 1])
    requires run[j].sh.failed
    ensures run[k].sh.failed && run[k].picks == run[j].picks
    decreases k
  {
    if j < k {
      NothingStartsAfterFailure(w, run, steps, j, k - 1);
      assert Next(w, run[k - 1], steps[k - 1], run[k]);
      FailureIsFinal(w, run[k - 1], steps[k - 1], run[k]);
    }
  }

  lemma FailureIsFinal(w: World, s: Sys, step: Step, s': Sys)
    requires Next(w, s, step, s') && s.sh.failed
    ensures s'.sh.failed && s'.picks == s.picks
  {
    hide FailEffect, EdgeSucceeds, Wake;
  }

  /** If an edge was ever picked, all its in-plan ancestors succeeded: no descendant of a failed edge starts. */
  lemma DescendantsOfFailureNeverStart(w: World, plan: seq<EdgeId>, jobs: nat, disk: Disk, s: Sys, f: EdgeId, e: EdgeId)
    requires Runnable(w, plan, jobs) && Reachable(w, plan, jobs, disk, s)
    requires e in plan && PlanAncestor(NeedMap(w.g, Elems(plan)), f, e)
    ensures e in s.picks ==> f in s.done && f !in s.lost && f !in Held(s.workers)
  {
    hide Producers, Control, Distinct, Held, Reachable, Runnable, Indegrees, Counters;
    ReachableInv(w, plan, jobs, disk, s);
    var need := NeedMap(w.g, Elems(plan));
    if e in s.picks {
      ListsIn(s.picks, Held(s.workers) + s.done + s.lost, e);
      assert need[e] <= s.done;
      assert NeedClosed(need, s.done);
    }
  }
}
