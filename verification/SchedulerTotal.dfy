/**
 Total correctness: on an acyclic plan a run that has come to rest has returned, and when no command failed it returns
 true; on a cyclic plan `run` hangs.
 */
module SchedulerTotal {
  import opened Prelude
  import opened Graphs
  import opened Planner
  import opened Scheduler
  import opened World
  import opened CachedEdges
  import opened SchedulerSteps
  import opened SchedulerSafety
  import opened SchedulerProgress
  import opened SchedulerTermination
  import opened SchedulerResults

  /** No failure has been seen or flagged. */
  ghost predicate Unharmed(s: Sys)
  {
    && !s.sh.failed
    && forall i :: 0 <= i < |s.workers| ==> (s.workers[i].Ran? ==> s.workers[i].ok)
  }

  lemma UnharmedStep(w: World, s: Sys, step: Step, s': Sys)
    requires Unharmed(s) && Next(w, s, step, s') && !step.Fail?
    ensures Unharmed(s')
  {
    hide EdgeSucceeds, MainEnabled, Dependents, Decremented, Lists, ContentsOf;
  }

  lemma {:induction false} UnharmedRun(w: World, plan: seq<EdgeId>, jobs: nat, disk: Disk, run: seq<Sys>,
                                       steps: seq<Step>, k: nat)
    requires IsRun(w, plan, jobs, disk, run, steps) && k < |run|
    requires forall j :: 0 <= j < |steps| ==> !steps[j].Fail?
    ensures Unharmed(run[k])
  {
    hide Next, Unharmed;
    if k == 0 {
      UnharmedStart(w, plan, jobs, disk, run[0]);
    } else {
      UnharmedRun(w, plan, jobs, disk, run, steps, k - 1);
      assert Next(w, run[k - 1], steps[k - 1], run[k]);
      UnharmedStep(w, run[k - 1], steps[k - 1], run[k]);
    }
  }

  lemma UnharmedStart(w: World, plan: seq<EdgeId>, jobs: nat, disk: Disk, s: Sys)
    requires Init(w, plan, jobs, disk, s)
    ensures Unharmed(s)
  {
  }

  /**
   On an acyclic plan every run, whatever the interleaving, that cannot go on by itself has returned. If no command
   failed, `run` returned true and all planned edges were executed. Runs are bounded, so they do come to rest.
   */
  lemma RestMeansReturned(w: World, plan: seq<EdgeId>, jobs: nat, disk: Disk, run: seq<Sys>, steps: seq<Step>)
    requires Runnable(w, plan, jobs) && Acyclic(w.g, Elems(plan))
    requires IsRun(w, plan, jobs, disk, run, steps) && !CanMove(w, run[|steps|])
    ensures run[|steps|].main.Returned?
    ensures (forall j :: 0 <= j < |steps| ==> !steps[j].Fail?) ==>
              !run[|steps|].sh.failed && run[|steps|].done == Elems(plan)
  {
    hide Runnable, CanMove, Acyclic, Init, Next, Unharmed, Topological, Held;
    var s := run[|steps|];
    assert Reachable(w, plan, jobs, disk, s);
    if !s.main.Returned? {
      NoDeadlock(w, plan, jobs, disk, s);
    }
    ReturnValue(w, plan, jobs, disk, s);
    if forall j :: 0 <= j < |steps| ==> !steps[j].Fail? {
      UnharmedRun(w, plan, jobs, disk, run, steps, |steps|);
      NotFailed(s);
    }
  }

  lemma NotFailed(s: Sys)
    requires Unharmed(s)
    ensures !s.sh.failed
  {
  }

  // ------------------------------------------------------------------------------------------
  // Cyclic plans
  // ------------------------------------------------------------------------------------------

  /** `run` can be called on any plan. */
  lemma SomeStart(w: World, plan: seq<EdgeId>, jobs: nat, disk: Disk) returns (s: Sys)
    ensures Init(w, plan, jobs, disk, s)
  {
    var need := NeedMap(w.g, Elems(plan));
    hide NeedMap, Free;
    var ready := SomeListing(Free(need, need.Keys, {}));
    var indegree := map e | e in need :: Pending(need[e], {}) as int;
    var sh := Shared(indegree, ready, |plan|, 0, 0, false, false);
    assert Started(w.g, plan, sh);
    s := Sys(sh, seq(jobs, i => NotStarted), Spawning(0), {}, {}, [], disk);
  }

  /** Who can move at all can move without a failing command. */
  lemma MovesUnharmed(w: World, s: Sys) returns (step: Step, s': Sys)
    requires CanMove(w, s)
    ensures Next(w, s, step, s') && !Spurious(step) && !step.Fail?
  {
    hide Next, EdgeSucceeds, FailEffect;
    step, s' :| !Spurious(step) && Next(w, s, step, s');
    if step.Fail? {
      step, s' := SucceedsInstead(w, s, step.i, s');
    }
  }

  lemma SucceedsInstead(w: World, s: Sys, i: nat, failed: Sys) returns (step: Step, s': Sys)
    requires Next(w, s, Fail(i), failed)
    ensures Next(w, s, step, s') && !Spurious(step) && !step.Fail?
  {
    hide FailEffect, EdgeSucceeds, RunEffect;
    var pc, now := s.workers[i], s.disk.clock;
    var disk := PlainRunSucceeds(w.tools, w.command[pc.edge], pc.seen, now, s.disk);
    step, s' := Succeed(i, now), Move(s, i, Ran(pc.edge, true)).(disk := disk);
  }

  /** Runs are extended until nobody can move: the measure drops with every step. */
  lemma {:induction false} ComesToRest(w: World, plan: seq<EdgeId>, jobs: nat, disk: Disk, run: seq<Sys>,
                                       steps: seq<Step>)
    returns (longer: seq<Sys>, more: seq<Step>)
    requires Runnable(w, plan, jobs) && IsRun(w, plan, jobs, disk, run, steps) && Calmly(steps)
    ensures IsRun(w, plan, jobs, disk, longer, more) && Calmly(more) && !CanMove(w, longer[|more|])
    decreases Measure(plan, run[|steps|])
  {
    hide Next, Init, CanMove, Inv, Measure, Spurious;
    var s := run[|steps|];
    if CanMove(w, s) {
      var step, s' := MovesUnharmed(w, s);
      AlwaysInv(w, plan, jobs, disk, run, steps, |steps|);
      StepDescends(w, plan, s, step, s');
      OneStepLonger(w, plan, jobs, disk, run, steps, step, s');
      AlwaysInv(w, plan, jobs, disk, run + [s'], steps + [step], |steps| + 1);
      MeasureIsNatural(w, plan, s');
      longer, more := ComesToRest(w, plan, jobs, disk, run + [s'], steps + [step]);
    } else {
      longer, more := run, steps;
    }
  }

  /** No command fails. */
  ghost predicate Calmly(steps: seq<Step>)
  {
    forall j :: 0 <= j < |steps| ==> !steps[j].Fail?
  }

  lemma OneStepLonger(w: World, plan: seq<EdgeId>, jobs: nat, disk: Disk, run: seq<Sys>, steps: seq<Step>,
                      step: Step, s': Sys)
    requires IsRun(w, plan, jobs, disk, run, steps) && Next(w, run[|steps|], step, s')
    ensures IsRun(w, plan, jobs, disk, run + [s'], steps + [step])
    ensures Calmly(steps) && !step.Fail? ==> Calmly(steps + [step])
  {
    hide Next, Init;
    var longer, more := run + [s'], steps + [step];
    forall k | 0 <= k < |more|
      ensures Next(w, longer[k], more[k], longer[k + 1])
    {
      if k < |steps| {
        assert Next(w, run[k], steps[k], run[k + 1]);
      }
    }
  }

  /** A run in which no command fails returns on an acyclic plan only. */
  lemma CalmReturnNeedsAcyclicPlan(w: World, plan: seq<EdgeId>, jobs: nat, disk: Disk, run: seq<Sys>, steps: seq<Step>)
    requires Runnable(w, plan, jobs) && IsRun(w, plan, jobs, disk, run, steps) && Calmly(steps)
    requires run[|steps|].main.Returned?
    ensures Acyclic(w.g, Elems(plan))
  {
    hide Runnable, Acyclic, Init, Next, Unharmed;
    UnharmedRun(w, plan, jobs, disk, run, steps, |steps|);
    NotFailed(run[|steps|]);
    assert Reachable(w, plan, jobs, disk, run[|steps|]);
    SuccessNeedsAcyclicPlan(w, plan, jobs, disk, run[|steps|]);
  }

  /** A run that hangs: nobody can move without a spurious wakeup, and `run` has not returned. */
  ghost predicate Hangs(w: World, plan: seq<EdgeId>, jobs: nat, disk: Disk, run: seq<Sys>, steps: seq<Step>)
  {
    && IsRun(w, plan, jobs, disk, run, steps)
    && !CanMove(w, run[|steps|]) && !run[|steps|].main.Returned?
  }

  /** `run` can hang exactly on cyclic plans; there it does so whenever no command fails. */
  lemma HangsIffCyclic(w: World, plan: seq<EdgeId>, jobs: nat, disk: Disk)
    requires Runnable(w, plan, jobs)
    ensures (exists run, steps :: Hangs(w, plan, jobs, disk, run, steps)) <==> !Acyclic(w.g, Elems(plan))
    ensures !Acyclic(w.g, Elems(plan)) ==>
              forall run: seq<Sys>, steps :: IsRun(w, plan, jobs, disk, run, steps) && Calmly(steps) ==>
                                             !run[|steps|].main.Returned?
  {
    hide Runnable, Acyclic, CanMove, Init, Next;
    if Acyclic(w.g, Elems(plan)) {
      forall run: seq<Sys>, steps
        ensures !Hangs(w, plan, jobs, disk, run, steps)
      {
        if Hangs(w, plan, jobs, disk, run, steps) {
          assert Reachable(w, plan, jobs, disk, run[|steps|]);
          NoDeadlock(w, plan, jobs, disk, run[|steps|]);
        }
      }
    } else {
      forall run: seq<Sys>, steps | IsRun(w, plan, jobs, disk, run, steps) && Calmly(steps)
        ensures !run[|steps|].main.Returned?
      {
        if run[|steps|].main.Returned? {
          CalmReturnNeedsAcyclicPlan(w, plan, jobs, disk, run, steps);
        }
      }
      var s := SomeStart(w, plan, jobs, disk);
      var none: seq<Step> := [];
      assert IsRun(w, plan, jobs, disk, [s], none);
      var run, steps := ComesToRest(w, plan, jobs, disk, [s], none);
      assert Hangs(w, plan, jobs, disk, run, steps);
    }
  }
}
