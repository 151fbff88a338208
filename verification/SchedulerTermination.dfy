/**
 A bound on the length of every run: each step that is not a spurious wakeup lowers a measure, each spurious
 wakeup raises it by at most one.
 */
module SchedulerTermination {
  import opened Prelude
  import opened Graphs
  import opened Planner
  import opened Scheduler
  import opened World
  import opened CachedEdges
  import opened SchedulerSteps
  import opened SchedulerSafety

  /** How many steps a worker owes at most, counting the threads that its notifications wake; `n` workers. */
  function Rank(pc: Pc, n: nat): nat
  {
    match pc
    case Exited => 0
    case Asleep => 1
    case Looping => 2
    case NotStarted => 3
    case FailMain => 2
    case FailWorkers => n + 3
    case Announcing => n + 3
    case Ran(_, _) => n + 5
    case Running(_, _) => n + 6
    case Holding(_) => n + 7
  }

  function MainRank(m: MainPc, n: nat): int
  {
    match m
    case Returned => 0
    case Joining(k) => 1 + n - k
    case ClosingNotify => 2 * n + 2
    case Closing => 2 * n + 3
    case Sleeping => 2 * n + 4
    case Waiting => 2 * n + 5
    case Opening => 3 * n + 6
    case Spawning(k) => 4 * n + 7 - k
  }

  function Total(ws: seq<Pc>, n: nat): nat
  {
    if ws == [] then 0 else Total(ws[..|ws| - 1], n) + Rank(ws[|ws| - 1], n)
  }

  function Measure(plan: seq<EdgeId>, s: Sys): int
  {
    var n := |s.workers|;
    Weight(n, |plan| - |s.picks|) + Total(s.workers, n) + MainRank(s.main, n)
  }

  /** The price of `edges` edges that are still to be picked. */
  function Weight(n: nat, edges: int): int
  {
    (n + 6) * edges
  }

  lemma WeightOneLess(n: nat, edges: int)
    ensures Weight(n, edges - 1) == Weight(n, edges) - n - 6
    ensures edges >= 0 ==> Weight(n, edges) >= 0
  {
  }

  lemma {:induction false} TotalUpdate(ws: seq<Pc>, n: nat, i: nat, pc: Pc)
    requires i < |ws|
    ensures Total(ws[i := pc], n) == Total(ws, n) - Rank(ws[i], n) + Rank(pc, n)
    decreases |ws|
  {
    hide Rank;
    var last, ws' := |ws| - 1, ws[i := pc];
    if i == last {
      assert ws'[..last] == ws[..last];
    } else {
      TotalUpdate(ws[..last], n, i, pc);
      assert ws'[..last] == ws[..last][i := pc];
    }
  }

  lemma {:induction false} TotalWake(ws: seq<Pc>, n: nat)
    ensures Total(Wake(ws), n) <= Total(ws, n) + |ws|
    decreases |ws|
  {
    if ws != [] {
      var last := |ws| - 1;
      TotalWake(ws[..last], n);
      assert Wake(ws)[..last] == Wake(ws[..last]);
    }
  }

  /** A notification to all workers costs at most one step of each. */
  lemma TotalNotify(ws: seq<Pc>, n: nat, i: nat, pc: Pc)
    requires i < |ws| && !ws[i].Asleep?
    ensures Total(Wake(ws)[i := pc], n) <= Total(ws, n) + |ws| - Rank(ws[i], n) + Rank(pc, n)
  {
    hide Rank, Total;
    TotalWake(ws, n);
    NobodySleeps(ws);
    TotalUpdate(Wake(ws), n, i, pc);
  }

  lemma WorkerStepDescends(w: World, plan: seq<EdgeId>, s: Sys, step: Step, s': Sys)
    requires Next(w, s, step, s')
    requires !step.Main? && !step.MainWakes? && !step.Announce? && !step.NotifyWorkers?
    ensures Measure(plan, s') <= Measure(plan, s) + (if Spurious(step) then 1 else -1)
  {
    hide FailEffect, EdgeSucceeds, Wake, FinishedBy, Total, MainEnabled;
    var i, n := step.i, |s.workers|;
    TotalUpdate(s.workers, n, i, At(s', i));
    assert s'.workers == s.workers[i := At(s', i)];
    WeightOneLess(n, |plan| - |s.picks|);
    hide Weight;
    assert MainRank(s'.main, n) <= MainRank(s.main, n) + (if step.Finish? || step.NotifyMain? then 1 else 0);
  }

  lemma NotifierDescends(w: World, plan: seq<EdgeId>, s: Sys, step: Step, s': Sys)
    requires Next(w, s, step, s') && (step.Announce? || step.NotifyWorkers?)
    ensures Measure(plan, s') <= Measure(plan, s) - 1
  {
    hide Wake, Total, Weight;
    var i, n := step.i, |s.workers|;
    NobodySleeps(s.workers);
    TotalNotify(s.workers, n, i, At(s', i));
  }

  lemma MainDescends(plan: seq<EdgeId>, s: Sys)
    requires MainEnabled(s) && MainPlace(s)
    ensures Measure(plan, MainMove(s)) <= Measure(plan, s) - 1
  {
    var n := |s.workers|;
    NobodySleeps(s.workers);
    TotalWake(s.workers, n);
    if s.main.Spawning? && s.main.next < n {
      TotalUpdate(s.workers, n, s.main.next, Looping);
    }
    hide Wake, Total, Weight;
  }

  lemma StepDescends(w: World, plan: seq<EdgeId>, s: Sys, step: Step, s': Sys)
    requires Inv(w, plan, s) && Next(w, s, step, s')
    ensures Measure(plan, s') <= Measure(plan, s) + (if Spurious(step) then 1 else -1)
  {
    hide Books, Measure, NoLostWakeup, Flags, MainPlace, FinishedBy, FailEffect, EdgeSucceeds, Wake;
    match step
    case Main => MainDescends(plan, s);
    case MainWakes => MainWakesDescends(plan, s);
    case Announce(_) => NotifierDescends(w, plan, s, step, s');
    case NotifyWorkers(_) => NotifierDescends(w, plan, s, step, s');
    case _ => WorkerStepDescends(w, plan, s, step, s');
  }

  lemma MainWakesDescends(plan: seq<EdgeId>, s: Sys)
    requires s.main.Sleeping?
    ensures Measure(plan, s.(main := Waiting)) == Measure(plan, s) + 1
  {
  }

  function SpuriousCount(steps: seq<Step>): nat
  {
    if steps == [] then 0
    else SpuriousCount(steps[..|steps| - 1]) + (if Spurious(steps[|steps| - 1]) then 1 else 0)
  }

  lemma {:induction false} RunDescends(w: World, plan: seq<EdgeId>, jobs: nat, disk: Disk, run: seq<Sys>,
      steps: seq<Step>, k: nat)
    requires Runnable(w, plan, jobs) && IsRun(w, plan, jobs, disk, run, steps) && k <= |steps|
    ensures Measure(plan, run[k]) <= Measure(plan, run[0]) + 2 * SpuriousCount(steps[..k]) - k
    decreases k
  {
    hide Inv, Measure, Next, Init, Spurious;
    if k > 0 {
      RunDescends(w, plan, jobs, disk, run, steps, k - 1);
      AlwaysInv(w, plan, jobs, disk, run, steps, k - 1);
      assert Next(w, run[k - 1], steps[k - 1], run[k]);
      StepDescends(w, plan, run[k - 1], steps[k - 1], run[k]);
      assert steps[..k][..k - 1] == steps[..k - 1] && steps[..k][k - 1] == steps[k - 1];
    }
  }

  lemma {:induction false} AllNotStarted(ws: seq<Pc>, n: nat)
    requires forall i :: 0 <= i < |ws| ==> ws[i].NotStarted?
    ensures Total(ws, n) == 3 * |ws|
    decreases |ws|
  {
    if ws != [] {
      AllNotStarted(ws[..|ws| - 1], n);
    }
  }

  lemma MeasureIsNatural(w: World, plan: seq<EdgeId>, s: Sys)
    requires Inv(w, plan, s)
    requires NoDup(plan)
    ensures Measure(plan, s) >= 0
  {
    hide Places, Indegrees, Distinct, Held, Flags, NoLostWakeup, Total, Weight;
    PicksFit(w, plan, s);
    WeightOneLess(|s.workers|, |plan| - |s.picks|);
  }

  lemma PicksFit(w: World, plan: seq<EdgeId>, s: Sys)
    requires Inv(w, plan, s) && NoDup(plan)
    ensures |s.picks| <= |plan|
  {
    hide Indegrees, Distinct, Held, Control, Counters;
    var need := NeedMap(w.g, Elems(plan));
    NoDupSize(s.picks);
    NoDupSize(plan);
    assert Elems(s.picks) <= Elems(plan);
    SubsetSize(Elems(s.picks), Elems(plan));
  }

  /** Beside spurious wakeups, a run takes a bounded number of steps, whatever the interleaving. */
  lemma {:induction false} RunsAreBounded(w: World, plan: seq<EdgeId>, jobs: nat, disk: Disk, run: seq<Sys>,
      steps: seq<Step>)
    requires Runnable(w, plan, jobs) && IsRun(w, plan, jobs, disk, run, steps)
    ensures |steps| <= (jobs + 6) * |plan| + 7 * jobs + 7 + 2 * SpuriousCount(steps)
  {
    hide Inv, Next, SpuriousCount;
    var n := |steps|;
    RunDescends(w, plan, jobs, disk, run, steps, n);
    assert steps[..n] == steps;
    AlwaysInv(w, plan, jobs, disk, run, steps, n);
    MeasureIsNatural(w, plan, run[n]);
    AllNotStarted(run[0].workers, jobs);
    assert Measure(plan, run[0]) == (jobs + 6) * |plan| + 7 * jobs + 7;
  }
}
