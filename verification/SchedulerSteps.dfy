/**
 `Scheduler::run` and `Scheduler::worker` as a step system: one main thread, any number of workers, one mutex,
 two condition variables. A step is what a thread does between two points where another thread may run: a
 critical section, a notification, or a piece of the execution of a command. Which thread moves is free.
 */
module SchedulerSteps {
  import opened Prelude
  import opened Graphs
  import opened Planner
  import opened Scheduler
  import opened World
  import opened CachedEdges

  /** Where a worker is. */
  datatype Pc =
    | NotStarted
    | Looping                                // about to lock the mutex and test the wait predicate
    | Asleep                                 // inside condition_.wait
    | Holding(edge: EdgeId)                  // picked, command not started
    | Running(edge: EdgeId, seen: Contents)  // the command has read its files
    | Ran(edge: EdgeId, ok: bool)            // execute_edge returned
    | Announcing                             // finish_edge done, condition_.notify_all still to come
    | FailWorkers                            // flags set, condition_.notify_all still to come
    | FailMain                               // finished_condition_.notify_all still to come
    | Exited

  datatype MainPc =
    | Spawning(next: nat)   // creating worker number `next`
    | Opening               // condition_.notify_all after the last worker was created
    | Waiting               // about to lock the mutex and test the wait predicate
    | Sleeping              // inside finished_condition_.wait
    | Closing               // about to set stopping_
    | ClosingNotify         // condition_.notify_all after stopping_ was set
    | Joining(next: nat)
    | Returned

  /**
   `done`, `lost` and `picks` are history: the edges that went through `finish_edge`, those whose failure
   was flagged, and every edge ever popped, in order.
   */
  datatype Sys = Sys(
    sh: Shared,
    workers: seq<Pc>,
    main: MainPc,
    done: set<EdgeId>,
    lost: set<EdgeId>,
    picks: seq<EdgeId>,
    disk: Disk)

  datatype Step =
    | Loop(i: nat)
    | Read(i: nat)
    | Succeed(i: nat, now: int)
    | Fail(i: nat)
    | Finish(i: nat)
    | Announce(i: nat)
    | Flag(i: nat)
    | NotifyWorkers(i: nat)
    | NotifyMain(i: nat)
    | WorkerWakes(i: nat)   // spurious
    | Main
    | MainWakes             // spurious

  predicate Spurious(step: Step)
  {
    step.WorkerWakes? || step.MainWakes?
  }

  function EdgeOf(pc: Pc): Option<EdgeId>
  {
    match pc
    case Holding(e) => Some(e)
    case Running(e, _) => Some(e)
    case Ran(e, _) => Some(e)
    case _ => None
  }

  /** The edges in the hands of workers: popped, neither finished nor flagged as failed. */
  function Held(ws: seq<Pc>): set<EdgeId>
  {
    set i | 0 <= i < |ws| && EdgeOf(ws[i]).Some? :: EdgeOf(ws[i]).value
  }

  function Roused(pc: Pc): Pc
  {
    if pc.Asleep? then Looping else pc
  }

  /** `condition_.notify_all()`. */
  function Wake(ws: seq<Pc>): seq<Pc>
  {
    seq(|ws|, i requires 0 <= i < |ws| => Roused(ws[i]))
  }

  /** `finished_condition_.notify_all()`. */
  function WakeMain(m: MainPc): MainPc
  {
    if m.Sleeping? then Waiting else m
  }

  function At(s: Sys, i: nat): Pc
  {
    if i < |s.workers| then s.workers[i] else NotStarted
  }

  function Move(s: Sys, i: nat, pc: Pc): Sys
    requires i < |s.workers|
  {
    s.(workers := s.workers[i := pc])
  }

  ghost predicate MainEnabled(s: Sys)
  {
    match s.main
    case Sleeping => false
    case Returned => false
    case Joining(n) => n < |s.workers| ==> s.workers[n].Exited?
    case _ => true
  }

  function MainMove(s: Sys): Sys
  {
    match s.main
    case Spawning(n) =>
      if n < |s.workers| then Move(s, n, Looping).(main := Spawning(n + 1)) else s.(main := Opening)
    case Opening => s.(main := Waiting, workers := Wake(s.workers))
    case Waiting => s.(main := if MainDone(s.sh) then Closing else Sleeping)
    case Closing => s.(main := ClosingNotify, sh := s.sh.(stopping := true))
    case ClosingNotify => s.(main := Joining(0), workers := Wake(s.workers))
    case Joining(n) => s.(main := if n < |s.workers| then Joining(n + 1) else Returned)
    case _ => s
  }

  ghost predicate LoopStep(s: Sys, i: nat, s': Sys)
  {
    && At(s, i).Looping?
    && match Decision(s.sh)
       case Exit => s' == Move(s, i, Exited)
       case Sleep => s' == Move(s, i, Asleep)
       case Pick(e) => s' == Move(s, i, Holding(e)).(sh := Picked(s.sh), picks := s.picks + [e])
  }

  ghost predicate FinishStep(g: Graph, s: Sys, i: nat, s': Sys)
  {
    && At(s, i).Ran? && At(s, i).ok
    && FinishedBy(g, At(s, i).edge, s.sh, s'.sh)
    && s' == Move(s, i, Announcing).(sh := s'.sh, done := s.done + {At(s, i).edge}, main := WakeMain(s.main))
  }

  ghost predicate FlagStep(s: Sys, i: nat, s': Sys)
  {
    && At(s, i).Ran? && !At(s, i).ok
    && s' == Move(s, i, FailWorkers).(sh := FailedState(s.sh), lost := s.lost + {At(s, i).edge})
  }

  ghost predicate SucceedStep(w: World, s: Sys, i: nat, now: int, s': Sys)
  {
    && At(s, i).Running? && At(s, i).edge < |w.command| && s.disk.clock <= now
    && EdgeSucceeds(w.tools, w.command[At(s, i).edge], At(s, i).seen, now, s.disk, s'.disk)
    && s' == Move(s, i, Ran(At(s, i).edge, true)).(disk := s'.disk)
  }

  ghost predicate FailStep(w: World, s: Sys, i: nat, s': Sys)
  {
    && At(s, i).Running? && At(s, i).edge < |w.command|
    && FailEffect(w.tools, w.command[At(s, i).edge], s.disk, s'.disk)
    && s' == Move(s, i, Ran(At(s, i).edge, false)).(disk := s'.disk)
  }

  ghost predicate Next(w: World, s: Sys, step: Step, s': Sys)
  {
    match step
    case Loop(i) => LoopStep(s, i, s')
    case Read(i) =>
      At(s, i).Holding? && s' == Move(s, i, Running(At(s, i).edge, ContentsOf(s.disk.files)))
    case Succeed(i, now) => SucceedStep(w, s, i, now, s')
    case Fail(i) => FailStep(w, s, i, s')
    case Finish(i) => FinishStep(w.g, s, i, s')
    case Announce(i) => At(s, i).Announcing? && s' == Move(s.(workers := Wake(s.workers)), i, Looping)
    case Flag(i) => FlagStep(s, i, s')
    case NotifyWorkers(i) => At(s, i).FailWorkers? && s' == Move(s.(workers := Wake(s.workers)), i, FailMain)
    case NotifyMain(i) => At(s, i).FailMain? && s' == Move(s, i, Exited).(main := WakeMain(s.main))
    case WorkerWakes(i) => At(s, i).Asleep? && s' == Move(s, i, Looping)
    case Main => MainEnabled(s) && s' == MainMove(s)
    case MainWakes => s.main.Sleeping? && s' == s.(main := Waiting)
  }

  ghost predicate Init(w: World, plan: seq<EdgeId>, jobs: nat, disk: Disk, s: Sys)
  {
    && Started(w.g, plan, s.sh)
    && |s.workers| == jobs && (forall i :: 0 <= i < jobs ==> s.workers[i].NotStarted?)
    && s.main == Spawning(0)
    && s.done == {} && s.lost == {} && s.picks == [] && s.disk == disk
  }

  /** A run from its start, of any length, under any schedule. */
  ghost predicate IsRun(w: World, plan: seq<EdgeId>, jobs: nat, disk: Disk, run: seq<Sys>, steps: seq<Step>)
  {
    && |run| == |steps| + 1
    && Init(w, plan, jobs, disk, run[0])
    && forall k :: 0 <= k < |steps| ==> Next(w, run[k], steps[k], run[k + 1])
  }

  /** `s` can occur when `run` is called with this plan and this number of jobs. */
  ghost predicate Reachable(w: World, plan: seq<EdgeId>, jobs: nat, disk: Disk, s: Sys)
  {
    exists run, steps :: IsRun(w, plan, jobs, disk, run, steps) && run[|steps|] == s
  }

  /** What `run` demands of its caller: distinct edges of a valid graph, and at least one job. */
  ghost predicate Runnable(w: World, plan: seq<EdgeId>, jobs: nat)
  {
    && Valid(w.g) && NoDup(plan) && Elems(plan) <= AllEdges(w.g)
    && |w.command| == |w.g.edges| && jobs > 0
  }

  // ------------------------------------------------------------------------------------------
  // The invariant
  // ------------------------------------------------------------------------------------------

  /**
   Every planned edge is in exactly one place: waiting, ready, held, done or lost. It has left the
   waiting state exactly when all its in-plan producers are done.
   */
  ghost predicate Places(need: map<EdgeId, set<EdgeId>>, ready: seq<EdgeId>, held: set<EdgeId>,
                         done: set<EdgeId>, lost: set<EdgeId>)
  {
    && NoDup(ready)
    && Elems(ready) !! held !! done !! lost
    && Elems(ready) + held + done + lost <= need.Keys
    && forall e :: e in need ==> (e in Elems(ready) + held + done + lost <==> need[e] <= done)
  }

  ghost predicate Distinct(ws: seq<Pc>)
  {
    forall i, j :: 0 <= i < j < |ws| && EdgeOf(ws[i]).Some? ==> EdgeOf(ws[i]) != EdgeOf(ws[j])
  }

  /** `running_edges_` counts the popped edges that did not finish, failed ones included. */
  ghost predicate Counters(total: int, sh: Shared, held: set<EdgeId>, done: set<EdgeId>, lost: set<EdgeId>)
  {
    && sh.total == total
    && sh.completed == |done|
    && sh.running == |held| + |lost|
  }

  ghost predicate Flags(s: Sys)
  {
    && (s.sh.failed <==> s.lost != {})
    && (s.sh.failed ==> s.sh.stopping)
    && (s.sh.stopping ==> s.sh.failed || AfterClosing(s.main))
    && (forall i :: 0 <= i < |s.workers| && s.workers[i].Exited? ==> s.sh.stopping)
    && (forall i :: 0 <= i < |s.workers| && OwesFailure(s.workers[i]) ==> s.sh.failed)
  }

  predicate OwesFailure(pc: Pc)
  {
    pc.FailWorkers? || pc.FailMain?
  }

  predicate AfterClosing(m: MainPc)
  {
    m.ClosingNotify? || m.Joining? || m.Returned?
  }

  ghost predicate MainPlace(s: Sys)
  {
    && (s.main.Closing? || AfterClosing(s.main) ==> MainDone(s.sh))
    && (AfterClosing(s.main) ==> s.sh.stopping)
    && (s.main.Spawning? ==> s.main.next <= |s.workers|)
    && (forall i :: 0 <= i < |s.workers| ==>
         (s.workers[i].NotStarted? <==> s.main.Spawning? && i >= s.main.next))
    && (s.main.Joining? ==> s.main.next <= |s.workers|)
    && (forall i :: 0 <= i < |s.workers| && (s.main.Returned? || (s.main.Joining? && i < s.main.next)) ==>
         s.workers[i].Exited?)
  }

  /** Some thread has still to call `condition_.notify_all()`. */
  ghost predicate WorkersOwed(s: Sys)
  {
    || s.main.ClosingNotify?
    || exists j :: 0 <= j < |s.workers| && (s.workers[j].Announcing? || s.workers[j].FailWorkers?)
  }

  /** Some thread has still to call `finished_condition_.notify_all()`. */
  ghost predicate MainOwed(s: Sys)
  {
    exists j :: 0 <= j < |s.workers| && OwesFailure(s.workers[j])
  }

  /** No lost wakeup: whoever sleeps although its wait predicate holds is owed a notification. */
  ghost predicate NoLostWakeup(s: Sys)
  {
    && ((exists i :: 0 <= i < |s.workers| && s.workers[i].Asleep?) && !Decision(s.sh).Sleep? ==> WorkersOwed(s))
    && (s.main.Sleeping? && MainDone(s.sh) ==> MainOwed(s))
  }

  /** The part of the invariant about edges. */
  ghost predicate Books(need: map<EdgeId, set<EdgeId>>, s: Sys)
  {
    && Places(need, s.sh.ready, Held(s.workers), s.done, s.lost)
    && Indegrees(need, s.done, s.sh.indegree)
    && Distinct(s.workers)
    && Counters(|need.Keys|, s.sh, Held(s.workers), s.done, s.lost)
    && Lists(s.picks, Held(s.workers) + s.done + s.lost)
  }

  /** The part of the invariant about threads. */
  ghost predicate Control(s: Sys)
  {
    Flags(s) && MainPlace(s) && NoLostWakeup(s)
  }

  ghost predicate Inv(w: World, plan: seq<EdgeId>, s: Sys)
  {
    Books(NeedMap(w.g, Elems(plan)), s) && Control(s)
  }

  // ------------------------------------------------------------------------------------------
  // Preservation, group by group
  // ------------------------------------------------------------------------------------------

  lemma SameEdgesHeld(ws: seq<Pc>, ws': seq<Pc>)
    requires |ws| == |ws'| && forall i :: 0 <= i < |ws| ==> EdgeOf(ws[i]) == EdgeOf(ws'[i])
    ensures Held(ws) == Held(ws')
    ensures Distinct(ws) ==> Distinct(ws')
  {
    forall e | e in Held(ws)
      ensures e in Held(ws')
    {
      var i :| 0 <= i < |ws| && EdgeOf(ws[i]) == Some(e);
      assert EdgeOf(ws'[i]) == Some(e);
    }
    forall e | e in Held(ws')
      ensures e in Held(ws)
    {
      var i :| 0 <= i < |ws'| && EdgeOf(ws'[i]) == Some(e);
      assert EdgeOf(ws[i]) == Some(e);
    }
  }

  lemma GrabHeld(ws: seq<Pc>, i: nat, pc: Pc, e: EdgeId)
    requires i < |ws| && EdgeOf(ws[i]).None? && EdgeOf(pc) == Some(e)
    requires Distinct(ws) && e !in Held(ws)
    ensures Held(ws[i := pc]) == Held(ws) + {e} && Distinct(ws[i := pc])
  {
    var ws' := ws[i := pc];
    forall x | x in Held(ws)
      ensures x in Held(ws')
    {
      var j :| 0 <= j < |ws| && EdgeOf(ws[j]) == Some(x);
      assert EdgeOf(ws'[j]) == Some(x);
    }
    assert EdgeOf(ws'[i]) == Some(e);
    forall j | 0 <= j < |ws|
      ensures EdgeOf(ws[j]) != Some(e)
    {
      assert EdgeOf(ws[j]).Some? ==> EdgeOf(ws[j]).value in Held(ws);
    }
  }

  lemma DropHeld(ws: seq<Pc>, i: nat, pc: Pc, e: EdgeId)
    requires i < |ws| && EdgeOf(ws[i]) == Some(e) && EdgeOf(pc).None?
    requires Distinct(ws)
    ensures Held(ws[i := pc]) == Held(ws) - {e} && e in Held(ws) && Distinct(ws[i := pc])
  {
    var ws' := ws[i := pc];
    forall x | x in Held(ws) - {e}
      ensures x in Held(ws')
    {
      var j :| 0 <= j < |ws| && EdgeOf(ws[j]) == Some(x);
      assert EdgeOf(ws'[j]) == Some(x);
    }
    forall x | x in Held(ws')
      ensures x in Held(ws) - {e}
    {
      var j :| 0 <= j < |ws'| && EdgeOf(ws'[j]) == Some(x);
      assert j != i && EdgeOf(ws[j]) == Some(x);
    }
  }

  lemma PlacesPick(need: map<EdgeId, set<EdgeId>>, ready: seq<EdgeId>, held: set<EdgeId>,
                   done: set<EdgeId>, lost: set<EdgeId>)
    requires ready != [] && Places(need, ready, held, done, lost)
    ensures ready[0] in need && ready[0] !in held + done + lost
    ensures Places(need, ready[1..], held + {ready[0]}, done, lost)
  {
    var e, rest := ready[0], ready[1..];
    assert e in Elems(ready);
    assert ready == [e] + rest;
    ElemsConcat([e], rest);
    assert e !in Elems(rest);
  }

  lemma PlacesLose(need: map<EdgeId, set<EdgeId>>, ready: seq<EdgeId>, held: set<EdgeId>,
                   done: set<EdgeId>, lost: set<EdgeId>, e: EdgeId)
    requires e in held && Places(need, ready, held, done, lost)
    ensures Places(need, ready, held - {e}, done, lost + {e})
  {
    assert Elems(ready) + held + done + lost == Elems(ready) + (held - {e}) + done + (lost + {e});
  }

  lemma PlacesFinish(need: map<EdgeId, set<EdgeId>>, ready: seq<EdgeId>, held: set<EdgeId>,
                     done: set<EdgeId>, lost: set<EdgeId>, e: EdgeId, freed: seq<EdgeId>)
    requires e in held && Places(need, ready, held, done, lost)
    requires Lists(freed, Free(need, Consumers(need, need.Keys, e), done + {e}))
    ensures Places(need, ready + freed, held - {e}, done + {e}, lost)
  {
    forall x | x in freed
      ensures x in need && e in need[x] && x !in Elems(ready) + held + done + lost
    {
      ListsIn(freed, Free(need, Consumers(need, need.Keys, e), done + {e}), x);
    }
    ElemsConcat(ready, freed);
    assert Elems(freed) !! Elems(ready) + held + done + lost;
    NoDupConcat(ready, freed);
    var all := Elems(ready) + held + done + lost;
    assert Elems(ready + freed) + (held - {e}) + (done + {e}) + lost == all + Elems(freed);
    forall x | x in need
      ensures x in all + Elems(freed) <==> need[x] <= done + {e}
    {
      ListsIn(freed, Free(need, Consumers(need, need.Keys, e), done + {e}), x);
    }
  }

  /** The consumers that `finish_edge` walks are the ones the plan counts. */
  lemma ReleasedAreConsumers(g: Graph, P: set<EdgeId>, e: EdgeId)
    requires Valid(g) && P <= AllEdges(g) && e in P
    ensures Dependents(g, e) * P == Consumers(NeedMap(g, P), P, e)
  {
    forall d | d in P
      ensures d in Dependents(g, e) <==> e in Producers(g, d)
    {
      DependencyViews(g, d, e);
    }
  }

  lemma DegreesFinish(need: map<EdgeId, set<EdgeId>>, done: set<EdgeId>, e: EdgeId,
                      before: map<EdgeId, int>, after: map<EdgeId, int>)
    requires Indegrees(need, done, before) && e !in done
    requires Decremented(before, Consumers(need, need.Keys, e), after)
    ensures Indegrees(need, done + {e}, after)
    ensures Zeroed(after, Consumers(need, need.Keys, e)) == Free(need, Consumers(need, need.Keys, e), done + {e})
  {
    hide Pending;
    forall d | d in need
      ensures after[d] == Pending(need[d], done + {e})
      ensures after[d] == 0 <==> need[d] <= done + {e}
    {
      if e in need[d] {
        OneFewer(need[d], done, e);
      } else {
        SamePending(need[d], done, e);
      }
      NonePending(need[d], done + {e});
    }
  }
}
