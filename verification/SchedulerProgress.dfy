/**
 The scheduler neither deadlocks nor runs for ever: until `run` returns some thread can move, and every step
 that is not a spurious wakeup brings the end closer.
 */
module SchedulerProgress {
  import opened Prelude
  import opened Graphs
  import opened Planner
  import opened Scheduler
  import opened World
  import opened CachedEdges
  import opened SchedulerSteps
  import opened SchedulerSafety

  /** Some thread can make a step that is not a spurious wakeup. */
  ghost predicate CanMove(w: World, s: Sys)
  {
    exists step, s' :: !Spurious(step) && Next(w, s, step, s')
  }

  ghost predicate Idle(pc: Pc)
  {
    pc.NotStarted? || pc.Asleep? || pc.Exited?
  }

  /** Any worker that is not asleep, unborn or gone can move. */
  lemma BusyWorkerMoves(w: World, plan: seq<EdgeId>, s: Sys, i: nat)
    requires i < |s.workers| && !Idle(s.workers[i])
    requires Books(NeedMap(w.g, Elems(plan)), s) && Elems(plan) <= AllEdges(w.g) && |w.command| == |w.g.edges|
    ensures CanMove(w, s)
  {
    hide Books, NeedMap, AllEdges, CanMove;
    var pc := s.workers[i];
    if pc.Looping? {
      LoopCanMove(w, s, i);
    } else if pc.Running? {
      HeldIsEdge(w, plan, s, i);
      RunningCanMove(w, s, i);
    } else if pc.Ran? && pc.ok {
      FinishCanMove(w, s, i);
    } else if pc.Holding? || pc.Ran? {
      HolderCanMove(w, s, i);
    } else {
      NotifierCanMove(w, s, i);
    }
  }

  lemma RunningCanMove(w: World, s: Sys, i: nat)
    requires i < |s.workers| && s.workers[i].Running? && s.workers[i].edge < |w.command|
    ensures CanMove(w, s)
  {
    var pc, now := s.workers[i], s.disk.clock;
    var disk := PlainRunSucceeds(w.tools, w.command[pc.edge], pc.seen, now, s.disk);
    hide EdgeSucceeds, RunEffect;
    assert SucceedStep(w, s, i, now, Move(s, i, Ran(pc.edge, true)).(disk := disk));
    assert Next(w, s, Succeed(i, now), Move(s, i, Ran(pc.edge, true)).(disk := disk));
  }

  lemma HolderCanMove(w: World, s: Sys, i: nat)
    requires i < |s.workers| && (s.workers[i].Holding? || (s.workers[i].Ran? && !s.workers[i].ok))
    ensures CanMove(w, s)
  {
    var e := s.workers[i].edge;
    if s.workers[i].Holding? {
      assert Next(w, s, Read(i), Move(s, i, Running(e, ContentsOf(s.disk.files))));
    } else {
      assert Next(w, s, Flag(i), Move(s, i, FailWorkers).(sh := FailedState(s.sh), lost := s.lost + {e}));
    }
  }

  lemma NotifierCanMove(w: World, s: Sys, i: nat)
    requires i < |s.workers| && (s.workers[i].Announcing? || s.workers[i].FailWorkers? || s.workers[i].FailMain?)
    ensures CanMove(w, s)
  {
    NobodySleeps(s.workers);
    match s.workers[i]
    case Announcing => assert Next(w, s, Announce(i), Move(s.(workers := Wake(s.workers)), i, Looping));
    case FailWorkers => assert Next(w, s, NotifyWorkers(i), Move(s.(workers := Wake(s.workers)), i, FailMain));
    case FailMain => assert Next(w, s, NotifyMain(i), Move(s, i, Exited).(main := WakeMain(s.main)));
  }

  lemma LoopCanMove(w: World, s: Sys, i: nat)
    requires i < |s.workers| && s.workers[i].Looping?
    ensures CanMove(w, s)
  {
    var s' := match Decision(s.sh)
              case Exit => Move(s, i, Exited)
              case Sleep => Move(s, i, Asleep)
              case Pick(e) => Move(s, i, Holding(e)).(sh := Picked(s.sh), picks := s.picks + [e]);
    assert Next(w, s, Loop(i), s');
  }

  lemma HeldIsEdge(w: World, plan: seq<EdgeId>, s: Sys, i: nat)
    requires i < |s.workers| && EdgeOf(s.workers[i]).Some?
    requires Books(NeedMap(w.g, Elems(plan)), s) && Elems(plan) <= AllEdges(w.g)
    ensures IsEdge(w.g, EdgeOf(s.workers[i]).value)
  {
    hide Distinct, Indegrees, Lists, Counters, Producers;
    var e := EdgeOf(s.workers[i]).value;
    assert e in Held(s.workers);
    assert e in AllEdges(w.g);
  }

  lemma FinishCanMove(w: World, s: Sys, i: nat)
    requires i < |s.workers| && s.workers[i].Ran? && s.workers[i].ok
    ensures CanMove(w, s)
  {
    var e := s.workers[i].edge;
    var released := Released(w.g, e, s.sh);
    var indegree := map d | d in s.sh.indegree :: if d in released then s.sh.indegree[d] - 1 else s.sh.indegree[d];
    var freed := SomeListing(Zeroed(indegree, released));
    hide Dependents, Zeroed;
    var ready := s.sh.ready + freed;
    assert ready[|s.sh.ready|..] == freed && ready[..|s.sh.ready|] == s.sh.ready;
    var sh := s.sh.(indegree := indegree, ready := ready, completed := s.sh.completed + 1, running := s.sh.running - 1);
    var s' := Move(s, i, Announcing).(sh := sh, done := s.done + {e}, main := WakeMain(s.main));
    assert FinishedBy(w.g, e, s.sh, sh);
    assert Next(w, s, Finish(i), s');
  }

  /** When all workers idle, nobody can owe a notification and nobody holds an edge. */
  lemma IdleMeansNobodyHolds(ws: seq<Pc>)
    requires forall i :: 0 <= i < |ws| ==> Idle(ws[i])
    ensures Held(ws) == {}
  {
  }

  /** With an acyclic plan, idle workers and an open main wait, some edge would be ready. */
  lemma WorkIsReady(g: Graph, P: set<EdgeId>, s: Sys)
    requires Valid(g) && P <= AllEdges(g) && Acyclic(g, P)
    requires Books(NeedMap(g, P), s) && Held(s.workers) == {} && s.lost == {} && s.done != P
    ensures s.sh.ready != []
  {
    hide Held, Distinct, Indegrees, Lists, Counters, Valid, Acyclic, Producers, NoDup;
    var open := P - s.done;
    var missing :| missing in P && missing !in s.done by { assert s.done <= P; }
    assert missing in open;
    AcyclicIffSources(g, P);
    assert HasSource(g, open);
    var e :| e in open && Producers(g, e) !! open;
    assert NeedMap(g, P)[e] <= s.done;
    assert e in Elems(s.sh.ready);
  }

  /** As long as `run` has not returned, some thread can move without a spurious wakeup. */
  lemma NoDeadlock(w: World, plan: seq<EdgeId>, jobs: nat, disk: Disk, s: Sys)
    requires Runnable(w, plan, jobs) && Acyclic(w.g, Elems(plan))
    requires Reachable(w, plan, jobs, disk, s) && !s.main.Returned?
    ensures CanMove(w, s)
  {
    hide Reachable, Books, CanMove, Acyclic, Valid, AllEdges;
    ReachableInv(w, plan, jobs, disk, s);
    if i :| 0 <= i < |s.workers| && !Idle(s.workers[i]) {
      BusyWorkerMoves(w, plan, s, i);
    } else {
      if MainEnabled(s) {
        MainCanMove(w, s);
      } else {
        IdleMeansNobodyHolds(s.workers);
        MainIsNotStuck(w, plan, s);
      }
    }
  }

  lemma MainCanMove(w: World, s: Sys)
    requires MainEnabled(s)
    ensures CanMove(w, s)
  {
    assert Next(w, s, Main, MainMove(s));
  }

  /** All workers idle and the main thread blocked: impossible. */
  lemma MainIsNotStuck(w: World, plan: seq<EdgeId>, s: Sys)
    requires Valid(w.g) && NoDup(plan) && Elems(plan) <= AllEdges(w.g) && Acyclic(w.g, Elems(plan))
    requires Inv(w, plan, s) && |s.workers| > 0 && Held(s.workers) == {}
    requires forall i :: 0 <= i < |s.workers| ==> Idle(s.workers[i])
    requires !s.main.Returned?
    ensures MainEnabled(s)
  {
    hide NeedMap, Valid, AllEdges, Acyclic, Held, Books;
    assert !MainOwed(s);
    assert !s.main.ClosingNotify? ==> !WorkersOwed(s);
    if s.main.Sleeping? {
      CompleteMeansAllDone(NeedMap(w.g, Elems(plan)), s);
      NeedKeys(w.g, Elems(plan));
      assert s.workers[0].Asleep?;
      WorkIsReady(w.g, Elems(plan), s);
      assert false;
    }
  }
}
