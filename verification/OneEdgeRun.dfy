/** The scheduler on a plan of one edge, with one worker, from its first step to its return. */
module OneEdgeRun {
  import opened Prelude
  import opened Graphs
  import opened Planner
  import opened Scheduler
  import opened World
  import opened CachedEdges
  import opened SchedulerSteps
  import opened Incremental

  lemma Then(w: World, plan: seq<EdgeId>, jobs: nat, d0: Disk, s: Sys, step: Step, s': Sys)
    requires Reachable(w, plan, jobs, d0, s) && Next(w, s, step, s')
    ensures Reachable(w, plan, jobs, d0, s')
  {
    hide Next, Init;
    var run, steps :| IsRun(w, plan, jobs, d0, run, steps) && run[|steps|] == s;
    var longer, more := run + [s'], steps + [step];
    forall k | 0 <= k < |more|
      ensures Next(w, longer[k], more[k], longer[k + 1])
    {
      if k < |steps| {
        assert Next(w, run[k], steps[k], run[k + 1]);
      }
    }
    assert IsRun(w, plan, jobs, d0, longer, more) && longer[|more|] == s';
  }

  /** The counters and flags before and after the only edge. */
  function Fresh(e: EdgeId): Shared
  {
    Shared(map[e := 0], [e], 1, 0, 0, false, false)
  }

  function Busy(e: EdgeId): Shared
  {
    Shared(map[e := 0], [], 1, 0, 1, false, false)
  }

  function Complete(e: EdgeId, stopping: bool): Shared
  {
    Shared(map[e := 0], [], 1, 1, 0, stopping, false)
  }

  /** An edge that does not need itself. */
  ghost predicate Alone(w: World, e: EdgeId)
  {
    e < |w.command| && e !in Producers(w.g, e) && e !in Dependents(w.g, e)
  }

  lemma OnlyNeeds(w: World, e: EdgeId)
    requires Alone(w, e)
    ensures NeedMap(w.g, {e}) == map[e := {}]
  {
    hide Producers, Dependents;
    var need := NeedMap(w.g, {e});
    NeedKeys(w.g, {e});
    assert need[e] == Producers(w.g, e) * {e} == {};
  }

  lemma StartsFresh(w: World, e: EdgeId)
    requires Alone(w, e)
    ensures Started(w.g, [e], Fresh(e))
  {
    OnlyNeeds(w, e);
    hide Alone;
    assert Elems([e]) == {e};
    var need := NeedMap(w.g, {e});
    hide NeedMap;
    assert Free(need, need.Keys, {}) == {e};
  }

  lemma Starts(w: World, e: EdgeId, d0: Disk)
    requires Alone(w, e)
    ensures Reachable(w, [e], 1, d0, Sys(Fresh(e), [NotStarted], Spawning(0), {}, {}, [], d0))
  {
    StartsFresh(w, e);
    hide Started, Alone;
    var s := Sys(Fresh(e), [NotStarted], Spawning(0), {}, {}, [], d0);
    assert Init(w, [e], 1, d0, s);
    var run, steps: seq<Step> := [s], [];
    assert IsRun(w, [e], 1, d0, run, steps) && run[|steps|] == s;
  }

  /** The worker is created, and the main thread waits. */
  lemma Opens(w: World, e: EdgeId, d0: Disk)
    requires Alone(w, e)
    ensures Reachable(w, [e], 1, d0, Sys(Fresh(e), [Looping], Waiting, {}, {}, [], d0))
  {
    Starts(w, e, d0);
    hide Reachable, Alone;
    var s0 := Sys(Fresh(e), [NotStarted], Spawning(0), {}, {}, [], d0);
    var s1 := Sys(Fresh(e), [Looping], Spawning(1), {}, {}, [], d0);
    var s2 := Sys(Fresh(e), [Looping], Opening, {}, {}, [], d0);
    var s3 := Sys(Fresh(e), [Looping], Waiting, {}, {}, [], d0);
    Then(w, [e], 1, d0, s0, Main, s1);
    Then(w, [e], 1, d0, s1, Main, s2);
    assert Wake([Looping]) == [Looping];
    Then(w, [e], 1, d0, s2, Main, s3);
  }

  /** The worker picks the edge, and its command succeeds. */
  lemma Works(w: World, e: EdgeId, d0: Disk, now: int, d: Disk)
    requires Alone(w, e) && d0.clock <= now
    requires EdgeSucceeds(w.tools, w.command[e], ContentsOf(d0.files), now, d0, d)
    ensures Reachable(w, [e], 1, d0, Sys(Busy(e), [Ran(e, true)], Waiting, {}, {}, [e], d))
  {
    Opens(w, e, d0);
    assert e < |w.command|;
    hide Reachable, Alone, EdgeSucceeds, ContentsOf;
    var s3 := Sys(Fresh(e), [Looping], Waiting, {}, {}, [], d0);
    var s4 := Sys(Busy(e), [Holding(e)], Waiting, {}, {}, [e], d0);
    var s5 := Sys(Busy(e), [Running(e, ContentsOf(d0.files))], Waiting, {}, {}, [e], d0);
    var s6 := Sys(Busy(e), [Ran(e, true)], Waiting, {}, {}, [e], d);
    Then(w, [e], 1, d0, s3, Loop(0), s4);
    Then(w, [e], 1, d0, s4, Read(0), s5);
    Then(w, [e], 1, d0, s5, Succeed(0, now), s6);
  }

  lemma Finishes(w: World, e: EdgeId, d0: Disk, d: Disk)
    requires Alone(w, e) && Reachable(w, [e], 1, d0, Sys(Busy(e), [Ran(e, true)], Waiting, {}, {}, [e], d))
    ensures Reachable(w, [e], 1, d0, Sys(Complete(e, false), [Looping], Waiting, {e}, {}, [e], d))
  {
    hide Reachable, Producers, Dependents;
    var s6 := Sys(Busy(e), [Ran(e, true)], Waiting, {}, {}, [e], d);
    var s7 := Sys(Complete(e, false), [Announcing], Waiting, {e}, {}, [e], d);
    var s8 := Sys(Complete(e, false), [Looping], Waiting, {e}, {}, [e], d);
    assert Released(w.g, e, s6.sh) == {};
    assert FinishedBy(w.g, e, s6.sh, s7.sh);
    Then(w, [e], 1, d0, s6, Finish(0), s7);
    assert Wake([Announcing]) == [Announcing];
    Then(w, [e], 1, d0, s7, Announce(0), s8);
  }

  lemma Closes(w: World, e: EdgeId, d0: Disk, d: Disk)
    requires Reachable(w, [e], 1, d0, Sys(Complete(e, false), [Looping], Waiting, {e}, {}, [e], d))
    ensures Reachable(w, [e], 1, d0, Sys(Complete(e, true), [Exited], Returned, {e}, {}, [e], d))
  {
    hide Reachable;
    var s8 := Sys(Complete(e, false), [Looping], Waiting, {e}, {}, [e], d);
    var s9 := Sys(Complete(e, false), [Looping], Closing, {e}, {}, [e], d);
    var s10 := Sys(Complete(e, true), [Looping], ClosingNotify, {e}, {}, [e], d);
    var s11 := Sys(Complete(e, true), [Looping], Joining(0), {e}, {}, [e], d);
    var s12 := Sys(Complete(e, true), [Exited], Joining(0), {e}, {}, [e], d);
    var s13 := Sys(Complete(e, true), [Exited], Joining(1), {e}, {}, [e], d);
    var s14 := Sys(Complete(e, true), [Exited], Returned, {e}, {}, [e], d);
    Then(w, [e], 1, d0, s8, Main, s9);
    Then(w, [e], 1, d0, s9, Main, s10);
    assert Wake([Looping]) == [Looping];
    Then(w, [e], 1, d0, s10, Main, s11);
    Then(w, [e], 1, d0, s11, Loop(0), s12);
    Then(w, [e], 1, d0, s12, Main, s13);
    Then(w, [e], 1, d0, s13, Main, s14);
  }

  /** Whatever a successful `execute_edge` makes of the disk, a run of the plan `[e]` can leave it so. */
  lemma OneEdgeBuilds(w: World, e: EdgeId, d0: Disk, now: int, d: Disk)
    requires Alone(w, e) && d0.clock <= now
    requires EdgeSucceeds(w.tools, w.command[e], ContentsOf(d0.files), now, d0, d)
    ensures Built(w, [e], 1, d0, d)
  {
    Works(w, e, d0, now, d);
    Finishes(w, e, d0, d);
    Closes(w, e, d0, d);
    hide Reachable, Alone, EdgeSucceeds;
    var s := Sys(Complete(e, true), [Exited], Returned, {e}, {}, [e], d);
    assert Reachable(w, [e], 1, d0, s) && s.main.Returned? && !s.sh.failed && s.disk == d;
  }
}
