/**
 The critical sections of `Scheduler`: what one holder of `mutex_` does to `indegree_`, `ready_queue_`, the
 counters and the flags. The class performs them in place; the predicates above it say, as relations on the
 shared state, what each of them is, and are what the step system in SchedulerSteps.dfy is made of.
 */
module Scheduler {
  import opened Prelude
  import opened Graphs
  import opened Planner

  /** The fields guarded by `mutex_`. */
  datatype Shared = Shared(
    indegree: map<EdgeId, int>,
    ready: seq<EdgeId>,
    total: int,
    completed: int,
    running: int,
    stopping: bool,
    failed: bool)

  datatype WaitOutcome = Sleep | Exit | Pick(edge: EdgeId)

  /** The state that `run` builds before it starts any thread; the ready order is that of a hash map. */
  ghost predicate Started(g: Graph, plan: seq<EdgeId>, sh: Shared)
  {
    var need := NeedMap(g, Elems(plan));
    && Indegrees(need, {}, sh.indegree)
    && Lists(sh.ready, Free(need, need.Keys, {}))
    && sh.total == |plan| && sh.completed == 0 && sh.running == 0
    && !sh.stopping && !sh.failed
  }

  /** `wait`'s predicate and the decision taken while the lock is still held. */
  function Decision(sh: Shared): WaitOutcome
  {
    if sh.stopping || sh.failed then Exit
    else if sh.ready == [] then Sleep
    else Pick(sh.ready[0])
  }

  /** The predicate of the main thread's wait. */
  predicate MainDone(sh: Shared)
  {
    sh.failed || sh.completed == sh.total
  }

  function Picked(sh: Shared): Shared
    requires sh.ready != []
  {
    sh.(ready := sh.ready[1..], running := sh.running + 1)
  }

  function FailedState(sh: Shared): Shared
  {
    sh.(failed := true, stopping := true)
  }

  /** The consumers of `e` that the plan contains. */
  function Released(g: Graph, e: EdgeId, sh: Shared): set<EdgeId>
  {
    Dependents(g, e) * sh.indegree.Keys
  }

  /**
   `finish_edge`: the counters move, each distinct in-plan consumer loses one from its indegree, and the ones
   that reach zero are appended to the queue in the order of a hash set.
   */
  ghost predicate FinishedBy(g: Graph, e: EdgeId, sh: Shared, sh': Shared)
  {
    && sh'.total == sh.total && sh'.stopping == sh.stopping && sh'.failed == sh.failed
    && sh'.completed == sh.completed + 1 && sh'.running == sh.running - 1
    && Decremented(sh.indegree, Released(g, e, sh), sh'.indegree)
    && |sh.ready| <= |sh'.ready| && sh'.ready[..|sh.ready|] == sh.ready
    && Lists(sh'.ready[|sh.ready|..], Zeroed(sh'.indegree, Released(g, e, sh)))
  }

  ghost predicate Decremented(before: map<EdgeId, int>, some: set<EdgeId>, after: map<EdgeId, int>)
  {
    && after.Keys == before.Keys
    && forall d :: d in before ==> after[d] == if d in some then before[d] - 1 else before[d]
  }

  function Zeroed(indegree: map<EdgeId, int>, among: set<EdgeId>): set<EdgeId>
  {
    set d | d in among && d in indegree && indegree[d] == 0
  }

  class Scheduler {
    const g: Graph
    const jobs: int
    const hasExecutor: bool
    var indegree: map<EdgeId, int>
    var ready: seq<EdgeId>
    var total: int
    var completed: int
    var running: int
    var stopping: bool
    var failed: bool

    ghost function State(): Shared
      reads this
    {
      Shared(indegree, ready, total, completed, running, stopping, failed)
    }

    constructor (g: Graph, jobs: int, hasExecutor: bool)
      ensures this.g == g && this.jobs == jobs && this.hasExecutor == hasExecutor
    {
      this.g, this.jobs, this.hasExecutor := g, jobs, hasExecutor;
      indegree, ready := map[], [];
      total, completed, running := 0, 0, 0;
      stopping, failed := false, false;
    }

    /** The part of `run` before the threads exist. Nothing of an earlier run survives. */
    method Begin(edges: seq<EdgeId>) returns (ok: bool)
      requires Valid(g) && NoDup(edges) && Elems(edges) <= AllEdges(g)
      modifies this
      ensures ok <==> jobs > 0 && hasExecutor
      ensures ok ==> Started(g, edges, State())
      ensures !ok ==> State() == old(State())
    {
      if jobs <= 0 {
        return false;
      }
      if !hasExecutor {
        return false;
      }
      total, completed, running := |edges|, 0, 0;
      stopping, failed := false, false;
      indegree, ready := CountProducers(g, edges);
      return true;
    }

    /** One turn of a worker's wait loop, with the lock held. */
    method TryPick() returns (outcome: WaitOutcome)
      modifies this
      ensures outcome == Decision(old(State()))
      ensures State() == if outcome.Pick? then Picked(old(State())) else old(State())
    {
      if stopping || failed {
        return Exit;
      }
      if ready == [] {
        return Sleep;
      }
      outcome := Pick(ready[0]);
      ready := ready[1..];
      running := running + 1;
    }

    method FinishEdge(e: EdgeId)
      requires Valid(g) && IsEdge(g, e)
      modifies this
      ensures FinishedBy(g, e, old(State()), State())
    {
      hide Valid, Dependents, Lists, Decremented, Zeroed;
      completed := completed + 1;
      running := running - 1;
      var unique := PlannedDependents(g, e, indegree.Keys);
      var freed;
      indegree, freed := DecrementAll(unique, indegree);
      assert (ready + freed)[|ready|..] == freed;
      ready := ready + freed;
    }

    method Fail()
      modifies this
      ensures State() == FailedState(old(State()))
    {
      failed := true;
      stopping := true;
    }

    method Stop()
      modifies this
      ensures State() == old(State()).(stopping := true)
    {
      stopping := true;
    }
  }

  /** Initial indegrees, counting each producer once, and the initial queue in arbitrary order. */
  method CountProducers(g: Graph, edges: seq<EdgeId>) returns (indegree: map<EdgeId, int>, ready: seq<EdgeId>)
    requires Valid(g) && NoDup(edges) && Elems(edges) <= AllEdges(g)
    ensures Indegrees(NeedMap(g, Elems(edges)), {}, indegree)
    ensures Lists(ready, Free(NeedMap(g, Elems(edges)), Elems(edges), {}))
  {
    ghost var need := NeedMap(g, Elems(edges));
    hide Lists, Pending, Valid, AllEdges, Producers, Adjacency;
    indegree := EdgesToZero(edges);
    MakeLists(edges);
    assert need.Keys == Elems(edges);
    ghost var counted := {};
    ListsEnds(edges, need.Keys, {});
    for k := 0 to |edges|
      invariant indegree.Keys == need.Keys && counted <= need.Keys && Lists(edges[..k], counted)
      invariant forall e :: e in counted ==> indegree[e] == Pending(need[e], {})
    {
      var e := edges[k];
      ListsStep(edges, need.Keys, k, counted);
      var unique := NeedOf(g, edges, need, indegree.Keys, e);
      NothingFinished(unique);
      indegree := indegree[e := |unique|];
      counted := counted + {e};
    }
    ListsEnds(edges, need.Keys, counted);
    ready := ZeroDegrees(need, indegree);
  }

  lemma MakeLists(edges: seq<EdgeId>)
    requires NoDup(edges)
    ensures Lists(edges, Elems(edges))
  {
  }

  method EdgesToZero(edges: seq<EdgeId>) returns (indegree: map<EdgeId, int>)
    ensures indegree.Keys == Elems(edges)
  {
    indegree := map[];
    for k := 0 to |edges|
      invariant indegree.Keys == Elems(edges[..k])
    {
      assert edges[..k + 1] == edges[..k] + [edges[k]];
      indegree := indegree[edges[k] := 0];
    }
    assert edges[..|edges|] == edges;
  }

  /** The walk over a hash map: keys come in any order. */
  method ZeroDegrees(ghost need: map<EdgeId, set<EdgeId>>, indegree: map<EdgeId, int>) returns (ready: seq<EdgeId>)
    requires Indegrees(need, {}, indegree)
    ensures Lists(ready, Free(need, need.Keys, {}))
  {
    hide Lists, Pending;
    ready := [];
    var todo := indegree.Keys;
    ghost var seen := {};
    ListsNothing<EdgeId>();
    assert Free(need, {}, {}) == {};
    while todo != {}
      invariant todo <= need.Keys && seen == need.Keys - todo
      invariant Lists(ready, Free(need, seen, {}))
      decreases todo
    {
      var e :| e in todo;
      todo := todo - {e};
      NonePending(need[e], {});
      FreeGrows(need, seen, e, {});
      if indegree[e] == 0 {
        ListsAppend(ready, Free(need, seen, {}), e);
        ready := ready + [e];
      }
      seen := seen + {e};
    }
    assert seen == need.Keys;
  }

  /** The distinct in-plan consumers of an edge's outputs. */
  method PlannedDependents(g: Graph, e: EdgeId, planned: set<EdgeId>) returns (unique: set<EdgeId>)
    requires Valid(g) && IsEdge(g, e)
    ensures unique == Dependents(g, e) * planned
  {
    hide ConsumersOf;
    unique := {};
    var outputs := g.edges[e].outputs;
    NoPathsNoConsumers(g);
    assert Elems(outputs[..0]) == {};
    for k := 0 to |outputs|
      invariant unique == ConsumersOf(g, Elems(outputs[..k])) * planned
    {
      var output := outputs[k];
      assert EdgeLinked(g, e);
      assert outputs[..k + 1] == outputs[..k] + [output];
      ElemsAppend(outputs[..k], output);
      ConsumersOfOneMore(g, Elems(outputs[..k]), output);
      var planConsumers := KeepPlanned(g.nodes[output].outEdges, planned);
      unique := unique + planConsumers;
    }
    assert outputs[..|outputs|] == outputs;
  }

  method KeepPlanned(consumers: seq<EdgeId>, planned: set<EdgeId>) returns (kept: set<EdgeId>)
    ensures kept == Elems(consumers) * planned
  {
    kept := {};
    for j := 0 to |consumers|
      invariant kept == Elems(consumers[..j]) * planned
    {
      assert consumers[..j + 1] == consumers[..j] + [consumers[j]];
      if consumers[j] in planned {
        kept := kept + {consumers[j]};
      }
    }
    assert consumers[..|consumers|] == consumers;
  }

  lemma NoPathsNoConsumers(g: Graph)
    ensures ConsumersOf(g, {}) == {}
  {
  }

  lemma ConsumersOfOneMore(g: Graph, paths: set<Path>, p: Path)
    requires p in g.nodes
    ensures ConsumersOf(g, paths + {p}) == ConsumersOf(g, paths) + Elems(g.nodes[p].outEdges)
  {
  }

  method DecrementAll(unique: set<EdgeId>, before: map<EdgeId, int>)
    returns (indegree: map<EdgeId, int>, freed: seq<EdgeId>)
    requires unique <= before.Keys
    ensures Decremented(before, unique, indegree)
    ensures Lists(freed, Zeroed(indegree, unique))
  {
    hide Lists;
    indegree, freed := before, [];
    var todo := unique;
    ListsNothing<EdgeId>();
    assert Zeroed(indegree, {}) == {} == unique - todo;
    while todo != {}
      invariant todo <= unique
      invariant Decremented(before, unique - todo, indegree)
      invariant Lists(freed, Zeroed(indegree, unique - todo))
      decreases todo
    {
      var d :| d in todo;
      ghost var zeroed := Zeroed(indegree, unique - todo);
      todo := todo - {d};
      indegree := indegree[d := indegree[d] - 1];
      if indegree[d] == 0 {
        ListsAppend(freed, zeroed, d);
        freed := freed + [d];
        assert Zeroed(indegree, unique - todo) == zeroed + {d};
      } else {
        assert Zeroed(indegree, unique - todo) == zeroed;
      }
    }
    assert unique - todo == unique;
  }
}
