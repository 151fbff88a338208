/**
 `BuildPlanner::plan` and `BuildGraphValidator::validate`: Kahn's algorithm over a list of edges.
 The methods keep the source's loops, maps and queue; the contract of `Plan` names none of them.
 */
module Planner {
  import opened Prelude
  import opened Graphs

  datatype PlanError = CycleDetected

  /** For every member of the planned set `S`, its distinct producers inside `S`. */
  function NeedMap(g: Graph, S: set<EdgeId>): map<EdgeId, set<EdgeId>>
  {
    map e | e in S :: Producers(g, e) * S
  }

  lemma NeedKeys(g: Graph, S: set<EdgeId>)
    ensures NeedMap(g, S).Keys == S
  {
  }

  /** The collection of distinct in-plan producers of one edge (the inner loop of both Kahn and the scheduler). */
  method UniqueProducers(g: Graph, planned: set<EdgeId>, e: EdgeId) returns (producers: set<EdgeId>)
    requires Valid(g) && IsEdge(g, e)
    ensures producers == Producers(g, e) * planned
  {
    producers := {};
    var inputs := g.edges[e].inputs;
    ProducersOfInputs(g, e, planned);
    hide *;
    for k := 0 to |inputs|
      invariant producers == PlannedProducers(g, inputs[..k], planned)
    {
      OneMoreInput(g, inputs, k, planned);
      var producer := g.nodes[inputs[k]].inEdge;
      if producer.Some? && producer.value in planned {
        producers := producers + {producer.value};
      }
    }
    assert inputs[..|inputs|] == inputs;
  }

  /** The distinct in-plan producers of these inputs. */
  function PlannedProducers(g: Graph, inputs: seq<Path>, planned: set<EdgeId>): set<EdgeId>
  {
    ProducersOf(g, Elems(inputs)) * planned
  }

  lemma OneMoreInput(g: Graph, inputs: seq<Path>, k: nat, planned: set<EdgeId>)
    requires k < |inputs| && inputs[k] in g.nodes
    ensures var before, producer := PlannedProducers(g, inputs[..k], planned), g.nodes[inputs[k]].inEdge;
      PlannedProducers(g, inputs[..k + 1], planned) ==
      if producer.Some? && producer.value in planned then before + {producer.value} else before
  {
    assert inputs[..k + 1] == inputs[..k] + [inputs[k]];
    ElemsAppend(inputs[..k], inputs[k]);
    hide Elems;
    ProducersOfOneMore(g, Elems(inputs[..k]), inputs[k]);
    hide ProducersOf;
  }

  lemma ProducersOfInputs(g: Graph, e: EdgeId, planned: set<EdgeId>)
    requires Valid(g) && IsEdge(g, e)
    ensures forall k :: 0 <= k < |g.edges[e].inputs| ==> g.edges[e].inputs[k] in g.nodes
    ensures PlannedProducers(g, g.edges[e].inputs[..0], planned) == {}
    ensures Producers(g, e) * planned == PlannedProducers(g, g.edges[e].inputs, planned)
  {
    assert EdgeLinked(g, e);
    hide Valid;
    assert Elems(g.edges[e].inputs[..0]) == {};
    hide Elems;
    NoPathsNoProducers(g);
  }

  lemma NoPathsNoProducers(g: Graph)
    ensures ProducersOf(g, {}) == {}
  {
  }

  /** `dependents[f]` lists, each once, the members of `listed` that need `f`. */
  ghost predicate Adjacency(need: map<EdgeId, set<EdgeId>>, listed: set<EdgeId>, dependents: map<EdgeId, seq<EdgeId>>)
    requires listed <= need.Keys
  {
    && dependents.Keys == need.Keys
    && forall f :: f in need ==> Lists(dependents[f], Consumers(need, listed, f))
  }

  function Consumers(need: map<EdgeId, set<EdgeId>>, listed: set<EdgeId>, f: EdgeId): set<EdgeId>
    requires listed <= need.Keys
  {
    set e | e in listed && f in need[e]
  }

  /** How many members of `P` are not finished. */
  ghost function Pending(P: set<EdgeId>, finished: set<EdgeId>): nat
  {
    |P - finished|
  }

  /** Every indegree counts the producers that are not finished yet. */
  ghost predicate Indegrees(need: map<EdgeId, set<EdgeId>>, finished: set<EdgeId>, indegree: map<EdgeId, int>)
  {
    && indegree.Keys == need.Keys
    && forall e :: e in need ==> indegree[e] == Pending(need[e], finished)
  }

  method BuildTables(g: Graph, edges: seq<EdgeId>, ghost need: map<EdgeId, set<EdgeId>>)
    returns (indegree: map<EdgeId, nat>, dependents: map<EdgeId, seq<EdgeId>>)
    requires Valid(g) && Lists(edges, need.Keys) && Elems(edges) <= AllEdges(g)
    requires need == NeedMap(g, Elems(edges))
    ensures Indegrees(need, {}, indegree)
    ensures Adjacency(need, need.Keys, dependents)
  {
    hide Lists, Pending, Valid, AllEdges, Adjacency, Producers;
    indegree, dependents := EmptyTables(edges);
    EmptyAdjacency(need, dependents);
    ghost var listed := {};
    ListsEnds(edges, need.Keys, {});
    for k := 0 to |edges|
      invariant indegree.Keys == need.Keys && listed <= need.Keys && Lists(edges[..k], listed)
      invariant forall e :: e in listed ==> indegree[e] == Pending(need[e], {})
      invariant Adjacency(need, listed, dependents)
    {
      var e := edges[k];
      ListsStep(edges, need.Keys, k, listed);
      var unique := NeedOf(g, edges, need, indegree.Keys, e);
      NothingFinished(unique);
      indegree := indegree[e := |unique|];
      dependents := AddConsumer(need, listed, e, unique, dependents);
      listed := listed + {e};
    }
    ListsEnds(edges, need.Keys, listed);
  }

  method NeedOf(g: Graph, ghost edges: seq<EdgeId>, ghost need: map<EdgeId, set<EdgeId>>, planned: set<EdgeId>,
      e: EdgeId)
    returns (unique: set<EdgeId>)
    requires Valid(g) && Elems(edges) <= AllEdges(g)
    requires need == NeedMap(g, Elems(edges)) && planned == need.Keys && e in need
    ensures unique == need[e] <= need.Keys
  {
    unique := UniqueProducers(g, planned, e);
  }

  lemma EmptyAdjacency(need: map<EdgeId, set<EdgeId>>, dependents: map<EdgeId, seq<EdgeId>>)
    requires dependents.Keys == need.Keys && forall f :: f in dependents ==> dependents[f] == []
    ensures Adjacency(need, {}, dependents)
  {
  }

  method EmptyTables(edges: seq<EdgeId>) returns (indegree: map<EdgeId, nat>, dependents: map<EdgeId, seq<EdgeId>>)
    ensures indegree.Keys == Elems(edges) == dependents.Keys
    ensures forall f :: f in dependents ==> dependents[f] == []
  {
    indegree, dependents := map[], map[];
    for k := 0 to |edges|
      invariant indegree.Keys == Elems(edges[..k]) == dependents.Keys
      invariant forall f :: f in dependents ==> dependents[f] == []
    {
      assert edges[..k + 1] == edges[..k] + [edges[k]];
      indegree := indegree[edges[k] := 0];
      dependents := dependents[edges[k] := []];
    }
    assert edges[..|edges|] == edges;
  }

  /** `e` is appended to the list of each of its producers, in the arbitrary order of a hash set. */
  method AddConsumer(ghost need: map<EdgeId, set<EdgeId>>, ghost listed: set<EdgeId>, e: EdgeId,
                     unique: set<EdgeId>, before: map<EdgeId, seq<EdgeId>>)
    returns (dependents: map<EdgeId, seq<EdgeId>>)
    requires listed <= need.Keys && e in need && e !in listed
    requires unique == need[e] <= need.Keys
    requires Adjacency(need, listed, before)
    ensures Adjacency(need, listed + {e}, dependents)
  {
    hide Lists, Pending;
    dependents := before;
    var todo := unique;
    while todo != {}
      invariant todo <= unique
      invariant dependents.Keys == need.Keys
      invariant forall f :: f in need ==>
          dependents[f] == if f in unique && f !in todo then before[f] + [e] else before[f]
      decreases todo
    {
      var producer :| producer in todo;
      dependents := dependents[producer := dependents[producer] + [e]];
      todo := todo - {producer};
    }
    forall f | f in need
      ensures Lists(dependents[f], Consumers(need, listed + {e}, f))
    {
      if f in unique {
        ListsAppend(before[f], Consumers(need, listed, f), e);
        assert Consumers(need, listed + {e}, f) == Consumers(need, listed, f) + {e};
      } else {
        assert Consumers(need, listed + {e}, f) == Consumers(need, listed, f);
      }
    }
  }

  /**
   The queue discipline of Kahn's loop: `result` is already in order, `ready` holds exactly the other
   edges whose planned producers are all in `result`.
   */
  ghost predicate KahnState(need: map<EdgeId, set<EdgeId>>, result: seq<EdgeId>, ready: seq<EdgeId>)
  {
    && NoDup(result + ready)
    && (forall e :: e in result || e in ready ==> e in need)
    && (forall e :: e in need && e !in result ==> (e in ready <==> need[e] <= Elems(result)))
    && (forall k :: 0 <= k < |result| ==> need[result[k]] <= Elems(result[..k]))
  }

  /** Those of `among` that have no unfinished producer left. */
  function Free(need: map<EdgeId, set<EdgeId>>, among: set<EdgeId>, finished: set<EdgeId>): set<EdgeId>
  {
    set e | e in among && e in need && need[e] <= finished
  }

  /** The scan of the popped edge's consumers: each loses one from its indegree, the freed ones are queued. */
  method Release(ghost need: map<EdgeId, set<EdgeId>>, ghost finished: set<EdgeId>, ghost current: EdgeId,
                 list: seq<EdgeId>, rest: seq<EdgeId>, degrees: map<EdgeId, nat>)
    returns (ready: seq<EdgeId>, indegree: map<EdgeId, nat>, ghost freed: seq<EdgeId>)
    requires current !in finished && Lists(list, Consumers(need, need.Keys, current))
    requires Indegrees(need, finished, degrees)
    ensures Indegrees(need, finished + {current}, indegree)
    ensures ready == rest + freed
    ensures Lists(freed, Free(need, Consumers(need, need.Keys, current), finished + {current}))
  {
    hide Lists, Pending;
    ghost var later, seen := finished + {current}, {};
    ghost var consumers := Consumers(need, need.Keys, current);
    ready, indegree, freed := rest, degrees, [];
    ListsEnds(list, consumers, {});
    ListsNothing<EdgeId>();
    assert Free(need, {}, later) == {};
    for k := 0 to |list|
      invariant Lists(list[..k], seen) && seen <= consumers
      invariant indegree.Keys == need.Keys
      invariant forall e :: e in need ==> indegree[e] == Pending(need[e], if e in seen then later else finished)
      invariant ready == rest + freed && Lists(freed, Free(need, seen, later))
    {
      var dependent := list[k];
      ListsStep(list, consumers, k, seen);
      OneFewer(need[dependent], finished, current);
      if indegree[dependent] == 0 {
        // The "invalid build planner indegree state" exception of the source.
        assert false;
      }
      indegree := indegree[dependent := indegree[dependent] - 1];
      NonePending(need[dependent], later);
      FreeGrows(need, seen, dependent, later);
      if indegree[dependent] == 0 {
        ready := ready + [dependent];
        ListsAppend(freed, Free(need, seen, later), dependent);
        freed := freed + [dependent];
      }
      seen := seen + {dependent};
    }
    ListsEnds(list, consumers, seen);
    forall e | e in need && e !in consumers
      ensures Pending(need[e], finished) == Pending(need[e], later)
    {
      SamePending(need[e], finished, current);
    }
  }

  lemma FreeGrows(need: map<EdgeId, set<EdgeId>>, seen: set<EdgeId>, e: EdgeId, finished: set<EdgeId>)
    requires e in need
    ensures need[e] <= finished ==> Free(need, seen + {e}, finished) == Free(need, seen, finished) + {e}
    ensures !(need[e] <= finished) ==> Free(need, seen + {e}, finished) == Free(need, seen, finished)
  {
  }

  lemma OneFewer(P: set<EdgeId>, finished: set<EdgeId>, current: EdgeId)
    requires current in P && current !in finished
    ensures Pending(P, finished) == Pending(P, finished + {current}) + 1
  {
    assert P - finished == (P - (finished + {current})) + {current};
  }

  lemma SamePending(P: set<EdgeId>, finished: set<EdgeId>, current: EdgeId)
    requires current !in P
    ensures Pending(P, finished) == Pending(P, finished + {current})
  {
    assert P - finished == P - (finished + {current});
  }

  lemma NothingFinished(P: set<EdgeId>)
    ensures Pending(P, {}) == |P|
  {
    assert P - {} == P;
  }

  lemma NonePending(P: set<EdgeId>, finished: set<EdgeId>)
    ensures Pending(P, finished) == 0 <==> P <= finished
  {
    if P <= finished {
      assert P - finished == {};
    } else {
      var x :| x in P && x !in finished;
      assert x in P - finished;
    }
  }

  lemma ReleaseKeepsState(need: map<EdgeId, set<EdgeId>>, result: seq<EdgeId>, current: EdgeId,
                          rest: seq<EdgeId>, freed: seq<EdgeId>)
    requires KahnState(need, result, [current] + rest)
    requires Lists(freed, Free(need, Consumers(need, need.Keys, current), Elems(result) + {current}))
    ensures KahnState(need, result + [current], rest + freed)
  {
    var later, ready := result + [current], rest + freed;
    ElemsAppend(result, current);
    forall e
      ensures e in freed <==> e in need && current in need[e] && need[e] <= Elems(later)
    {
      ListsIn(freed, Free(need, Consumers(need, need.Keys, current), Elems(result) + {current}), e);
    }
    NoDupAfterRelease(need, result, current, rest, freed);
    forall e | e in need && e !in later
      ensures e in ready <==> need[e] <= Elems(later)
    {
      assert e in [current] + rest <==> e in rest;
    }
    forall k | 0 <= k < |later|
      ensures need[later[k]] <= Elems(later[..k])
    {
      assert later[..k] == result[..k];
      if k == |result| {
        PoppedIsFree(need, result, current, rest);
        assert result[..k] == result;
      }
    }
  }

  lemma NoDupAfterRelease(need: map<EdgeId, set<EdgeId>>, result: seq<EdgeId>, current: EdgeId,
                          rest: seq<EdgeId>, freed: seq<EdgeId>)
    requires KahnState(need, result, [current] + rest)
    requires NoDup(freed)
    requires forall e :: e in freed ==> e in need && current in need[e]
    ensures NoDup((result + [current]) + (rest + freed))
  {
    assert result + ([current] + rest) == (result + [current]) + rest;
    forall e | e in freed
      ensures e !in (result + [current]) + rest
    {
      NotYetPlaced(need, result, current, rest, e);
    }
    NoDupConcat((result + [current]) + rest, freed);
    assert ((result + [current]) + rest) + freed == (result + [current]) + (rest + freed);
  }

  lemma PoppedIsFree(need: map<EdgeId, set<EdgeId>>, result: seq<EdgeId>, current: EdgeId, rest: seq<EdgeId>)
    requires KahnState(need, result, [current] + rest)
    ensures current in need && current !in result && current !in rest
    ensures need[current] <= Elems(result)
  {
    var all := result + ([current] + rest);
    assert all[|result|] == current;
    forall i | 0 <= i < |result|
      ensures result[i] != current
    {
      assert all[i] == result[i];
    }
    forall i | 0 <= i < |rest|
      ensures rest[i] != current
    {
      assert all[|result| + 1 + i] == rest[i];
    }
    assert current in [current] + rest;
  }

  /** An edge that still needs `current` cannot have been placed before `current` or queued beside it. */
  lemma NotYetPlaced(need: map<EdgeId, set<EdgeId>>, result: seq<EdgeId>, current: EdgeId, rest: seq<EdgeId>, e: EdgeId)
    requires KahnState(need, result, [current] + rest)
    requires e in need && current in need[e]
    ensures e !in (result + [current]) + rest
  {
    PoppedIsFree(need, result, current, rest);
    forall k | 0 <= k < |result|
      ensures result[k] != e
    {
      assert current !in Elems(result[..k]);
    }
    forall x | x in [current] + rest
      ensures x != e
    {
      assert need[x] <= Elems(result);
    }
  }

  /** The edges that are ready before anything has run. */
  method InitialReady(edges: seq<EdgeId>, ghost need: map<EdgeId, set<EdgeId>>, indegree: map<EdgeId, nat>)
    returns (ready: seq<EdgeId>)
    requires NoDup(edges) && need.Keys == Elems(edges) && Indegrees(need, {}, indegree)
    ensures KahnState(need, [], ready)
  {
    ready := Roots(edges, need, indegree);
    assert [] + ready == ready;
    forall e
      ensures e in ready <==> e in need && need[e] <= {}
    {
      ListsIn(ready, Free(need, need.Keys, {}), e);
    }
  }

  method Roots(edges: seq<EdgeId>, ghost need: map<EdgeId, set<EdgeId>>, indegree: map<EdgeId, nat>)
    returns (ready: seq<EdgeId>)
    requires Lists(edges, need.Keys) && Indegrees(need, {}, indegree)
    ensures Lists(ready, Free(need, need.Keys, {}))
  {
    hide Lists, Pending;
    ready := [];
    ghost var seen := {};
    ListsEnds(edges, need.Keys, {});
    ListsNothing<EdgeId>();
    assert Free(need, {}, {}) == {};
    for k := 0 to |edges|
      invariant Lists(edges[..k], seen) && seen <= need.Keys
      invariant Lists(ready, Free(need, seen, {}))
    {
      var e := edges[k];
      ListsStep(edges, need.Keys, k, seen);
      NonePending(need[e], {});
      FreeGrows(need, seen, e, {});
      if indegree[e] == 0 {
        ListsAppend(ready, Free(need, seen, {}), e);
        ready := ready + [e];
      }
      seen := seen + {e};
    }
    ListsEnds(edges, need.Keys, seen);
  }

  /** `BuildPlanner::plan` on a list of distinct edges. */
  method Plan(g: Graph, edges: seq<EdgeId>) returns (r: Result<seq<EdgeId>, PlanError>)
    requires Valid(g) && NoDup(edges) && Elems(edges) <= AllEdges(g)
    ensures r.Ok? <==> Acyclic(g, Elems(edges))
    ensures r.Ok? ==> Topological(g, r.value) && multiset(r.value) == multiset(edges)
    ensures r.Err? ==> exists w :: ClosedWalk(g, Elems(edges), w)
  {
    hide NoDup, AllEdges, Valid, Producers, KahnState, Indegrees, Adjacency, Topological, ClosedWalk;
    ghost var need := NeedMap(g, Elems(edges));
    var indegree, dependents := BuildTables(g, edges, need);
    var result: seq<EdgeId> := [];
    var ready := InitialReady(edges, need, indegree);
    assert Elems(result) == {};
    while ready != []
      invariant KahnState(need, result, ready) && |result| <= |need.Keys|
      invariant Indegrees(need, Elems(result), indegree)
      decreases |need.Keys| - |result|
    {
      var current := ready[0];
      ready, indegree := KahnTurn(need, dependents, result, ready, indegree);
      result := result + [current];
    }
    if |result| != |edges| {
      StuckGivesCycle(g, edges, result);
      return Err(CycleDetected);
    }
    CompleteIsTopological(g, edges, result);
    return Ok(result);
  }

  /** One turn of the queue: the front edge leaves it, the consumers it frees join it. */
  method KahnTurn(ghost need: map<EdgeId, set<EdgeId>>, dependents: map<EdgeId, seq<EdgeId>>, ghost result: seq<EdgeId>,
                  queue: seq<EdgeId>, degrees: map<EdgeId, nat>)
    returns (ready: seq<EdgeId>, indegree: map<EdgeId, nat>)
    requires Adjacency(need, need.Keys, dependents)
    requires queue != [] && KahnState(need, result, queue) && Indegrees(need, Elems(result), degrees)
    ensures KahnState(need, result + [queue[0]], ready) && |result + [queue[0]]| <= |need.Keys|
    ensures Indegrees(need, Elems(result + [queue[0]]), indegree)
  {
    var current, rest := queue[0], queue[1..];
    assert queue == [current] + rest;
    PoppedIsFree(need, result, current, rest);
    ElemsAppend(result, current);
    assert current in dependents && Lists(dependents[current], Consumers(need, need.Keys, current));
    hide *;
    ghost var freed;
    ready, indegree, freed := Release(need, Elems(result), current, dependents[current], rest, degrees);
    ReleaseKeepsState(need, result, current, rest, freed);
    ResultFits(need, result + [current], ready);
  }

  lemma ResultFits(need: map<EdgeId, set<EdgeId>>, result: seq<EdgeId>, ready: seq<EdgeId>)
    requires KahnState(need, result, ready)
    ensures NoDup(result) && Elems(result) <= need.Keys
    ensures |result| == |Elems(result)| <= |need.Keys|
  {
    forall i, j | 0 <= i < j < |result|
      ensures result[i] != result[j]
    {
      assert (result + ready)[i] == result[i] && (result + ready)[j] == result[j];
    }
    NoDupSize(result);
    SubsetSize(Elems(result), need.Keys);
  }

  lemma StuckEdgesNeedEachOther(g: Graph, S: set<EdgeId>, result: seq<EdgeId>)
    requires KahnState(NeedMap(g, S), result, []) && S != Elems(result)
    ensures S - Elems(result) != {} && !HasSource(g, S - Elems(result))
  {
    hide Producers;
    var need, U := NeedMap(g, S), S - Elems(result);
    ResultFits(need, result, []);
    var missing :| missing in S && missing !in Elems(result);
    assert missing in U;
    forall e | e in U
      ensures !(Producers(g, e) !! U)
    {
      assert !(need[e] <= Elems(result));
      var f :| f in need[e] && f !in Elems(result);
      assert f in U;
    }
  }

  lemma StuckGivesCycle(g: Graph, edges: seq<EdgeId>, result: seq<EdgeId>)
    requires Elems(edges) <= AllEdges(g) && NoDup(edges)
    requires KahnState(NeedMap(g, Elems(edges)), result, []) && |result| != |edges|
    ensures exists w :: ClosedWalk(g, Elems(edges), w)
  {
    var S, need := Elems(edges), NeedMap(g, Elems(edges));
    ResultFits(need, result, []);
    NoDupSize(edges);
    assert Elems(result) != S;
    StuckEdgesNeedEachOther(g, S, result);
    var U := S - Elems(result);
    NoSourceGivesCycle(g, U);
    var w :| ClosedWalk(g, U, w);
    assert ClosedWalk(g, S, w);
  }

  lemma CompleteIsTopological(g: Graph, edges: seq<EdgeId>, result: seq<EdgeId>)
    requires Elems(edges) <= AllEdges(g) && NoDup(edges)
    requires KahnState(NeedMap(g, Elems(edges)), result, []) && |result| == |edges|
    ensures Topological(g, result) && multiset(result) == multiset(edges) && Acyclic(g, Elems(edges))
  {
    var S, need := Elems(edges), NeedMap(g, Elems(edges));
    ResultFits(need, result, []);
    NoDupSize(edges);
    SubsetSize(Elems(result), S);
    forall i, j | 0 <= i <= j < |result|
      ensures result[j] !in Producers(g, result[i])
    {
      assert result[i] in Elems(result) && result[j] in Elems(result);
      assert result[j] !in Elems(result[..i]);
      assert result[j] !in need[result[i]];
    }
    TopologicalIsAcyclic(g, result);
    NoDupPermutation(result, edges);
  }

  /**
   `BuildGraphValidator::validate` plans the list of all edges. Once that succeeds, planning any list of
   distinct edges of the same graph succeeds as well.
   */
  method Validate(g: Graph) returns (r: Result<(), PlanError>)
    requires Valid(g)
    ensures r.Ok? <==> Acyclic(g, AllEdges(g))
    ensures r.Ok? ==> forall S :: S <= AllEdges(g) ==> Acyclic(g, S)
  {
    var all: seq<EdgeId> := [];
    for e := 0 to |g.edges|
      invariant |all| == e && forall i :: 0 <= i < e ==> all[i] == i
    {
      all := all + [e];
    }
    forall e | e in AllEdges(g)
      ensures e in Elems(all)
    {
      assert all[e] == e;
    }
    assert Elems(all) == AllEdges(g);
    var planned := Plan(g, all);
    if planned.Err? {
      return Err(planned.error);
    }
    forall S | S <= AllEdges(g)
      ensures Acyclic(g, S)
    {
      AcyclicSubset(g, AllEdges(g), S);
    }
    return Ok(());
  }
}
